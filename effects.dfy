/** What the Gmail agent does, as values. Every step is a function from the
    agent's log before the step (the driver calls it attempted and the status
    messages it produced so far, in order) to the log after it, together
    with how the step ends. The methods of `Agent.BrowserAgent` are proved to
    leave exactly these logs; the lemmas of module `AgentFacts` are about
    these functions. */
module Effects {
  import opened Search
  import opened Paths
  import opened Driver
  import opened Messages

  /** One observable effect of the agent. */
  datatype Effect =
    | Do(call: Call)                              // a driver call is attempted
    | Emit(msg: Msg, image: Option<string>)       // handed to the emit callback
    | Print(msg: Msg)                             // its text printed, when there is no callback

  /** How diagnostics are recorded: the screenshot directory and whether an
      emit callback was given to the agent. */
  datatype Recorder = Recorder(dir: string, callback: bool)

  /** How a phase of the workflow ends: it lets the next phase run, it makes
      the whole operation return `result`, or an exception raised by driver
      call `at` reaches the operation's catch-all handler. */
  datatype Flow = Next | Done(result: bool) | Raised(at: Call)

  /** The log after a phase and how the phase ends. */
  datatype Run = Run(log: seq<Effect>, flow: Flow)

  // ---------------------------------------------------------------------
  // Diagnostics: `_emit` and `wait_and_screenshot`

  /** `_emit(text, image_path)`: through the callback when there is one,
      otherwise printed (no message text is empty, see `Messages.Text`). */
  function Note(rec: Recorder, l: seq<Effect>, m: Msg, image: Option<string>): seq<Effect>
  {
    l + [if rec.callback then Emit(m, image) else Print(m)]
  }

  /** Where the screenshot of step `name` is written. */
  function ShotPath(rec: Recorder, name: string): string
  {
    Join(rec.dir, name + ".png")
  }

  /** `wait_and_screenshot(name)` on a live driver: the save is attempted;
      the image path goes out with the message only when the save worked. */
  function Shot(rec: Recorder, b: Browser, l: seq<Effect>, name: string): seq<Effect>
  {
    var path := ShotPath(rec, name);
    var saving := l + [Do(Save(name))];
    if b.ok(Save(name)) then Note(rec, saving, ShotSaved(path), Some(path))
    else Note(rec, saving, ShotFailed(b.error(Save(name))), None)
  }

  /** `wait_and_screenshot(name)` in general, with the path it returns. */
  function WaitShot(rec: Recorder, drv: Option<Browser>, l: seq<Effect>, name: string): (Option<string>, seq<Effect>)
  {
    if drv.None? then (None, Note(rec, l, Says(NoDriverShot), None))
    else (Some(ShotPath(rec, name)), Shot(rec, drv.value, l, name))
  }

  // ---------------------------------------------------------------------
  // `human_type`: clear the field, then one keystroke per character, and
  // stop at the first call that raises.

  /** For each character of `text`, whether its keystroke raises. */
  function KeyFailures(b: Browser, f: Field, text: string): seq<bool>
  {
    seq(|text|, i requires 0 <= i < |text| => !b.ok(Key(f, i, text[i])))
  }

  /** The keystrokes of the first n characters. */
  function KeysDone(f: Field, text: string, n: nat, l: seq<Effect>): seq<Effect>
    requires n <= |text|
  {
    if n == 0 then l else KeysDone(f, text, n - 1, l) + [Do(Key(f, n - 1, text[n - 1]))]
  }

  /** `human_type(element, text)` on a resolved field. */
  function Typing(rec: Recorder, b: Browser, f: Field, text: string, l: seq<Effect>): seq<Effect>
  {
    var cleared := l + [Do(Clear(f))];
    if !b.ok(Clear(f)) then Note(rec, cleared, TypingFailed(b.error(Clear(f))), None)
    else match FirstTrue(KeyFailures(b, f, text))
      case None => KeysDone(f, text, |text|, cleared)
      case Some(k) =>
        Note(rec, KeysDone(f, text, k, cleared) + [Do(Key(f, k, text[k]))],
             TypingFailed(b.error(Key(f, k, text[k]))), None)
  }

  /** `human_type` with the element it is given, which may be None. */
  function HumanTyping(rec: Recorder, b: Browser, element: Option<Field>, text: string, l: seq<Effect>): seq<Effect>
  {
    if element.None? then Note(rec, l, Says(NoElement), None)
    else Typing(rec, b, element.value, text, l)
  }

  // ---------------------------------------------------------------------
  // Selector loops: wait for each candidate to be clickable, keep the
  // first that is and break.

  /** The fields the workflow resolves through a plain selector loop. */
  predicate Scanned(f: Field)
  {
    f == Password || f == ComposeButton || f == To || f == Subject || f == Body || f == SendButton
  }

  /** The message that names the winning candidate. */
  function FoundMsg(f: Field, i: nat, sel: string): Msg
    requires Scanned(f)
  {
    match f
    case Password => PasswordFound(sel)
    case ComposeButton => ComposeFound(sel)
    case To => ToFound(sel)
    case Subject => SubjectFound(sel)
    case Body => BodyFound(sel)
    case SendButton => SendFound(i + 1, sel)
  }

  /** For each of the first n candidates, whether it resolves. */
  function LocateOutcomes(b: Browser, f: Field, n: nat): seq<bool>
  {
    seq(n, (i: nat) => b.ok(Locate(f, i)))
  }

  /** Candidate i is tried; only the send loop reports a candidate that fails. */
  function ScanStep(rec: Recorder, b: Browser, f: Field, sels: seq<string>, i: nat, l: seq<Effect>): seq<Effect>
    requires Scanned(f) && i < |sels|
  {
    var tried := l + [Do(Locate(f, i))];
    if b.ok(Locate(f, i)) then Note(rec, tried, FoundMsg(f, i, sels[i]), None)
    else if f == SendButton then
      Note(rec, tried, SendSelectorFailed(i + 1, sels[i]), None)
    else tried
  }

  /** The first n candidates are tried. */
  function ScanSteps(rec: Recorder, b: Browser, f: Field, sels: seq<string>, n: nat, l: seq<Effect>): seq<Effect>
    requires Scanned(f) && n <= |sels|
  {
    if n == 0 then l else ScanStep(rec, b, f, sels, n - 1, ScanSteps(rec, b, f, sels, n - 1, l))
  }

  /** The candidate a selector loop ends with, if any. */
  function ScanHit(b: Browser, f: Field, sels: seq<string>): Option<nat>
  {
    FirstTrue(LocateOutcomes(b, f, |sels|))
  }

  /** The log after a whole selector loop. */
  function ScanFx(rec: Recorder, b: Browser, f: Field, sels: seq<string>, l: seq<Effect>): seq<Effect>
    requires Scanned(f)
  {
    ScanSteps(rec, b, f, sels, Tried(LocateOutcomes(b, f, |sels|)), l)
  }

  /** A selector loop stops at the first candidate that resolves. */
  lemma ScanStopsAt(rec: Recorder, b: Browser, f: Field, sels: seq<string>, i: nat, l: seq<Effect>)
    requires Scanned(f) && i < |sels| && b.ok(Locate(f, i))
    requires forall j :: 0 <= j < i ==> !b.ok(Locate(f, j))
    ensures ScanHit(b, f, sels) == Some(i)
    ensures ScanFx(rec, b, f, sels, l) == ScanSteps(rec, b, f, sels, i + 1, l)
  {
    var outcomes := LocateOutcomes(b, f, |sels|);
    assert forall j :: 0 <= j < i ==> !outcomes[j];
    FirstSuccessBoundsAttempts(outcomes, i);
  }

  /** A selector loop none of whose candidates resolves tries them all. */
  lemma ScanExhausted(rec: Recorder, b: Browser, f: Field, sels: seq<string>, l: seq<Effect>)
    requires Scanned(f)
    requires forall j :: 0 <= j < |sels| ==> !b.ok(Locate(f, j))
    ensures ScanHit(b, f, sels) == None
    ensures ScanFx(rec, b, f, sels, l) == ScanSteps(rec, b, f, sels, |sels|, l)
  {
    var outcomes := LocateOutcomes(b, f, |sels|);
    assert forall j :: 0 <= j < |sels| ==> !outcomes[j];
    NoSuccessTriesAll(outcomes);
  }

  // ---------------------------------------------------------------------
  // Selector loops whose click is inside the same try: a candidate wins
  // only when it resolves and the click on it returns.

  /** The fields resolved by a locate-and-click loop. */
  predicate ClickScanned(f: Field)
  {
    f == Suggestion || f == ShowPassword
  }

  /** The message sent once the click on a candidate worked. */
  function ClickedMsg(f: Field, sel: string): Msg
    requires ClickScanned(f)
  {
    if f == Suggestion then SuggestionClicked(sel) else Says(ShowPasswordClicked)
  }

  /** For each of the first n candidates, whether it resolves and its click returns. */
  function ClickOutcomes(b: Browser, f: Field, n: nat): seq<bool>
  {
    seq(n, (i: nat) => b.ok(Locate(f, i)) && b.ok(Click(f, i)))
  }

  /** Candidate i is tried; a raising lookup or click is passed over silently. */
  function ClickStep(rec: Recorder, b: Browser, f: Field, sels: seq<string>, i: nat, l: seq<Effect>): seq<Effect>
    requires ClickScanned(f) && i < |sels|
  {
    var tried := l + [Do(Locate(f, i))];
    if !b.ok(Locate(f, i)) then tried
    else if b.ok(Click(f, i)) then Note(rec, tried + [Do(Click(f, i))], ClickedMsg(f, sels[i]), None)
    else tried + [Do(Click(f, i))]
  }

  function ClickSteps(rec: Recorder, b: Browser, f: Field, sels: seq<string>, n: nat, l: seq<Effect>): seq<Effect>
    requires ClickScanned(f) && n <= |sels|
  {
    if n == 0 then l else ClickStep(rec, b, f, sels, n - 1, ClickSteps(rec, b, f, sels, n - 1, l))
  }

  /** Whether some candidate of a locate-and-click loop was clicked. */
  function ClickHit(b: Browser, f: Field, sels: seq<string>): bool
  {
    FirstTrue(ClickOutcomes(b, f, |sels|)).Some?
  }

  /** The log after a whole locate-and-click loop. */
  function ClickScanFx(rec: Recorder, b: Browser, f: Field, sels: seq<string>, l: seq<Effect>): seq<Effect>
    requires ClickScanned(f)
  {
    ClickSteps(rec, b, f, sels, Tried(ClickOutcomes(b, f, |sels|)), l)
  }

  /** A locate-and-click loop stops at the first candidate whose click returns. */
  lemma ClickStopsAt(rec: Recorder, b: Browser, f: Field, sels: seq<string>, i: nat, l: seq<Effect>)
    requires ClickScanned(f) && i < |sels| && b.ok(Locate(f, i)) && b.ok(Click(f, i))
    requires forall j :: 0 <= j < i ==> !(b.ok(Locate(f, j)) && b.ok(Click(f, j)))
    ensures ClickHit(b, f, sels)
    ensures ClickScanFx(rec, b, f, sels, l) == ClickSteps(rec, b, f, sels, i + 1, l)
  {
    var outcomes := ClickOutcomes(b, f, |sels|);
    assert forall j :: 0 <= j < i ==> !outcomes[j];
    FirstSuccessBoundsAttempts(outcomes, i);
  }

  /** A locate-and-click loop with no successful candidate tries them all. */
  lemma ClickExhausted(rec: Recorder, b: Browser, f: Field, sels: seq<string>, l: seq<Effect>)
    requires ClickScanned(f)
    requires forall j :: 0 <= j < |sels| ==> !(b.ok(Locate(f, j)) && b.ok(Click(f, j)))
    ensures !ClickHit(b, f, sels)
    ensures ClickScanFx(rec, b, f, sels, l) == ClickSteps(rec, b, f, sels, |sels|, l)
  {
    var outcomes := ClickOutcomes(b, f, |sels|);
    assert forall j :: 0 <= j < |sels| ==> !outcomes[j];
    NoSuccessTriesAll(outcomes);
  }

  // ---------------------------------------------------------------------
  // `for attempt in range(3)` click retries of a resolved button.

  const Attempts: nat := 3

  predicate Retried(f: Field)
  {
    f == ComposeButton || f == SendButton
  }

  function RetryOutcomes(b: Browser, f: Field): seq<bool>
  {
    seq(Attempts, (a: nat) => b.ok(Click(f, a)))
  }

  /** The message of attempt a (counted from 0; the messages count from 1). */
  function RetryMsg(b: Browser, f: Field, a: nat): Msg
  {
    if b.ok(Click(f, a)) then
      (if f == ComposeButton then ComposeClicked(a + 1) else SendClicked(a + 1))
    else if f == ComposeButton then ComposeAttemptFailed(a + 1, b.error(Click(f, a)))
    else SendAttemptFailed(a + 1, b.error(Click(f, a)))
  }

  /** Attempt a: the click, then its success or failure message. */
  function RetryStep(rec: Recorder, b: Browser, f: Field, a: nat, l: seq<Effect>): seq<Effect>
  {
    Note(rec, l + [Do(Click(f, a))], RetryMsg(b, f, a), None)
  }

  function RetrySteps(rec: Recorder, b: Browser, f: Field, n: nat, l: seq<Effect>): seq<Effect>
  {
    if n == 0 then l else RetryStep(rec, b, f, n - 1, RetrySteps(rec, b, f, n - 1, l))
  }

  /** The log after the whole retry loop. */
  function RetryFx(rec: Recorder, b: Browser, f: Field, l: seq<Effect>): seq<Effect>
  {
    RetrySteps(rec, b, f, Tried(RetryOutcomes(b, f)), l)
  }

  /** Whether some click attempt returned. */
  function RetryClicked(b: Browser, f: Field): bool
  {
    FirstTrue(RetryOutcomes(b, f)).Some?
  }

  // ---------------------------------------------------------------------
  // Send dispatch once a send button was resolved: three scroll-and-click
  // attempts, a JavaScript click, an ActionChains click, Ctrl+Enter.

  /** The mechanisms in the order they are tried. */
  const SendChain: seq<Call> := [
    Click(SendButton, 0), Click(SendButton, 1), Click(SendButton, 2),
    ScriptClick, ActionsClick, CtrlEnter(LastResort)]

  function ChainOutcomes(b: Browser): seq<bool>
  {
    seq(|SendChain|, i requires 0 <= i < |SendChain| => b.ok(SendChain[i]))
  }

  /** The Ctrl+Enter fallback after every click mechanism failed. */
  function LastResortFx(rec: Recorder, b: Browser, l: seq<Effect>): (seq<Effect>, bool)
  {
    var c := CtrlEnter(LastResort);
    var pressed := Note(rec, l, Says(AllClicksFailed), None) + [Do(c)];
    if b.ok(c) then (Note(rec, pressed, Says(SentViaFallback), None), true)
    else (Note(rec, pressed, FinalShortcutFailed(b.error(c)), None), false)
  }

  /** The ActionChains click, then the last resort when it raises. */
  function ActionsFx(rec: Recorder, b: Browser, l: seq<Effect>): (seq<Effect>, bool)
  {
    var clicked := Note(rec, l, Says(TryingActions), None) + [Do(ActionsClick)];
    if b.ok(ActionsClick) then (Note(rec, clicked, Says(ActionsClicked), None), true)
    else LastResortFx(rec, b, Note(rec, clicked, ActionsFailed(b.error(ActionsClick)), None))
  }

  /** The JavaScript click, then the later mechanisms when it raises. */
  function ScriptFx(rec: Recorder, b: Browser, l: seq<Effect>): (seq<Effect>, bool)
  {
    var clicked := Note(rec, l, Says(TryingScript), None) + [Do(ScriptClick)];
    if b.ok(ScriptClick) then (Note(rec, clicked, Says(ScriptClicked), None), true)
    else ActionsFx(rec, b, Note(rec, clicked, ScriptFailed(b.error(ScriptClick)), None))
  }

  /** The whole dispatch chain: the log after it and whether the send went out. */
  function Dispatch(rec: Recorder, b: Browser, l: seq<Effect>): (seq<Effect>, bool)
  {
    var tries := RetryFx(rec, b, SendButton, l);
    if RetryClicked(b, SendButton) then (tries, true)
    else ScriptFx(rec, b, tries)
  }

  // ---------------------------------------------------------------------
  // The recipient-acceptance sub-protocol. The chip check reads the
  // chips as they stand once the log has reached its current length.

  /** The click outside and back, when the address is still not accepted. */
  function LastTry(rec: Recorder, b: Browser, l: seq<Effect>): seq<Effect>
  {
    if AcceptedAt(b, |l|) then l
    else Note(rec, l, Says(StillNotAccepted), None) + [Do(Refocus)]
  }

  /** The handler of an exception raised by Enter or Tab: a last Enter whose
      own failure is ignored. */
  function Recovery(rec: Recorder, b: Browser, c: Call, l: seq<Effect>): seq<Effect>
  {
    Note(rec, l, SuggestionError(b.error(c)), None) + [Do(Press(FallbackEnter))]
  }

  /** Everything from "Handling email suggestion" to the subject step. */
  function Acceptance(rec: Recorder, b: Browser, to: string, l: seq<Effect>): seq<Effect>
  {
    var s1 := ClickScanFx(rec, b, Suggestion, SuggestionSelectors(to),
                          Note(rec, l, Says(HandlingSuggestion), None));
    if ClickHit(b, Suggestion, SuggestionSelectors(to)) then LastTry(rec, b, s1)
    else
      var s2 := Note(rec, s1, Says(NoSuggestion), None) + [Do(Press(CommitEnter))];
      if !b.ok(Press(CommitEnter)) then Recovery(rec, b, Press(CommitEnter), s2)
      else if AcceptedAt(b, |s2|) then LastTry(rec, b, s2)
      else
        var s3 := Note(rec, s2, Says(TryingTab), None) + [Do(Press(AdvanceTab))];
        if !b.ok(Press(AdvanceTab)) then Recovery(rec, b, Press(AdvanceTab), s3)
        else LastTry(rec, b, s3)
  }

  // ---------------------------------------------------------------------
  // Filling one input of the compose window.

  /** Find the field through its selectors, click and clear it, type `text`
      and take screenshot `shot`; when no candidate resolves, report
      `missing`, take screenshot `errorTag` and end the operation with False. */
  function Fill(rec: Recorder, b: Browser, f: Field, sels: seq<string>, text: string,
                intro: Notice, shot: string, missing: Notice, errorTag: string, l: seq<Effect>): Run
    requires Scanned(f)
  {
    var s := ScanFx(rec, b, f, sels, Note(rec, l, Says(intro), None));
    if ScanHit(b, f, sels).None? then
      Run(Shot(rec, b, Note(rec, s, Says(missing), None), errorTag), Done(false))
    else if !b.ok(Focus(f)) then
      Run(s + [Do(Focus(f))], Raised(Focus(f)))
    else
      Run(Shot(rec, b, Typing(rec, b, f, text, s + [Do(Focus(f))]), shot), Next)
  }

  /** The recipient step: fill the To field, then the acceptance sub-protocol. */
  function RecipientPhase(rec: Recorder, b: Browser, to: string, l: seq<Effect>): Run
  {
    var filled := Fill(rec, b, To, ToSelectors, to, FillingRecipient,
                       "10_recipient_typed", ToMissing, "error_to_field_not_found", l);
    if !filled.flow.Next? then filled
    else Run(Acceptance(rec, b, to, filled.log), Next)
  }

  function SubjectPhase(rec: Recorder, b: Browser, subject: string, l: seq<Effect>): Run
  {
    Fill(rec, b, Subject, SubjectSelectors, subject, FillingSubject,
         "11_subject_filled", SubjectMissing, "error_subject_field_not_found", l)
  }

  function BodyPhase(rec: Recorder, b: Browser, body: string, l: seq<Effect>): Run
  {
    Fill(rec, b, Body, BodySelectors, body, FillingBody,
         "12_body_filled", BodyMissing, "error_body_area_not_found", l)
  }

  // ---------------------------------------------------------------------
  // The compose phases.

  /** Reach the mail client, wait for it, open the compose window. */
  function OpenPhase(rec: Recorder, b: Browser, l: seq<Effect>): Run
  {
    var s0 := if b.ok(UrlOnMail) then l + [Do(UrlOnMail)]
              else Note(rec, l + [Do(UrlOnMail)], Says(NavigatingToMail), None) + [Do(Navigate(MailPage))];
    if !b.ok(UrlOnMail) && !b.ok(Navigate(MailPage)) then Run(s0, Raised(Navigate(MailPage)))
    else
      var s1 := Shot(rec, b, s0, "08_gmail_loaded") + [Do(Await(MainRegion))];
      if Awaited(b, MainRegion) != Seen then Run(s1, Raised(Await(MainRegion)))
      else
        var s2 := ScanFx(rec, b, ComposeButton, ComposeSelectors,
                         Note(rec, s1, Says(LookingForCompose), None));
        if ScanHit(b, ComposeButton, ComposeSelectors).None? then
          Run(Shot(rec, b, Note(rec, s2, Says(ComposeMissing), None), "error_compose_not_found"),
              Done(false))
        else
          var s3 := RetryFx(rec, b, ComposeButton, s2);
          if !RetryClicked(b, ComposeButton) then Run(s3, Done(false))
          else
            var s4 := Shot(rec, b, s3, "09_compose_opened") + [Do(Await(ComposeWindow))];
            if Awaited(b, ComposeWindow) != Seen then Run(s4, Raised(Await(ComposeWindow)))
            else Run(s4, Next)
  }

  /** Find the send button, dispatch the send, wait for the confirmation. */
  function SendPhase(rec: Recorder, b: Browser, l: seq<Effect>): (r: Run)
    ensures !r.flow.Next?
  {
    var s0 := ScanFx(rec, b, SendButton, SendSelectors, Note(rec, l, Says(LookingForSend), None));
    if ScanHit(b, SendButton, SendSelectors).None? then
      var c := CtrlEnter(NoSendButton);
      var s1 := Shot(rec, b, Note(rec, s0, Says(SendMissing), None),
                     "error_send_button_not_found");
      var s2 := Note(rec, s1, Says(TryingShortcut), None) + [Do(c)];
      if b.ok(c) then
        Run(Note(rec, Shot(rec, b, s2, "13_email_sent_via_keyboard"), Says(SentViaShortcut), None),
            Done(true))
      else Run(Note(rec, s2, ShortcutFailed(b.error(c)), None), Done(false))
    else
      var d := Dispatch(rec, b, Note(rec, s0, Says(AttemptingSend), None));
      if !d.1 then Run(d.0, Done(false))
      else
        var s2 := d.0 + [Do(Await(SentToast))];
        match Awaited(b, SentToast)
        case Seen =>
          Run(Note(rec, Shot(rec, b, s2, "13_email_sent_success"), Says(EmailSent), None),
              Done(true))
        case TimedOut =>
          Run(Note(rec, Shot(rec, b, s2, "13_email_sent_no_confirmation"),
                   Says(EmailLikelySent), None), Done(true))
        case Broke => Run(s2, Raised(Await(SentToast)))
  }

  /** The two operations with a catch-all handler. */
  datatype Operation = SignIn | Delivery

  /** The message with which an operation's handler reports an exception. */
  function FailMsg(op: Operation, error: string): Msg
  {
    if op == SignIn then LoginFailed(error) else SendingFailed(error)
  }

  /** The screenshot an operation's handler takes. */
  function FailTag(op: Operation): string
  {
    if op == SignIn then "error_login_exception" else "error_email_failed_detailed"
  }

  /** The catch-all handler of an operation: an exception raised by call c
      is reported with the exception's text and a screenshot is taken; the
      operation returns False. */
  function Settle(rec: Recorder, b: Browser, r: Run, op: Operation): Run
  {
    match r.flow
    case Raised(c) => Run(Shot(rec, b, Note(rec, r.log, FailMsg(op, b.error(c)), None), FailTag(op)), Done(false))
    case _ => r
  }

  /** The compose phases run in order while each lets the next one run. */
  function ComposePhases(rec: Recorder, b: Browser, to: string, subject: string, body: string, l: seq<Effect>): (r: Run)
    ensures !r.flow.Next?
  {
    var a := OpenPhase(rec, b, l);
    if !a.flow.Next? then a
    else
      var r := RecipientPhase(rec, b, to, a.log);
      if !r.flow.Next? then r
      else
        var s := SubjectPhase(rec, b, subject, r.log);
        if !s.flow.Next? then s
        else
          var m := BodyPhase(rec, b, body, s.log);
          if !m.flow.Next? then m
          else SendPhase(rec, b, m.log)
  }

  /** `compose_and_send_email(to, subject, body)`. */
  function Compose(rec: Recorder, drv: Option<Browser>, to: string, subject: string, body: string, l: seq<Effect>): Run
  {
    if drv.None? then Run(Note(rec, l, Says(NoDriverSend), None), Done(false))
    else
      Settle(rec, drv.value, ComposePhases(rec, drv.value, to, subject, body, l), Delivery)
  }

  // ---------------------------------------------------------------------
  // Login.

  /** From the password prompt to the end of `login_to_gmail`. */
  function PasswordPhase(rec: Recorder, b: Browser, password: string, l: seq<Effect>): (r: Run)
    ensures !r.flow.Next?
  {
    var s4 := ScanFx(rec, b, Password, PasswordSelectors,
                     Note(rec, l, Says(LookingForPassword), None));
    if ScanHit(b, Password, PasswordSelectors).None? then
      Run(Shot(rec, b, Note(rec, s4, Says(PasswordMissing), None),
               "error_password_field_not_found"), Done(false))
    else
      var s5 := Note(rec, s4, Says(ClickingPassword), None) + [Do(Focus(Password))];
      if !b.ok(Focus(Password)) then Run(s5, Raised(Focus(Password)))
      else
        var s6 := Shot(rec, b, Typing(rec, b, Password, password, s5), "05_password_field_filled")
                  + [Do(Click(PasswordNext, 0))];
        if !b.ok(Click(PasswordNext, 0)) then Run(s6, Raised(Click(PasswordNext, 0)))
        else
          var s7 := Note(rec, Shot(rec, b, s6, "07_password_next_clicked"), Says(AwaitingLogin), None)
                    + [Do(Await(LoginMarkers))];
          match Awaited(b, LoginMarkers)
          case Seen =>
            Run(Note(rec, Shot(rec, b, s7, "08_login_success"), Says(LoginSucceeded), None), Done(true))
          case TimedOut =>
            Run(Note(rec, Shot(rec, b, s7, "error_login_failed"),
                     Says(LoginUnconfirmed), None), Done(false))
          case Broke => Run(s7, Raised(Await(LoginMarkers)))
  }

  /** From opening the sign-in page to submitting the e-mail address. */
  function IdentifierPhase(rec: Recorder, b: Browser, email: string, l: seq<Effect>): Run
  {
    var s0 := Note(rec, l, Says(OpeningGmail), None) + [Do(Navigate(SignInPage))];
    if !b.ok(Navigate(SignInPage)) then Run(s0, Raised(Navigate(SignInPage)))
    else
      var s1 := Note(rec, Shot(rec, b, s0, "01_gmail_page"), Says(EnteringEmail), None)
                + [Do(Locate(Identifier, 0))];
      if !b.ok(Locate(Identifier, 0)) then Run(s1, Raised(Locate(Identifier, 0)))
      else
        var s2 := s1 + [Do(Focus(Identifier))];
        if !b.ok(Focus(Identifier)) then Run(s2, Raised(Focus(Identifier)))
        else
          var s3 := Shot(rec, b, Typing(rec, b, Identifier, email, s2), "02_email_entered")
                    + [Do(Click(IdentifierNext, 0))];
          if !b.ok(Click(IdentifierNext, 0)) then Run(s3, Raised(Click(IdentifierNext, 0)))
          else
            Run(Shot(rec, b, Note(rec, Shot(rec, b, s3, "03_next_clicked"),
                                  Says(AwaitingPasswordPage), None),
                     "04_password_page_loaded"), Next)
  }

  /** The two login phases in order. */
  function LoginPhases(rec: Recorder, b: Browser, email: string, password: string, l: seq<Effect>): (r: Run)
    ensures !r.flow.Next?
  {
    var a := IdentifierPhase(rec, b, email, l);
    if !a.flow.Next? then a else PasswordPhase(rec, b, password, a.log)
  }

  /** `login_to_gmail()`. */
  function Login(rec: Recorder, drv: Option<Browser>, email: string, password: string, l: seq<Effect>): Run
  {
    if drv.None? then Run(Note(rec, l, Says(NoDriverLogin), None), Done(false))
    else
      Settle(rec, drv.value, LoginPhases(rec, drv.value, email, password, l), SignIn)
  }

  // ---------------------------------------------------------------------
  // `click_show_password` and `quit`.

  /** `click_show_password()`: the log after it and its result. */
  function ShowPasswordRun(rec: Recorder, drv: Option<Browser>, l: seq<Effect>): Run
  {
    if drv.None? then Run(Note(rec, l, Says(NoDriverShowPassword), None), Done(false))
    else
      var b := drv.value;
      var s := ClickScanFx(rec, b, ShowPassword, ShowPasswordSelectors, l);
      if ClickHit(b, ShowPassword, ShowPasswordSelectors) then Run(s, Done(true))
      else Run(Note(rec, s, Says(ShowPasswordMissing), None), Done(false))
  }

  /** `quit()`: close and quit, each attempted whatever the other does. */
  function QuitFx(rec: Recorder, drv: Option<Browser>, l: seq<Effect>): seq<Effect>
  {
    if drv.None? then l
    else Note(rec, l + [Do(Close)] + [Do(Quit)], Says(BrowserClosed), None)
  }

  /** What the constructor does to a freshly started browser. */
  const SetupFx: seq<Effect> := [Do(MaskWebdriver), Do(DeleteCookies)]
}
