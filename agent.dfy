/** `BrowserAgent` of backend/browser_agent.py: the Gmail automation agent.

    The agent owns the driver (None once it has quit) and produces an ordered
    log of effects: every driver call it attempts and every status message it
    hands to its emit callback (or prints, without one). Each method is proved
    to append exactly the effects the matching function of module `Effects`
    describes and to return the result that function gives. */
module Agent {
  import opened Search
  import opened Paths
  import opened Driver
  import opened Messages
  import opened Effects

  class BrowserAgent {
    const email: string
    const password: string
    const screenshotDir: string
    const hasCallback: bool
    var driver: Option<Browser>
    var log: seq<Effect>

    /** How this agent records diagnostics. */
    function Rec(): Recorder
    {
      Recorder(screenshotDir, hasCallback)
    }

    /** `__init__` once the browser has started: it hides the webdriver flag
        and deletes all cookies. */
    constructor (email: string, password: string, screenshotDir: string, hasCallback: bool, browser: Browser)
      ensures this.email == email && this.password == password
      ensures this.screenshotDir == screenshotDir && this.hasCallback == hasCallback
      ensures driver == Some(browser)
      ensures log == SetupFx
    {
      this.email := email;
      this.password := password;
      this.screenshotDir := screenshotDir;
      this.hasCallback := hasCallback;
      driver := Some(browser);
      log := SetupFx;
    }

    /** `_emit(text, image_path)`: to the callback when there is one, else
        printed when its text is non-empty (which every message's text is). */
    method Emit(m: Msg, image: Option<string>)
      modifies this
      ensures driver == old(driver)
      ensures log == Note(Rec(), old(log), m, image)
    {
      if hasCallback {
        log := log + [Effect.Emit(m, image)];
      } else if Text(m) != "" {
        log := log + [Print(m)];
      } else {
        assert false;
      }
    }

    /** One driver call (or group of calls) on the live session: it is
        recorded, and the session says whether it returns normally. */
    method Perform(c: Call) returns (ok: bool)
      requires driver.Some?
      modifies this
      ensures driver == old(driver)
      ensures ok == driver.value.ok(c)
      ensures log == old(log) + [Do(c)]
    {
      log := log + [Do(c)];
      ok := driver.value.ok(c);
    }

    /** `wait_and_screenshot(name)`: never raises; returns the path whether
        or not the save worked, and None without a driver. */
    method WaitAndScreenshot(name: string) returns (path: Option<string>)
      modifies this
      ensures driver == old(driver)
      ensures path == WaitShot(Rec(), old(driver), old(log), name).0
      ensures log == WaitShot(Rec(), old(driver), old(log), name).1
    {
      if driver.None? {
        Emit(Says(NoDriverShot), None);
        return None;
      }
      var p := ShotPath(Rec(), name);
      var saved := Perform(Save(name));
      if saved {
        Emit(ShotSaved(p), Some(p));
      } else {
        Emit(ShotFailed(driver.value.error(Save(name))), None);
      }
      return Some(p);
    }

    /** `check_if_recipient_accepted()`: a pure read of the page. True iff
        some accepted-chip selector finds a non-empty text holding an `@`. */
    method CheckIfRecipientAccepted() returns (accepted: bool)
      ensures accepted == (driver.Some? && AcceptedAt(driver.value, |log|))
    {
      if driver.None? {
        return false;
      }
      var s := 0;
      while s < |ChipSelectors|
        invariant 0 <= s <= |ChipSelectors|
        invariant forall j :: 0 <= j < s ==> !ChipAccepted(driver.value.chip(|log|, j))
      {
        var text := driver.value.chip(|log|, s);
        if text.Some? && text.value != "" && '@' in text.value {
          return true;
        }
        s := s + 1;
      }
      return false;
    }

    /** `human_type(element, text)`: clear, then one keystroke per character;
        a raising call ends the typing with a "Typing failed" message. */
    method HumanType(element: Option<Field>, text: string)
      requires driver.Some?
      modifies this
      ensures driver == old(driver)
      ensures log == HumanTyping(Rec(), driver.value, element, text, old(log))
    {
      if element.None? {
        Emit(Says(NoElement), None);
        return;
      }
      var f := element.value;
      var b := driver.value;
      var ok := Perform(Clear(f));
      if !ok {
        Emit(TypingFailed(b.error(Clear(f))), None);
        return;
      }
      var i := 0;
      while i < |text|
        invariant 0 <= i <= |text|
        invariant driver == old(driver)
        invariant log == KeysDone(f, text, i, old(log) + [Do(Clear(f))])
        invariant forall j :: 0 <= j < i ==> !KeyFailures(b, f, text)[j]
      {
        ok := Perform(Key(f, i, text[i]));
        if !ok {
          FirstSuccessBoundsAttempts(KeyFailures(b, f, text), i);
          Emit(TypingFailed(b.error(Key(f, i, text[i]))), None);
          return;
        }
        i := i + 1;
      }
      NoSuccessTriesAll(KeyFailures(b, f, text));
    }

    /** One pass of a selector loop: wait for candidate i and report. */
    method TryCandidate(f: Field, sels: seq<string>, i: nat) returns (ok: bool)
      requires driver.Some? && Scanned(f) && i < |sels|
      modifies this
      ensures driver == old(driver)
      ensures ok == driver.value.ok(Locate(f, i))
      ensures log == ScanStep(Rec(), driver.value, f, sels, i, old(log))
    {
      ok := Perform(Locate(f, i));
      if ok {
        Emit(FoundMsg(f, i, sels[i]), None);
      } else if f == SendButton {
        Emit(SendSelectorFailed(i + 1, sels[i]), None);
      }
    }

    /** A selector loop: candidates in order, the first that resolves wins. */
    method FindFirst(f: Field, sels: seq<string>) returns (hit: Option<nat>)
      requires driver.Some? && Scanned(f)
      modifies this
      ensures driver == old(driver)
      ensures hit == ScanHit(driver.value, f, sels)
      ensures log == ScanFx(Rec(), driver.value, f, sels, old(log))
    {
      var b := driver.value;
      ghost var start := log;
      var i := 0;
      while i < |sels|
        invariant 0 <= i <= |sels|
        invariant driver == old(driver)
        invariant log == ScanSteps(Rec(), b, f, sels, i, start)
        invariant forall j :: 0 <= j < i ==> !b.ok(Locate(f, j))
      {
        var ok := TryCandidate(f, sels, i);
        if ok {
          ScanStopsAt(Rec(), b, f, sels, i, start);
          return Some(i);
        }
        i := i + 1;
      }
      ScanExhausted(Rec(), b, f, sels, start);
      return None;
    }

    /** One pass of a locate-and-click loop: candidate i, then its click. */
    method ClickCandidate(f: Field, sels: seq<string>, i: nat) returns (ok: bool)
      requires driver.Some? && ClickScanned(f) && i < |sels|
      modifies this
      ensures driver == old(driver)
      ensures ok == (driver.value.ok(Locate(f, i)) && driver.value.ok(Click(f, i)))
      ensures log == ClickStep(Rec(), driver.value, f, sels, i, old(log))
    {
      var found := Perform(Locate(f, i));
      if !found {
        return false;
      }
      ok := Perform(Click(f, i));
      if ok {
        Emit(ClickedMsg(f, sels[i]), None);
      }
    }

    /** A selector loop whose click is inside the same try: a candidate wins
        when it resolves and the click on it returns. */
    method FindAndClick(f: Field, sels: seq<string>) returns (clicked: bool)
      requires driver.Some? && ClickScanned(f)
      modifies this
      ensures driver == old(driver)
      ensures clicked == ClickHit(driver.value, f, sels)
      ensures log == ClickScanFx(Rec(), driver.value, f, sels, old(log))
    {
      var b := driver.value;
      ghost var start := log;
      var i := 0;
      while i < |sels|
        invariant 0 <= i <= |sels|
        invariant driver == old(driver)
        invariant log == ClickSteps(Rec(), b, f, sels, i, start)
        invariant forall j :: 0 <= j < i ==> !(b.ok(Locate(f, j)) && b.ok(Click(f, j)))
      {
        var ok := ClickCandidate(f, sels, i);
        if ok {
          ClickStopsAt(Rec(), b, f, sels, i, start);
          return true;
        }
        i := i + 1;
      }
      ClickExhausted(Rec(), b, f, sels, start);
      return false;
    }

    /** Attempt a of a click retry loop. */
    method ClickAttempt(f: Field, a: nat) returns (ok: bool)
      requires driver.Some?
      modifies this
      ensures driver == old(driver)
      ensures ok == driver.value.ok(Click(f, a))
      ensures a < Attempts ==> ok == RetryOutcomes(driver.value, f)[a]
      ensures log == RetryStep(Rec(), driver.value, f, a, old(log))
    {
      ok := Perform(Click(f, a));
      Emit(RetryMsg(driver.value, f, a), None);
    }

    /** `for attempt in range(3)`: click a resolved button until a click returns. */
    method ClickWithRetry(f: Field) returns (clicked: bool)
      requires driver.Some? && Retried(f)
      modifies this
      ensures driver == old(driver)
      ensures clicked == RetryClicked(driver.value, f)
      ensures log == RetryFx(Rec(), driver.value, f, old(log))
    {
      var b := driver.value;
      for a := 0 to Attempts
        invariant driver == old(driver)
        invariant log == RetrySteps(Rec(), b, f, a, old(log))
        invariant forall j :: 0 <= j < a ==> !RetryOutcomes(b, f)[j]
      {
        var ok := ClickAttempt(f, a);
        if ok {
          FirstSuccessBoundsAttempts(RetryOutcomes(b, f), a);
          return true;
        }
      }
      NoSuccessTriesAll(RetryOutcomes(b, f));
      return false;
    }

    /** The send fallback chain once a send button was resolved. False means
        that the final Ctrl+Enter raised, after which the source returns False. */
    method DispatchSend() returns (dispatched: bool)
      requires driver.Some?
      modifies this
      ensures driver == old(driver)
      ensures dispatched == Dispatch(Rec(), driver.value, old(log)).1
      ensures log == Dispatch(Rec(), driver.value, old(log)).0
    {
      var b := driver.value;
      var clicked := ClickWithRetry(SendButton);
      if !clicked {
        Emit(Says(TryingScript), None);
        var ok := Perform(ScriptClick);
        if ok {
          Emit(Says(ScriptClicked), None);
          clicked := true;
        } else {
          Emit(ScriptFailed(b.error(ScriptClick)), None);
        }
      }
      if !clicked {
        Emit(Says(TryingActions), None);
        var ok := Perform(ActionsClick);
        if ok {
          Emit(Says(ActionsClicked), None);
          clicked := true;
        } else {
          Emit(ActionsFailed(b.error(ActionsClick)), None);
        }
      }
      if !clicked {
        Emit(Says(AllClicksFailed), None);
        var ok := Perform(CtrlEnter(LastResort));
        if ok {
          clicked := true;
          Emit(Says(SentViaFallback), None);
        } else {
          Emit(FinalShortcutFailed(b.error(CtrlEnter(LastResort))), None);
          return false;
        }
      }
      // The "All send methods failed" check that follows in the source can
      // never fire: every path that leaves `clicked` false has returned.
      assert clicked;
      return true;
    }

    /** The handler of an exception from Enter or Tab in the recipient step. */
    method Recover(c: Call)
      requires driver.Some?
      modifies this
      ensures driver == old(driver)
      ensures log == Recovery(Rec(), driver.value, c, old(log))
    {
      Emit(SuggestionError(driver.value.error(c)), None);
      var _ := Perform(Press(FallbackEnter));
    }

    /** The recipient-acceptance sub-protocol: never ends the workflow. */
    method AcceptRecipient(to: string)
      requires driver.Some?
      modifies this
      ensures driver == old(driver)
      ensures log == Acceptance(Rec(), driver.value, to, old(log))
    {
      Emit(Says(HandlingSuggestion), None);
      var clicked := FindAndClick(Suggestion, SuggestionSelectors(to));
      if !clicked {
        Emit(Says(NoSuggestion), None);
        var ok := Perform(Press(CommitEnter));
        if !ok {
          Recover(Press(CommitEnter));
          return;
        }
        var accepted := CheckIfRecipientAccepted();
        if !accepted {
          Emit(Says(TryingTab), None);
          ok := Perform(Press(AdvanceTab));
          if !ok {
            Recover(Press(AdvanceTab));
            return;
          }
        }
      }
      var accepted := CheckIfRecipientAccepted();
      if !accepted {
        Emit(Says(StillNotAccepted), None);
        var _ := Perform(Refocus);
      }
    }

    /** Resolve, click and clear, type and screenshot one compose input. */
    method FillField(f: Field, sels: seq<string>, text: string,
                     intro: Notice, shot: string, missing: Notice, errorTag: string) returns (flow: Flow)
      requires driver.Some? && Scanned(f)
      modifies this
      ensures driver == old(driver)
      ensures flow == Fill(Rec(), driver.value, f, sels, text, intro, shot, missing, errorTag, old(log)).flow
      ensures log == Fill(Rec(), driver.value, f, sels, text, intro, shot, missing, errorTag, old(log)).log
    {
      Emit(Says(intro), None);
      var hit := FindFirst(f, sels);
      if hit.None? {
        Emit(Says(missing), None);
        var _ := WaitAndScreenshot(errorTag);
        return Done(false);
      }
      var ok := Perform(Focus(f));
      if !ok {
        return Raised(Focus(f));
      }
      HumanType(Some(f), text);
      var _ := WaitAndScreenshot(shot);
      return Next;
    }

    /** The recipient step of `compose_and_send_email`. */
    method FillRecipient(to: string) returns (flow: Flow)
      requires driver.Some?
      modifies this
      ensures driver == old(driver)
      ensures flow == RecipientPhase(Rec(), driver.value, to, old(log)).flow
      ensures log == RecipientPhase(Rec(), driver.value, to, old(log)).log
    {
      flow := FillField(To, ToSelectors, to, FillingRecipient,
                        "10_recipient_typed", ToMissing, "error_to_field_not_found");
      if flow.Next? {
        AcceptRecipient(to);
      }
    }

    /** Reach the mail client and open the compose window. */
    method OpenCompose() returns (flow: Flow)
      requires driver.Some?
      modifies this
      ensures driver == old(driver)
      ensures flow == OpenPhase(Rec(), driver.value, old(log)).flow
      ensures log == OpenPhase(Rec(), driver.value, old(log)).log
    {
      var b := driver.value;
      var onMail := Perform(UrlOnMail);
      if !onMail {
        Emit(Says(NavigatingToMail), None);
        var ok := Perform(Navigate(MailPage));
        if !ok {
          return Raised(Navigate(MailPage));
        }
      }
      var _ := WaitAndScreenshot("08_gmail_loaded");
      var _ := Perform(Await(MainRegion));
      if Awaited(b, MainRegion) != Seen {
        return Raised(Await(MainRegion));
      }
      Emit(Says(LookingForCompose), None);
      var hit := FindFirst(ComposeButton, ComposeSelectors);
      if hit.None? {
        Emit(Says(ComposeMissing), None);
        var _ := WaitAndScreenshot("error_compose_not_found");
        return Done(false);
      }
      var clicked := ClickWithRetry(ComposeButton);
      if !clicked {
        return Done(false);
      }
      var _ := WaitAndScreenshot("09_compose_opened");
      var _ := Perform(Await(ComposeWindow));
      if Awaited(b, ComposeWindow) != Seen {
        return Raised(Await(ComposeWindow));
      }
      return Next;
    }

    /** Find the send button, dispatch the send and wait for a confirmation. */
    method SendMessage() returns (flow: Flow)
      requires driver.Some?
      modifies this
      ensures driver == old(driver)
      ensures flow == SendPhase(Rec(), driver.value, old(log)).flow
      ensures log == SendPhase(Rec(), driver.value, old(log)).log
    {
      var b := driver.value;
      Emit(Says(LookingForSend), None);
      var hit := FindFirst(SendButton, SendSelectors);
      if hit.None? {
        Emit(Says(SendMissing), None);
        var _ := WaitAndScreenshot("error_send_button_not_found");
        Emit(Says(TryingShortcut), None);
        var ok := Perform(CtrlEnter(NoSendButton));
        if ok {
          var _ := WaitAndScreenshot("13_email_sent_via_keyboard");
          Emit(Says(SentViaShortcut), None);
          return Done(true);
        }
        Emit(ShortcutFailed(b.error(CtrlEnter(NoSendButton))), None);
        return Done(false);
      }
      Emit(Says(AttemptingSend), None);
      var dispatched := DispatchSend();
      if !dispatched {
        return Done(false);
      }
      var _ := Perform(Await(SentToast));
      match Awaited(b, SentToast)
      case Seen =>
        var _ := WaitAndScreenshot("13_email_sent_success");
        Emit(Says(EmailSent), None);
        return Done(true);
      case TimedOut =>
        var _ := WaitAndScreenshot("13_email_sent_no_confirmation");
        Emit(Says(EmailLikelySent), None);
        return Done(true);
      case Broke =>
        return Raised(Await(SentToast));
    }

    /** The catch-all handler of an operation, applied to how it ended. */
    method Conclude(flow: Flow, op: Operation) returns (result: bool)
      requires driver.Some? && !flow.Next?
      modifies this
      ensures driver == old(driver)
      ensures Settle(Rec(), driver.value, Run(old(log), flow), op).flow == Done(result)
      ensures log == Settle(Rec(), driver.value, Run(old(log), flow), op).log
    {
      match flow
      case Raised(c) =>
        Emit(FailMsg(op, driver.value.error(c)), None);
        var _ := WaitAndScreenshot(FailTag(op));
        return false;
      case Done(r) =>
        return r;
    }

    /** The subject step. */
    method FillSubject(subject: string) returns (flow: Flow)
      requires driver.Some?
      modifies this
      ensures driver == old(driver)
      ensures flow == SubjectPhase(Rec(), driver.value, subject, old(log)).flow
      ensures log == SubjectPhase(Rec(), driver.value, subject, old(log)).log
    {
      flow := FillField(Subject, SubjectSelectors, subject, FillingSubject,
                        "11_subject_filled", SubjectMissing, "error_subject_field_not_found");
    }

    /** The body step. */
    method FillBody(body: string) returns (flow: Flow)
      requires driver.Some?
      modifies this
      ensures driver == old(driver)
      ensures flow == BodyPhase(Rec(), driver.value, body, old(log)).flow
      ensures log == BodyPhase(Rec(), driver.value, body, old(log)).log
    {
      flow := FillField(Body, BodySelectors, body, FillingBody,
                        "12_body_filled", BodyMissing, "error_body_area_not_found");
    }

    /** The body of the try block of `compose_and_send_email`. */
    method ComposeSteps(to: string, subject: string, body: string) returns (flow: Flow)
      requires driver.Some?
      modifies this
      ensures driver == old(driver)
      ensures flow == ComposePhases(Rec(), driver.value, to, subject, body, old(log)).flow
      ensures log == ComposePhases(Rec(), driver.value, to, subject, body, old(log)).log
    {
      flow := OpenCompose();
      if flow.Next? {
        flow := FillRecipient(to);
        if flow.Next? {
          flow := FillSubject(subject);
          if flow.Next? {
            flow := FillBody(body);
            if flow.Next? {
              flow := SendMessage();
            }
          }
        }
      }
    }

    /** `compose_and_send_email(to, subject, body)`. */
    method ComposeAndSendEmail(to: string, subject: string, body: string) returns (sent: bool)
      modifies this
      ensures driver == old(driver)
      ensures Compose(Rec(), old(driver), to, subject, body, old(log)).flow == Done(sent)
      ensures log == Compose(Rec(), old(driver), to, subject, body, old(log)).log
    {
      if driver.None? {
        Emit(Says(NoDriverSend), None);
        return false;
      }
      var flow := ComposeSteps(to, subject, body);
      sent := Conclude(flow, Delivery);
    }

    /** From opening the sign-in page to the password prompt. */
    method EnterIdentifier() returns (flow: Flow)
      requires driver.Some?
      modifies this
      ensures driver == old(driver)
      ensures flow == IdentifierPhase(Rec(), driver.value, email, old(log)).flow
      ensures log == IdentifierPhase(Rec(), driver.value, email, old(log)).log
    {
      Emit(Says(OpeningGmail), None);
      var ok := Perform(Navigate(SignInPage));
      if !ok {
        return Raised(Navigate(SignInPage));
      }
      var _ := WaitAndScreenshot("01_gmail_page");
      Emit(Says(EnteringEmail), None);
      ok := Perform(Locate(Identifier, 0));
      if !ok {
        return Raised(Locate(Identifier, 0));
      }
      ok := Perform(Focus(Identifier));
      if !ok {
        return Raised(Focus(Identifier));
      }
      HumanType(Some(Identifier), email);
      var _ := WaitAndScreenshot("02_email_entered");
      ok := Perform(Click(IdentifierNext, 0));
      if !ok {
        return Raised(Click(IdentifierNext, 0));
      }
      var _ := WaitAndScreenshot("03_next_clicked");
      Emit(Says(AwaitingPasswordPage), None);
      var _ := WaitAndScreenshot("04_password_page_loaded");
      return Next;
    }

    /** From the password field to the post-login wait. */
    method EnterPassword() returns (flow: Flow)
      requires driver.Some?
      modifies this
      ensures driver == old(driver)
      ensures flow == PasswordPhase(Rec(), driver.value, password, old(log)).flow
      ensures log == PasswordPhase(Rec(), driver.value, password, old(log)).log
    {
      var b := driver.value;
      Emit(Says(LookingForPassword), None);
      var hit := FindFirst(Password, PasswordSelectors);
      if hit.None? {
        Emit(Says(PasswordMissing), None);
        var _ := WaitAndScreenshot("error_password_field_not_found");
        return Done(false);
      }
      Emit(Says(ClickingPassword), None);
      var ok := Perform(Focus(Password));
      if !ok {
        return Raised(Focus(Password));
      }
      HumanType(Some(Password), password);
      var _ := WaitAndScreenshot("05_password_field_filled");
      ok := Perform(Click(PasswordNext, 0));
      if !ok {
        return Raised(Click(PasswordNext, 0));
      }
      var _ := WaitAndScreenshot("07_password_next_clicked");
      Emit(Says(AwaitingLogin), None);
      var _ := Perform(Await(LoginMarkers));
      match Awaited(b, LoginMarkers)
      case Seen =>
        var _ := WaitAndScreenshot("08_login_success");
        Emit(Says(LoginSucceeded), None);
        return Done(true);
      case TimedOut =>
        var _ := WaitAndScreenshot("error_login_failed");
        Emit(Says(LoginUnconfirmed), None);
        return Done(false);
      case Broke =>
        return Raised(Await(LoginMarkers));
    }

    /** The body of the try block of `login_to_gmail`. */
    method LoginSteps() returns (flow: Flow)
      requires driver.Some?
      modifies this
      ensures driver == old(driver)
      ensures flow == LoginPhases(Rec(), driver.value, email, password, old(log)).flow
      ensures log == LoginPhases(Rec(), driver.value, email, password, old(log)).log
    {
      flow := EnterIdentifier();
      if flow.Next? {
        flow := EnterPassword();
      }
    }

    /** `login_to_gmail()`. */
    method LoginToGmail() returns (ok: bool)
      modifies this
      ensures driver == old(driver)
      ensures Login(Rec(), old(driver), email, password, old(log)).flow == Done(ok)
      ensures log == Login(Rec(), old(driver), email, password, old(log)).log
    {
      if driver.None? {
        Emit(Says(NoDriverLogin), None);
        return false;
      }
      var flow := LoginSteps();
      ok := Conclude(flow, SignIn);
    }

    /** `click_show_password()`. */
    method ClickShowPassword() returns (clicked: bool)
      modifies this
      ensures driver == old(driver)
      ensures ShowPasswordRun(Rec(), old(driver), old(log)).flow == Done(clicked)
      ensures log == ShowPasswordRun(Rec(), old(driver), old(log)).log
    {
      if driver.None? {
        Emit(Says(NoDriverShowPassword), None);
        return false;
      }
      clicked := FindAndClick(ShowPassword, ShowPasswordSelectors);
      if !clicked {
        Emit(Says(ShowPasswordMissing), None);
      }
    }

    /** `quit()`: idempotent. Close and quit errors are swallowed; the driver
        is None afterwards; a second call does nothing at all. */
    method Quit()
      modifies this
      ensures driver == None
      ensures log == QuitFx(Rec(), old(driver), old(log))
      ensures old(driver).None? ==> log == old(log)
    {
      if driver.Some? {
        var _ := Perform(Close);
        var _ := Perform(Call.Quit);
        driver := None;
        Emit(Says(BrowserClosed), None);
      }
    }
  }
}
