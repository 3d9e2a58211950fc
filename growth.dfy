/** Every step of the agent only appends to its log: what was recorded
    before an operation is never rewritten by it. The request handler relies
    on this to hand on exactly the messages an operation produced. */
module LogGrowth {
  import opened Search
  import opened Driver
  import opened Messages
  import opened Effects
  import opened AgentFacts

  lemma NoteGrows(rec: Recorder, l: seq<Effect>, m: Msg, image: Option<string>, base: seq<Effect>)
    requires base <= l
    ensures base <= Note(rec, l, m, image)
  {
    NoteFacts(rec, l, m, image);
    PrefixTransitive(base, l, Note(rec, l, m, image));
  }

  lemma DoGrows(l: seq<Effect>, c: Call, base: seq<Effect>)
    requires base <= l
    ensures base <= l + [Do(c)]
  {
    DoFacts(l, c);
    PrefixTransitive(base, l, l + [Do(c)]);
  }

  lemma ShotGrows(rec: Recorder, b: Browser, l: seq<Effect>, name: string, base: seq<Effect>)
    requires base <= l
    ensures base <= Shot(rec, b, l, name)
  {
    ShotFacts(rec, b, l, name);
    PrefixTransitive(base, l, Shot(rec, b, l, name));
  }

  lemma ScanGrows(rec: Recorder, b: Browser, f: Field, sels: seq<string>, l: seq<Effect>, base: seq<Effect>)
    requires Scanned(f) && base <= l
    ensures base <= ScanFx(rec, b, f, sels, l)
  {
    ScanFxFacts(rec, b, f, sels, l);
    PrefixTransitive(base, l, ScanFx(rec, b, f, sels, l));
  }

  lemma TypingGrows(rec: Recorder, b: Browser, f: Field, text: string, l: seq<Effect>, base: seq<Effect>)
    requires base <= l
    ensures base <= Typing(rec, b, f, text, l)
  {
    TypingTrace(rec, b, f, text, l);
    PrefixTransitive(base, l, Typing(rec, b, f, text, l));
  }

  lemma RetryGrows(rec: Recorder, b: Browser, f: Field, l: seq<Effect>, base: seq<Effect>)
    requires base <= l
    ensures base <= RetryFx(rec, b, f, l)
  {
    RetryTrace(rec, b, f, l);
    PrefixTransitive(base, l, RetryFx(rec, b, f, l));
  }

  // ---------------------------------------------------------------------
  // The compose phases.

  lemma FillGrows(rec: Recorder, b: Browser, f: Field, sels: seq<string>, text: string,
                  intro: Notice, shot: string, missing: Notice, errorTag: string, l: seq<Effect>)
    requires Scanned(f)
    ensures l <= Fill(rec, b, f, sels, text, intro, shot, missing, errorTag, l).log
  {
    var n := Note(rec, l, Says(intro), None);
    NoteGrows(rec, l, Says(intro), None, l);
    var s := ScanFx(rec, b, f, sels, n);
    ScanGrows(rec, b, f, sels, n, l);
    if ScanHit(b, f, sels).None? {
      NoteGrows(rec, s, Says(missing), None, l);
      ShotGrows(rec, b, Note(rec, s, Says(missing), None), errorTag, l);
    } else {
      DoGrows(s, Focus(f), l);
      TypingGrows(rec, b, f, text, s + [Do(Focus(f))], l);
      ShotGrows(rec, b, Typing(rec, b, f, text, s + [Do(Focus(f))]), shot, l);
    }
  }

  lemma AcceptanceGrows(rec: Recorder, b: Browser, to: string, l: seq<Effect>)
    ensures l <= Acceptance(rec, b, to, l)
  {
    ScanOfSuggestions(rec, b, to, l);
    AcceptanceTrace(rec, b, to, l);
    PrefixTransitive(l, SuggestionScan(rec, b, to, l), Acceptance(rec, b, to, l));
  }

  lemma RecipientGrows(rec: Recorder, b: Browser, to: string, l: seq<Effect>)
    ensures l <= RecipientPhase(rec, b, to, l).log
  {
    var filled := Fill(rec, b, To, ToSelectors, to, FillingRecipient,
                       "10_recipient_typed", ToMissing, "error_to_field_not_found", l);
    FillGrows(rec, b, To, ToSelectors, to, FillingRecipient,
              "10_recipient_typed", ToMissing, "error_to_field_not_found", l);
    AcceptanceGrows(rec, b, to, filled.log);
    PrefixTransitive(l, filled.log, Acceptance(rec, b, to, filled.log));
  }

  lemma MailReachedGrows(rec: Recorder, b: Browser, l: seq<Effect>)
    ensures l + [Do(UrlOnMail)] <= MailReached(rec, b, l)
  {
    var u := l + [Do(UrlOnMail)];
    var s0 := if b.ok(UrlOnMail) then u
              else Note(rec, u, Says(NavigatingToMail), None) + [Do(Navigate(MailPage))];
    if !b.ok(UrlOnMail) {
      NoteGrows(rec, u, Says(NavigatingToMail), None, u);
      DoGrows(Note(rec, u, Says(NavigatingToMail), None), Navigate(MailPage), u);
    }
    ShotGrows(rec, b, s0, "08_gmail_loaded", u);
    DoGrows(Shot(rec, b, s0, "08_gmail_loaded"), Await(MainRegion), u);
  }

  lemma ComposeScanGrows(rec: Recorder, b: Browser, l: seq<Effect>)
    ensures l <= ComposeScan(rec, b, l)
  {
    MailReachedGrows(rec, b, l);
    PrefixTransitive(l, l + [Do(UrlOnMail)], MailReached(rec, b, l));
    NoteGrows(rec, MailReached(rec, b, l), Says(LookingForCompose), None, l);
    ScanGrows(rec, b, ComposeButton, ComposeSelectors, Note(rec, MailReached(rec, b, l), Says(LookingForCompose), None), l);
  }

  /** How the compose step can end, each as a log built on the scan of the
      compose candidates. */
  lemma OpenPhaseShape(rec: Recorder, b: Browser, l: seq<Effect>)
    ensures
      var r := OpenPhase(rec, b, l);
      var s2 := ComposeScan(rec, b, l);
      var s3 := RetryFx(rec, b, ComposeButton, s2);
      r.log == (if b.ok(UrlOnMail) then l + [Do(UrlOnMail)]
                else Note(rec, l + [Do(UrlOnMail)], Says(NavigatingToMail), None) + [Do(Navigate(MailPage))]) ||
      r.log == MailReached(rec, b, l) ||
      r.log == Shot(rec, b, Note(rec, s2, Says(ComposeMissing), None), "error_compose_not_found") ||
      r.log == s3 ||
      r.log == Shot(rec, b, s3, "09_compose_opened") + [Do(Await(ComposeWindow))]
  {
  }

  lemma OpenGrows(rec: Recorder, b: Browser, l: seq<Effect>)
    ensures l <= OpenPhase(rec, b, l).log
  {
    OpenPhaseShape(rec, b, l);
    var u := l + [Do(UrlOnMail)];
    DoGrows(l, UrlOnMail, l);
    NoteGrows(rec, u, Says(NavigatingToMail), None, l);
    DoGrows(Note(rec, u, Says(NavigatingToMail), None), Navigate(MailPage), l);
    MailReachedGrows(rec, b, l);
    PrefixTransitive(l, u, MailReached(rec, b, l));
    var s2 := ComposeScan(rec, b, l);
    ComposeScanGrows(rec, b, l);
    NoteGrows(rec, s2, Says(ComposeMissing), None, l);
    ShotGrows(rec, b, Note(rec, s2, Says(ComposeMissing), None), "error_compose_not_found", l);
    var s3 := RetryFx(rec, b, ComposeButton, s2);
    RetryGrows(rec, b, ComposeButton, s2, l);
    ShotGrows(rec, b, s3, "09_compose_opened", l);
    DoGrows(Shot(rec, b, s3, "09_compose_opened"), Await(ComposeWindow), l);
  }

  lemma LastResortGrows(rec: Recorder, b: Browser, l: seq<Effect>)
    ensures l <= LastResortFx(rec, b, l).0
  {
    var c := CtrlEnter(LastResort);
    NoteGrows(rec, l, Says(AllClicksFailed), None, l);
    var pressed := Note(rec, l, Says(AllClicksFailed), None) + [Do(c)];
    DoGrows(Note(rec, l, Says(AllClicksFailed), None), c, l);
    NoteGrows(rec, pressed, Says(SentViaFallback), None, l);
    NoteGrows(rec, pressed, FinalShortcutFailed(b.error(c)), None, l);
  }

  lemma ActionsGrows(rec: Recorder, b: Browser, l: seq<Effect>)
    ensures l <= ActionsFx(rec, b, l).0
  {
    NoteGrows(rec, l, Says(TryingActions), None, l);
    var clicked := Note(rec, l, Says(TryingActions), None) + [Do(ActionsClick)];
    DoGrows(Note(rec, l, Says(TryingActions), None), ActionsClick, l);
    NoteGrows(rec, clicked, Says(ActionsClicked), None, l);
    var failed := Note(rec, clicked, ActionsFailed(b.error(ActionsClick)), None);
    NoteGrows(rec, clicked, ActionsFailed(b.error(ActionsClick)), None, l);
    LastResortGrows(rec, b, failed);
    PrefixTransitive(l, failed, LastResortFx(rec, b, failed).0);
  }

  lemma ScriptGrows(rec: Recorder, b: Browser, l: seq<Effect>)
    ensures l <= ScriptFx(rec, b, l).0
  {
    NoteGrows(rec, l, Says(TryingScript), None, l);
    var clicked := Note(rec, l, Says(TryingScript), None) + [Do(ScriptClick)];
    DoGrows(Note(rec, l, Says(TryingScript), None), ScriptClick, l);
    NoteGrows(rec, clicked, Says(ScriptClicked), None, l);
    var failed := Note(rec, clicked, ScriptFailed(b.error(ScriptClick)), None);
    NoteGrows(rec, clicked, ScriptFailed(b.error(ScriptClick)), None, l);
    ActionsGrows(rec, b, failed);
    PrefixTransitive(l, failed, ActionsFx(rec, b, failed).0);
  }

  lemma DispatchGrows(rec: Recorder, b: Browser, l: seq<Effect>)
    ensures l <= Dispatch(rec, b, l).0
  {
    var tries := RetryFx(rec, b, SendButton, l);
    RetryGrows(rec, b, SendButton, l, l);
    ScriptGrows(rec, b, tries);
    PrefixTransitive(l, tries, ScriptFx(rec, b, tries).0);
  }

  lemma SendGrowsWithoutButton(rec: Recorder, b: Browser, l: seq<Effect>)
    requires ScanHit(b, SendButton, SendSelectors).None?
    ensures l <= SendPhase(rec, b, l).log
  {
    var c := CtrlEnter(NoSendButton);
    NoteGrows(rec, l, Says(LookingForSend), None, l);
    var s0 := ScanFx(rec, b, SendButton, SendSelectors, Note(rec, l, Says(LookingForSend), None));
    ScanGrows(rec, b, SendButton, SendSelectors, Note(rec, l, Says(LookingForSend), None), l);
    NoteGrows(rec, s0, Says(SendMissing), None, l);
    var s1 := Shot(rec, b, Note(rec, s0, Says(SendMissing), None), "error_send_button_not_found");
    ShotGrows(rec, b, Note(rec, s0, Says(SendMissing), None), "error_send_button_not_found", l);
    NoteGrows(rec, s1, Says(TryingShortcut), None, l);
    var s2 := Note(rec, s1, Says(TryingShortcut), None) + [Do(c)];
    DoGrows(Note(rec, s1, Says(TryingShortcut), None), c, l);
    ShotGrows(rec, b, s2, "13_email_sent_via_keyboard", l);
    NoteGrows(rec, Shot(rec, b, s2, "13_email_sent_via_keyboard"), Says(SentViaShortcut), None, l);
    NoteGrows(rec, s2, ShortcutFailed(b.error(c)), None, l);
  }

  lemma SendGrowsWithButton(rec: Recorder, b: Browser, l: seq<Effect>)
    requires ScanHit(b, SendButton, SendSelectors).Some?
    ensures l <= SendPhase(rec, b, l).log
  {
    NoteGrows(rec, l, Says(LookingForSend), None, l);
    var s0 := ScanFx(rec, b, SendButton, SendSelectors, Note(rec, l, Says(LookingForSend), None));
    ScanGrows(rec, b, SendButton, SendSelectors, Note(rec, l, Says(LookingForSend), None), l);
    NoteGrows(rec, s0, Says(AttemptingSend), None, l);
    var n := Note(rec, s0, Says(AttemptingSend), None);
    var d := Dispatch(rec, b, n);
    DispatchGrows(rec, b, n);
    PrefixTransitive(l, n, d.0);
    var s2 := d.0 + [Do(Await(SentToast))];
    DoGrows(d.0, Await(SentToast), l);
    ShotGrows(rec, b, s2, "13_email_sent_success", l);
    NoteGrows(rec, Shot(rec, b, s2, "13_email_sent_success"), Says(EmailSent), None, l);
    ShotGrows(rec, b, s2, "13_email_sent_no_confirmation", l);
    NoteGrows(rec, Shot(rec, b, s2, "13_email_sent_no_confirmation"), Says(EmailLikelySent), None, l);
  }

  lemma SendGrows(rec: Recorder, b: Browser, l: seq<Effect>)
    ensures l <= SendPhase(rec, b, l).log
  {
    if ScanHit(b, SendButton, SendSelectors).None? {
      SendGrowsWithoutButton(rec, b, l);
    } else {
      SendGrowsWithButton(rec, b, l);
    }
  }

  lemma SettleGrows(rec: Recorder, b: Browser, r: Run, op: Operation)
    ensures r.log <= Settle(rec, b, r, op).log
  {
    if r.flow.Raised? {
      NoteGrows(rec, r.log, FailMsg(op, b.error(r.flow.at)), None, r.log);
      ShotGrows(rec, b, Note(rec, r.log, FailMsg(op, b.error(r.flow.at)), None), FailTag(op), r.log);
    }
  }

  lemma ComposePhasesGrow(rec: Recorder, b: Browser, to: string, subject: string, body: string, l: seq<Effect>)
    ensures l <= ComposePhases(rec, b, to, subject, body, l).log
  {
    var a := OpenPhase(rec, b, l);
    OpenGrows(rec, b, l);
    var r := RecipientPhase(rec, b, to, a.log);
    RecipientGrows(rec, b, to, a.log);
    PrefixTransitive(l, a.log, r.log);
    var s := SubjectPhase(rec, b, subject, r.log);
    FillGrows(rec, b, Subject, SubjectSelectors, subject, FillingSubject,
              "11_subject_filled", SubjectMissing, "error_subject_field_not_found", r.log);
    PrefixTransitive(l, r.log, s.log);
    var m := BodyPhase(rec, b, body, s.log);
    FillGrows(rec, b, Body, BodySelectors, body, FillingBody,
              "12_body_filled", BodyMissing, "error_body_area_not_found", s.log);
    PrefixTransitive(l, s.log, m.log);
    SendGrows(rec, b, m.log);
    PrefixTransitive(l, m.log, SendPhase(rec, b, m.log).log);
  }

  /** `compose_and_send_email` only appends to the log. */
  lemma ComposeGrows(rec: Recorder, drv: Option<Browser>, to: string, subject: string, body: string, l: seq<Effect>)
    ensures l <= Compose(rec, drv, to, subject, body, l).log
  {
    if drv.None? {
      NoteGrows(rec, l, Says(NoDriverSend), None, l);
    } else {
      var r := ComposePhases(rec, drv.value, to, subject, body, l);
      ComposePhasesGrow(rec, drv.value, to, subject, body, l);
      SettleGrows(rec, drv.value, r, Delivery);
      PrefixTransitive(l, r.log, Settle(rec, drv.value, r, Delivery).log);
    }
  }

  // ---------------------------------------------------------------------
  // Login.

  lemma IdentifierGrows(rec: Recorder, b: Browser, email: string, l: seq<Effect>)
    ensures l <= IdentifierPhase(rec, b, email, l).log
  {
    NoteGrows(rec, l, Says(OpeningGmail), None, l);
    var s0 := Note(rec, l, Says(OpeningGmail), None) + [Do(Navigate(SignInPage))];
    DoGrows(Note(rec, l, Says(OpeningGmail), None), Navigate(SignInPage), l);
    ShotGrows(rec, b, s0, "01_gmail_page", l);
    NoteGrows(rec, Shot(rec, b, s0, "01_gmail_page"), Says(EnteringEmail), None, l);
    var n := Note(rec, Shot(rec, b, s0, "01_gmail_page"), Says(EnteringEmail), None);
    var s1 := n + [Do(Locate(Identifier, 0))];
    DoGrows(n, Locate(Identifier, 0), l);
    var s2 := s1 + [Do(Focus(Identifier))];
    DoGrows(s1, Focus(Identifier), l);
    TypingGrows(rec, b, Identifier, email, s2, l);
    var typed := Typing(rec, b, Identifier, email, s2);
    ShotGrows(rec, b, typed, "02_email_entered", l);
    var s3 := Shot(rec, b, typed, "02_email_entered") + [Do(Click(IdentifierNext, 0))];
    DoGrows(Shot(rec, b, typed, "02_email_entered"), Click(IdentifierNext, 0), l);
    ShotGrows(rec, b, s3, "03_next_clicked", l);
    NoteGrows(rec, Shot(rec, b, s3, "03_next_clicked"), Says(AwaitingPasswordPage), None, l);
    ShotGrows(rec, b, Note(rec, Shot(rec, b, s3, "03_next_clicked"), Says(AwaitingPasswordPage), None),
              "04_password_page_loaded", l);
  }

  lemma PasswordTypedGrows(rec: Recorder, b: Browser, password: string, l: seq<Effect>)
    ensures l <= PasswordTyped(rec, b, password, l)
  {
    NoteGrows(rec, l, Says(LookingForPassword), None, l);
    var s4 := ScanFx(rec, b, Password, PasswordSelectors, Note(rec, l, Says(LookingForPassword), None));
    ScanGrows(rec, b, Password, PasswordSelectors, Note(rec, l, Says(LookingForPassword), None), l);
    NoteGrows(rec, s4, Says(ClickingPassword), None, l);
    DoGrows(Note(rec, s4, Says(ClickingPassword), None), Focus(Password), l);
    TypingGrows(rec, b, Password, password, Note(rec, s4, Says(ClickingPassword), None) + [Do(Focus(Password))], l);
  }

  lemma PasswordSubmittedGrows(rec: Recorder, b: Browser, password: string, l: seq<Effect>)
    ensures l <= PasswordSubmitted(rec, b, password, l)
  {
    var typed := PasswordTyped(rec, b, password, l);
    PasswordTypedGrows(rec, b, password, l);
    ShotGrows(rec, b, typed, "05_password_field_filled", l);
    var s6 := Shot(rec, b, typed, "05_password_field_filled") + [Do(Click(PasswordNext, 0))];
    DoGrows(Shot(rec, b, typed, "05_password_field_filled"), Click(PasswordNext, 0), l);
    ShotGrows(rec, b, s6, "07_password_next_clicked", l);
    NoteGrows(rec, Shot(rec, b, s6, "07_password_next_clicked"), Says(AwaitingLogin), None, l);
    DoGrows(Note(rec, Shot(rec, b, s6, "07_password_next_clicked"), Says(AwaitingLogin), None), Await(LoginMarkers), l);
  }

  /** How the password step can end, each as a log built on the steps above. */
  lemma PasswordPhaseShape(rec: Recorder, b: Browser, password: string, l: seq<Effect>)
    ensures
      var r := PasswordPhase(rec, b, password, l);
      var s4 := ScanFx(rec, b, Password, PasswordSelectors, Note(rec, l, Says(LookingForPassword), None));
      var s5 := Note(rec, s4, Says(ClickingPassword), None) + [Do(Focus(Password))];
      var s6 := Shot(rec, b, PasswordTyped(rec, b, password, l), "05_password_field_filled")
                + [Do(Click(PasswordNext, 0))];
      var s7 := PasswordSubmitted(rec, b, password, l);
      r.log == Shot(rec, b, Note(rec, s4, Says(PasswordMissing), None), "error_password_field_not_found") ||
      r.log == s5 || r.log == s6 || r.log == s7 ||
      r.log == Note(rec, Shot(rec, b, s7, "08_login_success"), Says(LoginSucceeded), None) ||
      r.log == Note(rec, Shot(rec, b, s7, "error_login_failed"), Says(LoginUnconfirmed), None)
  {
  }

  lemma PasswordGrows(rec: Recorder, b: Browser, password: string, l: seq<Effect>)
    ensures l <= PasswordPhase(rec, b, password, l).log
  {
    PasswordPhaseShape(rec, b, password, l);
    NoteGrows(rec, l, Says(LookingForPassword), None, l);
    var s4 := ScanFx(rec, b, Password, PasswordSelectors, Note(rec, l, Says(LookingForPassword), None));
    ScanGrows(rec, b, Password, PasswordSelectors, Note(rec, l, Says(LookingForPassword), None), l);
    NoteGrows(rec, s4, Says(PasswordMissing), None, l);
    ShotGrows(rec, b, Note(rec, s4, Says(PasswordMissing), None), "error_password_field_not_found", l);
    NoteGrows(rec, s4, Says(ClickingPassword), None, l);
    DoGrows(Note(rec, s4, Says(ClickingPassword), None), Focus(Password), l);
    var typed := PasswordTyped(rec, b, password, l);
    PasswordTypedGrows(rec, b, password, l);
    ShotGrows(rec, b, typed, "05_password_field_filled", l);
    DoGrows(Shot(rec, b, typed, "05_password_field_filled"), Click(PasswordNext, 0), l);
    var s7 := PasswordSubmitted(rec, b, password, l);
    PasswordSubmittedGrows(rec, b, password, l);
    ShotGrows(rec, b, s7, "08_login_success", l);
    NoteGrows(rec, Shot(rec, b, s7, "08_login_success"), Says(LoginSucceeded), None, l);
    ShotGrows(rec, b, s7, "error_login_failed", l);
    NoteGrows(rec, Shot(rec, b, s7, "error_login_failed"), Says(LoginUnconfirmed), None, l);
  }

  /** `login_to_gmail` only appends to the log. */
  lemma LoginGrows(rec: Recorder, drv: Option<Browser>, email: string, password: string, l: seq<Effect>)
    ensures l <= Login(rec, drv, email, password, l).log
  {
    if drv.None? {
      NoteGrows(rec, l, Says(NoDriverLogin), None, l);
    } else {
      var b := drv.value;
      var a := IdentifierPhase(rec, b, email, l);
      IdentifierGrows(rec, b, email, l);
      PasswordGrows(rec, b, password, a.log);
      PrefixTransitive(l, a.log, PasswordPhase(rec, b, password, a.log).log);
      var r := LoginPhases(rec, b, email, password, l);
      SettleGrows(rec, b, r, SignIn);
      PrefixTransitive(l, r.log, Settle(rec, b, r, SignIn).log);
    }
  }

  /** `quit` only appends to the log. */
  lemma QuitGrows(rec: Recorder, drv: Option<Browser>, l: seq<Effect>)
    ensures l <= QuitFx(rec, drv, l)
  {
    if drv.Some? {
      DoGrows(l, Close, l);
      DoGrows(l + [Do(Close)], Quit, l);
      NoteGrows(rec, l + [Do(Close)] + [Do(Quit)], Says(BrowserClosed), None, l);
    }
  }
}
