/** Properties of the agent's workflow, stated over the log functions of
    module `Effects`: which driver calls a step makes and in which order,
    which diagnostic screenshots it takes, and how each operation ends. */
module AgentFacts {
  import opened Search
  import opened Paths
  import opened Driver
  import opened Messages
  import opened Effects

  // ---------------------------------------------------------------------
  // Projections of a log.

  /** The driver calls of a log, in order. */
  function Calls(l: seq<Effect>): seq<Call>
    decreases |l|
  {
    if l == [] then [] else Calls(l[..|l| - 1]) + (if l[|l| - 1].Do? then [l[|l| - 1].call] else [])
  }

  /** A screenshot tag of the failure kind. */
  predicate IsErrorTag(name: string)
  {
    |name| >= 6 && name[..6] == "error_"
  }

  /** The `error_` screenshots among some driver calls, in order. */
  function ErrorShots(cs: seq<Call>): seq<string>
  {
    if cs == [] then []
    else (if cs[0].Save? && IsErrorTag(cs[0].name) then [cs[0].name] else []) + ErrorShots(cs[1..])
  }

  /** The status messages of a log, in order, whichever way they went out. */
  function Msgs(l: seq<Effect>): seq<Msg>
    decreases |l|
  {
    if l == [] then [] else Msgs(l[..|l| - 1]) + (if l[|l| - 1].Do? then [] else [l[|l| - 1].msg])
  }

  /** Candidates 0..n-1 of a selector loop. */
  function LocateRun(f: Field, n: nat): seq<Call>
  {
    seq(n, (i: nat) => Locate(f, i))
  }

  /** Attempts 0..n-1 of a click retry loop. */
  function ClickRun(f: Field, n: nat): seq<Call>
  {
    seq(n, (a: nat) => Click(f, a))
  }

  lemma PrefixTransitive(a: seq<Effect>, b: seq<Effect>, c: seq<Effect>)
    requires a <= b && b <= c
    ensures a <= c
  {
    assert c[..|b|][..|a|] == c[..|a|];
  }

  // ---------------------------------------------------------------------
  // How the projections distribute.

  lemma CallsSnoc(l: seq<Effect>, e: Effect)
    ensures Calls(l + [e]) == Calls(l) + (if e.Do? then [e.call] else [])
  {
    assert (l + [e])[..|l|] == l;
  }

  lemma {:induction false} CallsAppend(l: seq<Effect>, m: seq<Effect>)
    ensures Calls(l + m) == Calls(l) + Calls(m)
    decreases |m|
  {
    if m == [] {
      assert l + m == l;
    } else {
      var m' := m[..|m| - 1];
      var e := m[|m| - 1];
      assert l + m == (l + m') + [e];
      assert m == m' + [e];
      CallsSnoc(l + m', e);
      CallsSnoc(m', e);
      CallsAppend(l, m');
    }
  }

  lemma {:induction false} ErrorShotsAppend(a: seq<Call>, c: seq<Call>)
    ensures ErrorShots(a + c) == ErrorShots(a) + ErrorShots(c)
    decreases |a|
  {
    if a == [] {
      assert a + c == c;
    } else {
      assert (a + c)[1..] == a[1..] + c;
      ErrorShotsAppend(a[1..], c);
    }
  }

  /** Calls that are not screenshots contribute no error screenshot. */
  lemma {:induction false} ErrorShotsNoSave(cs: seq<Call>)
    requires forall i :: 0 <= i < |cs| ==> !cs[i].Save?
    ensures ErrorShots(cs) == []
    decreases |cs|
  {
    if cs != [] {
      ErrorShotsNoSave(cs[1..]);
    }
  }

  lemma ErrorShotsOne(c: Call)
    ensures ErrorShots([c]) == if c.Save? && IsErrorTag(c.name) then [c.name] else []
  {
    assert [c][1..] == [];
  }

  /** A status message adds no driver call. */
  lemma CallsNote(rec: Recorder, l: seq<Effect>, m: Msg, image: Option<string>)
    ensures Calls(Note(rec, l, m, image)) == Calls(l)
  {
    CallsSnoc(l, if rec.callback then Emit(m, image) else Print(m));
  }

  /** `wait_and_screenshot` on a live driver makes exactly one call, the save. */
  lemma CallsShot(rec: Recorder, b: Browser, l: seq<Effect>, name: string)
    ensures Calls(Shot(rec, b, l, name)) == Calls(l) + [Save(name)]
  {
    var path := ShotPath(rec, name);
    CallsSnoc(l, Do(Save(name)));
    CallsNote(rec, l + [Do(Save(name))], ShotSaved(path), Some(path));
    CallsNote(rec, l + [Do(Save(name))], ShotFailed(b.error(Save(name))), None);
  }

  lemma CallsDo(l: seq<Effect>, c: Call)
    ensures Calls(l + [Do(c)]) == Calls(l) + [c]
  {
    CallsSnoc(l, Do(c));
  }

  lemma MsgsSnoc(l: seq<Effect>, e: Effect)
    ensures Msgs(l + [e]) == Msgs(l) + (if e.Do? then [] else [e.msg])
  {
    assert (l + [e])[..|l|] == l;
  }

  /** A status message is one message and no call. */
  lemma NoteFacts(rec: Recorder, l: seq<Effect>, m: Msg, image: Option<string>)
    ensures Calls(Note(rec, l, m, image)) == Calls(l)
    ensures Msgs(Note(rec, l, m, image)) == Msgs(l) + [m]
    ensures l <= Note(rec, l, m, image)
  {
    CallsNote(rec, l, m, image);
    MsgsSnoc(l, if rec.callback then Emit(m, image) else Print(m));
  }

  /** A driver call is one call and no message. */
  lemma DoFacts(l: seq<Effect>, c: Call)
    ensures Calls(l + [Do(c)]) == Calls(l) + [c]
    ensures Msgs(l + [Do(c)]) == Msgs(l)
    ensures l <= l + [Do(c)]
  {
    CallsSnoc(l, Do(c));
    MsgsSnoc(l, Do(c));
  }

  /** The message `wait_and_screenshot` sends on a live driver. */
  function ShotMsg(rec: Recorder, b: Browser, name: string): Msg
  {
    if b.ok(Save(name)) then ShotSaved(ShotPath(rec, name)) else ShotFailed(b.error(Save(name)))
  }

  /** A screenshot on a live driver: one save, one message. */
  lemma ShotFacts(rec: Recorder, b: Browser, l: seq<Effect>, name: string)
    ensures Calls(Shot(rec, b, l, name)) == Calls(l) + [Save(name)]
    ensures Msgs(Shot(rec, b, l, name)) == Msgs(l) + [ShotMsg(rec, b, name)]
    ensures l <= Shot(rec, b, l, name)
  {
    var path := ShotPath(rec, name);
    DoFacts(l, Save(name));
    NoteFacts(rec, l + [Do(Save(name))], ShotSaved(path), Some(path));
    NoteFacts(rec, l + [Do(Save(name))], ShotFailed(b.error(Save(name))), None);
  }

  // ---------------------------------------------------------------------
  // Selector loops.

  /** One pass of a selector loop attempts candidate i and nothing else. */
  lemma ScanStepFacts(rec: Recorder, b: Browser, f: Field, sels: seq<string>, i: nat, l: seq<Effect>)
    requires Scanned(f) && i < |sels|
    ensures Calls(ScanStep(rec, b, f, sels, i, l)) == Calls(l) + [Locate(f, i)]
  {
    var tried := l + [Do(Locate(f, i))];
    DoFacts(l, Locate(f, i));
    if b.ok(Locate(f, i)) {
      NoteFacts(rec, tried, FoundMsg(f, i, sels[i]), None);
    } else if f == SendButton {
      NoteFacts(rec, tried, SendSelectorFailed(i + 1, sels[i]), None);
    }
  }

  lemma ScanStepExtends(rec: Recorder, b: Browser, f: Field, sels: seq<string>, i: nat, l: seq<Effect>)
    requires Scanned(f) && i < |sels|
    ensures l <= ScanStep(rec, b, f, sels, i, l)
  {
  }

  /** Candidates 0..n-1 of a selector loop, after calls `cs`. */
  function LocateRunAfter(f: Field, n: nat, cs: seq<Call>): seq<Call>
  {
    if n == 0 then cs else LocateRunAfter(f, n - 1, cs) + [Locate(f, n - 1)]
  }

  lemma {:induction false} LocateRunAfterIs(f: Field, n: nat, cs: seq<Call>)
    ensures LocateRunAfter(f, n, cs) == cs + LocateRun(f, n)
  {
    if n > 0 {
      LocateRunAfterIs(f, n - 1, cs);
      assert LocateRun(f, n) == LocateRun(f, n - 1) + [Locate(f, n - 1)];
    }
  }

  /** The first n passes of a selector loop attempt candidates 0..n-1, in
      order, and nothing else. */
  lemma {:induction false} ScanTraceAfter(rec: Recorder, b: Browser, f: Field, sels: seq<string>, n: nat, l: seq<Effect>)
    requires Scanned(f) && n <= |sels|
    ensures Calls(ScanSteps(rec, b, f, sels, n, l)) == LocateRunAfter(f, n, Calls(l))
  {
    if n > 0 {
      var m: nat := n - 1;
      var prev := ScanSteps(rec, b, f, sels, m, l);
      ScanTraceAfter(rec, b, f, sels, m, l);
      ScanStepFacts(rec, b, f, sels, m, prev);
    }
  }

  /** Selector loops only append to the log. */
  lemma {:induction false} ScanStepsExtend(rec: Recorder, b: Browser, f: Field, sels: seq<string>, n: nat, l: seq<Effect>)
    requires Scanned(f) && n <= |sels|
    ensures l <= ScanSteps(rec, b, f, sels, n, l)
  {
    if n > 0 {
      var prev := ScanSteps(rec, b, f, sels, n - 1, l);
      ScanStepsExtend(rec, b, f, sels, n - 1, l);
      ScanStepExtends(rec, b, f, sels, n - 1, prev);
      PrefixTransitive(l, prev, ScanSteps(rec, b, f, sels, n, l));
    }
  }

  lemma ScanTrace(rec: Recorder, b: Browser, f: Field, sels: seq<string>, n: nat, l: seq<Effect>)
    requires Scanned(f) && n <= |sels|
    ensures Calls(ScanSteps(rec, b, f, sels, n, l)) == Calls(l) + LocateRun(f, n)
  {
    ScanTraceAfter(rec, b, f, sels, n, l);
    LocateRunAfterIs(f, n, Calls(l));
  }

  /** Outside the send loop, a candidate that does not resolve is passed
      over without a message. */
  lemma {:induction false} ScanMissesAreSilent(rec: Recorder, b: Browser, f: Field, sels: seq<string>, n: nat, l: seq<Effect>)
    requires Scanned(f) && f != SendButton && n <= |sels|
    requires forall j :: 0 <= j < n ==> !b.ok(Locate(f, j))
    ensures Msgs(ScanSteps(rec, b, f, sels, n, l)) == Msgs(l)
  {
    if n > 0 {
      var prev := ScanSteps(rec, b, f, sels, n - 1, l);
      ScanMissesAreSilent(rec, b, f, sels, n - 1, l);
      DoFacts(prev, Locate(f, n - 1));
    }
  }

  /** The reports of send candidates 0..n-1 that did not resolve, after `ms`. */
  function MissReportsAfter(sels: seq<string>, n: nat, ms: seq<Msg>): seq<Msg>
    requires n <= |sels|
  {
    if n == 0 then ms else MissReportsAfter(sels, n - 1, ms) + [SendSelectorFailed(n, sels[n - 1])]
  }

  /** The send loop reports every candidate that does not resolve, with its
      position counted from 1. */
  lemma {:induction false} SendMissesAreReported(rec: Recorder, b: Browser, sels: seq<string>, n: nat, l: seq<Effect>)
    requires n <= |sels|
    requires forall j :: 0 <= j < n ==> !b.ok(Locate(SendButton, j))
    ensures Msgs(ScanSteps(rec, b, SendButton, sels, n, l)) == MissReportsAfter(sels, n, Msgs(l))
  {
    if n > 0 {
      var prev := ScanSteps(rec, b, SendButton, sels, n - 1, l);
      SendMissesAreReported(rec, b, sels, n - 1, l);
      DoFacts(prev, Locate(SendButton, n - 1));
      NoteFacts(rec, prev + [Do(Locate(SendButton, n - 1))], SendSelectorFailed(n, sels[n - 1]), None);
    }
  }

  /** The candidate a selector loop keeps is the first that resolves; it
      keeps none exactly when no candidate resolves. */
  lemma ScanHitIsFirst(b: Browser, f: Field, sels: seq<string>)
    ensures ScanHit(b, f, sels).Some? ==>
      ScanHit(b, f, sels).value < |sels| && b.ok(Locate(f, ScanHit(b, f, sels).value)) &&
      forall j :: 0 <= j < ScanHit(b, f, sels).value ==> !b.ok(Locate(f, j))
    ensures ScanHit(b, f, sels).None? <==> forall j :: 0 <= j < |sels| ==> !b.ok(Locate(f, j))
  {
    var outcomes := LocateOutcomes(b, f, |sels|);
    assert forall j :: 0 <= j < |sels| ==> outcomes[j] == b.ok(Locate(f, j));
    FirstTrueIsFirst(outcomes);
  }

  /** If candidate k is the first that resolves, the loop attempts exactly
      candidates 0..k: later candidates are never tried. */
  lemma SelectorStopsAtFirst(rec: Recorder, b: Browser, f: Field, sels: seq<string>, k: nat, l: seq<Effect>)
    requires Scanned(f) && k < |sels| && b.ok(Locate(f, k))
    requires forall j :: 0 <= j < k ==> !b.ok(Locate(f, j))
    ensures ScanHit(b, f, sels) == Some(k)
    ensures Calls(ScanFx(rec, b, f, sels, l)) == Calls(l) + LocateRun(f, k + 1)
  {
    ScanStopsAt(rec, b, f, sels, k, l);
    ScanTrace(rec, b, f, sels, k + 1, l);
  }

  /** If no candidate resolves, the loop attempts all of them and keeps none. */
  lemma SelectorExhausted(rec: Recorder, b: Browser, f: Field, sels: seq<string>, l: seq<Effect>)
    requires Scanned(f)
    requires forall j :: 0 <= j < |sels| ==> !b.ok(Locate(f, j))
    ensures ScanHit(b, f, sels) == None
    ensures Calls(ScanFx(rec, b, f, sels, l)) == Calls(l) + LocateRun(f, |sels|)
  {
    ScanExhausted(rec, b, f, sels, l);
    ScanTrace(rec, b, f, sels, |sels|, l);
  }

  /** A whole selector loop extends the log and attempts only lookups. */
  lemma ScanFxFacts(rec: Recorder, b: Browser, f: Field, sels: seq<string>, l: seq<Effect>)
    requires Scanned(f)
    ensures Calls(ScanFx(rec, b, f, sels, l)) == Calls(l) + LocateRun(f, Tried(LocateOutcomes(b, f, |sels|)))
    ensures l <= ScanFx(rec, b, f, sels, l)
  {
    ScanTrace(rec, b, f, sels, Tried(LocateOutcomes(b, f, |sels|)), l);
    ScanStepsExtend(rec, b, f, sels, Tried(LocateOutcomes(b, f, |sels|)), l);
  }

  /** Lookups are not screenshots. */
  lemma LocateRunHasNoShots(f: Field, n: nat)
    ensures ErrorShots(LocateRun(f, n)) == []
  {
    ErrorShotsNoSave(LocateRun(f, n));
  }

  // ---------------------------------------------------------------------
  // Locate-and-click loops.

  /** The calls of the first n passes of a locate-and-click loop, after `cs`:
      each candidate is looked up, and clicked only when it resolves. */
  function ClickCallsAfter(b: Browser, f: Field, n: nat, cs: seq<Call>): seq<Call>
  {
    if n == 0 then cs
    else ClickCallsAfter(b, f, n - 1, cs)
         + (if b.ok(Locate(f, n - 1)) then [Locate(f, n - 1), Click(f, n - 1)] else [Locate(f, n - 1)])
  }

  lemma ClickStepFacts(rec: Recorder, b: Browser, f: Field, sels: seq<string>, i: nat, l: seq<Effect>)
    requires ClickScanned(f) && i < |sels|
    ensures Calls(ClickStep(rec, b, f, sels, i, l))
         == Calls(l) + (if b.ok(Locate(f, i)) then [Locate(f, i), Click(f, i)] else [Locate(f, i)])
  {
    var tried := l + [Do(Locate(f, i))];
    DoFacts(l, Locate(f, i));
    if b.ok(Locate(f, i)) {
      DoFacts(tried, Click(f, i));
      NoteFacts(rec, tried + [Do(Click(f, i))], ClickedMsg(f, sels[i]), None);
    }
  }

  lemma {:induction false} ClickTraceAfter(rec: Recorder, b: Browser, f: Field, sels: seq<string>, n: nat, l: seq<Effect>)
    requires ClickScanned(f) && n <= |sels|
    ensures Calls(ClickSteps(rec, b, f, sels, n, l)) == ClickCallsAfter(b, f, n, Calls(l))
  {
    if n > 0 {
      var m: nat := n - 1;
      var prev := ClickSteps(rec, b, f, sels, m, l);
      ClickTraceAfter(rec, b, f, sels, m, l);
      ClickStepFacts(rec, b, f, sels, m, prev);
    }
  }

  lemma ClickStepExtends(rec: Recorder, b: Browser, f: Field, sels: seq<string>, i: nat, l: seq<Effect>)
    requires ClickScanned(f) && i < |sels|
    ensures l <= ClickStep(rec, b, f, sels, i, l)
  {
  }

  lemma {:induction false} ClickStepsExtend(rec: Recorder, b: Browser, f: Field, sels: seq<string>, n: nat, l: seq<Effect>)
    requires ClickScanned(f) && n <= |sels|
    ensures l <= ClickSteps(rec, b, f, sels, n, l)
  {
    if n > 0 {
      var prev := ClickSteps(rec, b, f, sels, n - 1, l);
      ClickStepsExtend(rec, b, f, sels, n - 1, l);
      ClickStepExtends(rec, b, f, sels, n - 1, prev);
      PrefixTransitive(l, prev, ClickSteps(rec, b, f, sels, n, l));
    }
  }

  lemma ClickTrace(rec: Recorder, b: Browser, f: Field, sels: seq<string>, n: nat, l: seq<Effect>)
    requires ClickScanned(f) && n <= |sels|
    ensures Calls(ClickSteps(rec, b, f, sels, n, l)) == ClickCallsAfter(b, f, n, Calls(l))
    ensures l <= ClickSteps(rec, b, f, sels, n, l)
  {
    ClickTraceAfter(rec, b, f, sels, n, l);
    ClickStepsExtend(rec, b, f, sels, n, l);
  }

  /** A lookup or a click of one of the candidates of field f. */
  predicate IsLookup(f: Field, c: Call)
  {
    (c.Locate? || c.Click?) && c.field == f
  }

  /** A locate-and-click loop only looks up and clicks its own candidates. */
  lemma {:induction false} ClickCallsAreLookups(b: Browser, f: Field, n: nat, cs: seq<Call>)
    ensures |cs| <= |ClickCallsAfter(b, f, n, cs)|
    ensures ClickCallsAfter(b, f, n, cs)[..|cs|] == cs
    ensures forall i :: |cs| <= i < |ClickCallsAfter(b, f, n, cs)| ==> IsLookup(f, ClickCallsAfter(b, f, n, cs)[i])
  {
    if n > 0 {
      ClickCallsAreLookups(b, f, n - 1, cs);
    }
  }

  // ---------------------------------------------------------------------
  // Click retries.

  /** Attempts 0..n-1 of a click retry loop, after `cs`. */
  function ClickRunAfter(f: Field, n: nat, cs: seq<Call>): seq<Call>
  {
    if n == 0 then cs else ClickRunAfter(f, n - 1, cs) + [Click(f, n - 1)]
  }

  lemma {:induction false} ClickRunAfterIs(f: Field, n: nat, cs: seq<Call>)
    ensures ClickRunAfter(f, n, cs) == cs + ClickRun(f, n)
  {
    if n > 0 {
      ClickRunAfterIs(f, n - 1, cs);
      assert ClickRun(f, n) == ClickRun(f, n - 1) + [Click(f, n - 1)];
    }
  }

  lemma RetryStepFacts(rec: Recorder, b: Browser, f: Field, a: nat, l: seq<Effect>)
    ensures Calls(RetryStep(rec, b, f, a, l)) == Calls(l) + [Click(f, a)]
    ensures Msgs(RetryStep(rec, b, f, a, l)) == Msgs(l) + [RetryMsg(b, f, a)]
  {
    DoFacts(l, Click(f, a));
    NoteFacts(rec, l + [Do(Click(f, a))], RetryMsg(b, f, a), None);
  }

  lemma {:induction false} RetryTraceAfter(rec: Recorder, b: Browser, f: Field, n: nat, l: seq<Effect>)
    ensures Calls(RetrySteps(rec, b, f, n, l)) == ClickRunAfter(f, n, Calls(l))
  {
    if n > 0 {
      var prev := RetrySteps(rec, b, f, n - 1, l);
      RetryTraceAfter(rec, b, f, n - 1, l);
      RetryStepFacts(rec, b, f, n - 1, prev);
    }
  }

  lemma {:induction false} RetryStepsExtend(rec: Recorder, b: Browser, f: Field, n: nat, l: seq<Effect>)
    ensures l <= RetrySteps(rec, b, f, n, l)
  {
    if n > 0 {
      var prev := RetrySteps(rec, b, f, n - 1, l);
      RetryStepsExtend(rec, b, f, n - 1, l);
      assert prev <= RetryStep(rec, b, f, n - 1, prev);
      PrefixTransitive(l, prev, RetrySteps(rec, b, f, n, l));
    }
  }

  /** The retry loop clicks attempts 0..k, where k is the first attempt whose
      click returns (all three when none does). */
  lemma RetryTrace(rec: Recorder, b: Browser, f: Field, l: seq<Effect>)
    ensures Calls(RetryFx(rec, b, f, l)) == Calls(l) + ClickRun(f, Tried(RetryOutcomes(b, f)))
    ensures l <= RetryFx(rec, b, f, l)
  {
    RetryTraceAfter(rec, b, f, Tried(RetryOutcomes(b, f)), l);
    RetryStepsExtend(rec, b, f, Tried(RetryOutcomes(b, f)), l);
    ClickRunAfterIs(f, Tried(RetryOutcomes(b, f)), Calls(l));
  }

  // ---------------------------------------------------------------------
  // Human typing.

  /** The keystrokes of the first n characters of `text`. */
  function KeyRun(f: Field, text: string, n: nat): seq<Call>
    requires n <= |text|
  {
    seq(n, (i: nat) requires i < n => Key(f, i, text[i]))
  }

  function KeyRunAfter(f: Field, text: string, n: nat, cs: seq<Call>): seq<Call>
    requires n <= |text|
  {
    if n == 0 then cs else KeyRunAfter(f, text, n - 1, cs) + [Key(f, n - 1, text[n - 1])]
  }

  lemma {:induction false} KeyRunAfterIs(f: Field, text: string, n: nat, cs: seq<Call>)
    requires n <= |text|
    ensures KeyRunAfter(f, text, n, cs) == cs + KeyRun(f, text, n)
  {
    if n > 0 {
      KeyRunAfterIs(f, text, n - 1, cs);
      assert KeyRun(f, text, n) == KeyRun(f, text, n - 1) + [Key(f, n - 1, text[n - 1])];
    }
  }

  lemma {:induction false} KeysTrace(f: Field, text: string, n: nat, l: seq<Effect>)
    requires n <= |text|
    ensures Calls(KeysDone(f, text, n, l)) == KeyRunAfter(f, text, n, Calls(l))
    ensures Msgs(KeysDone(f, text, n, l)) == Msgs(l)
    ensures l <= KeysDone(f, text, n, l)
  {
    if n > 0 {
      KeysTrace(f, text, n - 1, l);
      DoFacts(KeysDone(f, text, n - 1, l), Key(f, n - 1, text[n - 1]));
    }
  }

  /** The message `human_type` ends with, if any. */
  function TypingReport(b: Browser, f: Field, text: string): seq<Msg>
  {
    if !b.ok(Clear(f)) then [TypingFailed(b.error(Clear(f)))]
    else match FirstTrue(KeyFailures(b, f, text))
      case None => []
      case Some(k) => [TypingFailed(b.error(Key(f, k, text[k])))]
  }

  /** The keystrokes `human_type` sends once the clear returned. */
  function Keystrokes(b: Browser, f: Field, text: string): seq<Call>
  {
    KeyRun(f, text, Tried(KeyFailures(b, f, text)))
  }

  lemma TypingAllKeys(rec: Recorder, b: Browser, f: Field, text: string, l: seq<Effect>)
    requires b.ok(Clear(f)) && FirstTrue(KeyFailures(b, f, text)).None?
    ensures Calls(Typing(rec, b, f, text, l)) == KeyRunAfter(f, text, |text|, Calls(l + [Do(Clear(f))]))
    ensures Msgs(Typing(rec, b, f, text, l)) == Msgs(l + [Do(Clear(f))])
    ensures l + [Do(Clear(f))] <= Typing(rec, b, f, text, l)
  {
    KeysTrace(f, text, |text|, l + [Do(Clear(f))]);
  }

  lemma TypingStopsAt(rec: Recorder, b: Browser, f: Field, text: string, k: nat, l: seq<Effect>)
    requires b.ok(Clear(f)) && FirstTrue(KeyFailures(b, f, text)) == Some(k)
    ensures k < |text|
    ensures Calls(Typing(rec, b, f, text, l)) == KeyRunAfter(f, text, k + 1, Calls(l + [Do(Clear(f))]))
    ensures Msgs(Typing(rec, b, f, text, l)) == Msgs(l + [Do(Clear(f))]) + [TypingFailed(b.error(Key(f, k, text[k])))]
    ensures l + [Do(Clear(f))] <= Typing(rec, b, f, text, l)
  {
    var typed := KeysDone(f, text, k, l + [Do(Clear(f))]);
    KeysTrace(f, text, k, l + [Do(Clear(f))]);
    DoFacts(typed, Key(f, k, text[k]));
    NoteFacts(rec, typed + [Do(Key(f, k, text[k]))], TypingFailed(b.error(Key(f, k, text[k]))), None);
  }

  lemma TypingAfterClear(rec: Recorder, b: Browser, f: Field, text: string, l: seq<Effect>)
    requires b.ok(Clear(f))
    ensures Calls(Typing(rec, b, f, text, l)) == KeyRunAfter(f, text, Tried(KeyFailures(b, f, text)), Calls(l + [Do(Clear(f))]))
    ensures Msgs(Typing(rec, b, f, text, l)) == Msgs(l + [Do(Clear(f))]) + TypingReport(b, f, text)
    ensures l + [Do(Clear(f))] <= Typing(rec, b, f, text, l)
  {
    match FirstTrue(KeyFailures(b, f, text))
    case None =>
      TypingAllKeys(rec, b, f, text, l);
    case Some(k) =>
      TypingStopsAt(rec, b, f, text, k, l);
  }

  /** `human_type` clears the field, then sends one keystroke per character in
      order, stopping after the first keystroke that raises; it reports a
      failure exactly when the clear or some keystroke raises. */
  lemma TypingTrace(rec: Recorder, b: Browser, f: Field, text: string, l: seq<Effect>)
    ensures Calls(Typing(rec, b, f, text, l))
         == Calls(l) + [Clear(f)] + (if b.ok(Clear(f)) then Keystrokes(b, f, text) else [])
    ensures Msgs(Typing(rec, b, f, text, l)) == Msgs(l) + TypingReport(b, f, text)
    ensures l <= Typing(rec, b, f, text, l)
  {
    var cleared := l + [Do(Clear(f))];
    DoFacts(l, Clear(f));
    if !b.ok(Clear(f)) {
      NoteFacts(rec, cleared, TypingFailed(b.error(Clear(f))), None);
    } else {
      TypingAfterClear(rec, b, f, text, l);
      KeyRunAfterIs(f, text, Tried(KeyFailures(b, f, text)), Calls(l) + [Clear(f)]);
    }
  }

  // ---------------------------------------------------------------------
  // Diagnostic screenshots.

  /** The `error_` screenshots a log has attempted, in order. */
  function ErrorShotsOf(l: seq<Effect>): seq<string>
  {
    ErrorShots(Calls(l))
  }

  /** Calls with no screenshot among them add no error screenshot. */
  lemma ShotsAfterPlainCalls(l: seq<Effect>, l': seq<Effect>, cs: seq<Call>)
    requires Calls(l') == Calls(l) + cs
    requires forall i :: 0 <= i < |cs| ==> !cs[i].Save?
    ensures ErrorShotsOf(l') == ErrorShotsOf(l)
  {
    ErrorShotsAppend(Calls(l), cs);
    ErrorShotsNoSave(cs);
  }

  /** A screenshot adds its tag when the tag is of the failure kind. */
  lemma ShotsAfterShot(rec: Recorder, b: Browser, l: seq<Effect>, name: string)
    ensures ErrorShotsOf(Shot(rec, b, l, name)) == ErrorShotsOf(l) + (if IsErrorTag(name) then [name] else [])
  {
    ShotFacts(rec, b, l, name);
    ErrorShotsAppend(Calls(l), [Save(name)]);
    ErrorShotsOne(Save(name));
  }

  lemma ShotsAfterNote(rec: Recorder, l: seq<Effect>, m: Msg, image: Option<string>)
    ensures ErrorShotsOf(Note(rec, l, m, image)) == ErrorShotsOf(l)
  {
    NoteFacts(rec, l, m, image);
  }

  lemma ShotsAfterDo(l: seq<Effect>, c: Call)
    requires !c.Save?
    ensures ErrorShotsOf(l + [Do(c)]) == ErrorShotsOf(l)
  {
    DoFacts(l, c);
    ShotsAfterPlainCalls(l, l + [Do(c)], [c]);
  }

  lemma ShotsAfterScan(rec: Recorder, b: Browser, f: Field, sels: seq<string>, l: seq<Effect>)
    requires Scanned(f)
    ensures ErrorShotsOf(ScanFx(rec, b, f, sels, l)) == ErrorShotsOf(l)
  {
    var n := Tried(LocateOutcomes(b, f, |sels|));
    ScanTrace(rec, b, f, sels, n, l);
    ShotsAfterPlainCalls(l, ScanFx(rec, b, f, sels, l), LocateRun(f, n));
  }

  /** The calls of `human_type` on a resolved element. */
  function TypedCalls(b: Browser, f: Field, text: string): seq<Call>
  {
    [Clear(f)] + (if b.ok(Clear(f)) then Keystrokes(b, f, text) else [])
  }

  lemma TypedCallsNoSave(b: Browser, f: Field, text: string)
    ensures forall i :: 0 <= i < |TypedCalls(b, f, text)| ==> !TypedCalls(b, f, text)[i].Save?
  {
  }

  lemma ShotsAfterTyping(rec: Recorder, b: Browser, f: Field, text: string, l: seq<Effect>)
    ensures ErrorShotsOf(Typing(rec, b, f, text, l)) == ErrorShotsOf(l)
  {
    TypingTrace(rec, b, f, text, l);
    assert Calls(l) + [Clear(f)] + (if b.ok(Clear(f)) then Keystrokes(b, f, text) else [])
        == Calls(l) + TypedCalls(b, f, text);
    TypedCallsNoSave(b, f, text);
    ShotsAfterPlainCalls(l, Typing(rec, b, f, text, l), TypedCalls(b, f, text));
  }

  lemma ShotsAfterRetry(rec: Recorder, b: Browser, f: Field, l: seq<Effect>)
    ensures ErrorShotsOf(RetryFx(rec, b, f, l)) == ErrorShotsOf(l)
  {
    RetryTrace(rec, b, f, l);
    ShotsAfterPlainCalls(l, RetryFx(rec, b, f, l), ClickRun(f, Tried(RetryOutcomes(b, f))));
  }

  /** No call of `cs` is an error screenshot. */
  predicate NoErrorShot(cs: seq<Call>)
  {
    forall i :: 0 <= i < |cs| ==> !(cs[i].Save? && IsErrorTag(cs[i].name))
  }

  lemma {:induction false} NoErrorShotHasNone(cs: seq<Call>)
    requires NoErrorShot(cs)
    ensures ErrorShots(cs) == []
    decreases |cs|
  {
    if cs != [] {
      assert NoErrorShot(cs[1..]) by {
        forall i | 0 <= i < |cs[1..]| ensures !(cs[1..][i].Save? && IsErrorTag(cs[1..][i].name)) {
          assert cs[1..][i] == cs[i + 1];
        }
      }
      NoErrorShotHasNone(cs[1..]);
    }
  }

  lemma LocateRunNoErrorShot(f: Field, n: nat)
    ensures NoErrorShot(LocateRun(f, n))
  {
  }

  /** A trace with exactly one error screenshot, `tag`, after `cs`. */
  lemma ShotsOfTrace(cs: seq<Call>, run: seq<Call>, tag: string, rest: seq<Call>)
    requires NoErrorShot(run) && IsErrorTag(tag) && NoErrorShot(rest)
    ensures ErrorShots(cs + run + [Save(tag)] + rest) == ErrorShots(cs) + [tag]
  {
    ErrorShotsAppend(cs, run);
    NoErrorShotHasNone(run);
    ErrorShotsAppend(cs + run, [Save(tag)]);
    ErrorShotsOne(Save(tag));
    ErrorShotsAppend(cs + run + [Save(tag)], rest);
    NoErrorShotHasNone(rest);
  }

  /** The names of the step screenshots start with their number. */
  lemma NotErrorTag(name: string)
    requires |name| > 0 && name[0] != 'e'
    ensures !IsErrorTag(name)
  {
    if |name| >= 6 {
      assert name[..6][0] == name[0];
    }
  }

  // ---------------------------------------------------------------------
  // Compose inputs that cannot be found.

  /** When no candidate of a compose input resolves, the step reports the
      input missing, takes the one `errorTag` screenshot and ends the
      operation with False: all candidates were tried first, in order. */
  lemma MissingInputFails(rec: Recorder, b: Browser, f: Field, sels: seq<string>, text: string,
                          intro: Notice, shot: string, missing: Notice, errorTag: string, l: seq<Effect>)
    requires Scanned(f) && f != SendButton
    requires forall j :: 0 <= j < |sels| ==> !b.ok(Locate(f, j))
    ensures Fill(rec, b, f, sels, text, intro, shot, missing, errorTag, l).flow == Done(false)
    ensures Calls(Fill(rec, b, f, sels, text, intro, shot, missing, errorTag, l).log)
         == Calls(l) + LocateRun(f, |sels|) + [Save(errorTag)]
    ensures Msgs(Fill(rec, b, f, sels, text, intro, shot, missing, errorTag, l).log)
         == Msgs(l) + [Says(intro)] + [Says(missing)] + [ShotMsg(rec, b, errorTag)]
  {
    var s0 := Note(rec, l, Says(intro), None);
    NoteFacts(rec, l, Says(intro), None);
    SelectorExhausted(rec, b, f, sels, s0);
    ScanExhausted(rec, b, f, sels, s0);
    ScanMissesAreSilent(rec, b, f, sels, |sels|, s0);
    var s := ScanFx(rec, b, f, sels, s0);
    NoteFacts(rec, s, Says(missing), None);
    ShotFacts(rec, b, Note(rec, s, Says(missing), None), errorTag);
  }

  /** ... and that screenshot is the only error screenshot the step takes. */
  lemma MissingInputShotOnce(rec: Recorder, b: Browser, f: Field, sels: seq<string>, text: string,
                             intro: Notice, shot: string, missing: Notice, errorTag: string, l: seq<Effect>)
    requires Scanned(f) && f != SendButton && IsErrorTag(errorTag)
    requires forall j :: 0 <= j < |sels| ==> !b.ok(Locate(f, j))
    ensures ErrorShotsOf(Fill(rec, b, f, sels, text, intro, shot, missing, errorTag, l).log)
         == ErrorShotsOf(l) + [errorTag]
  {
    MissingInputFails(rec, b, f, sels, text, intro, shot, missing, errorTag, l);
    ErrorShotsAppend(Calls(l) + LocateRun(f, |sels|), [Save(errorTag)]);
    ErrorShotsAppend(Calls(l), LocateRun(f, |sels|));
    LocateRunHasNoShots(f, |sels|);
    ErrorShotsOne(Save(errorTag));
  }

  /** The recipient, subject and body steps when their input is missing. */
  lemma RecipientMissing(rec: Recorder, b: Browser, to: string, l: seq<Effect>)
    requires forall j :: 0 <= j < |ToSelectors| ==> !b.ok(Locate(To, j))
    ensures RecipientPhase(rec, b, to, l).flow == Done(false)
    ensures ErrorShotsOf(RecipientPhase(rec, b, to, l).log) == ErrorShotsOf(l) + ["error_to_field_not_found"]
    ensures Msgs(RecipientPhase(rec, b, to, l).log)
         == Msgs(l) + [Says(FillingRecipient)] + [Says(ToMissing)] + [ShotMsg(rec, b, "error_to_field_not_found")]
  {
    MissingInputFails(rec, b, To, ToSelectors, to, FillingRecipient,
                      "10_recipient_typed", ToMissing, "error_to_field_not_found", l);
    ToMissingTag();
    MissingInputShotOnce(rec, b, To, ToSelectors, to, FillingRecipient,
                         "10_recipient_typed", ToMissing, "error_to_field_not_found", l);
  }

  lemma SubjectMissingFails(rec: Recorder, b: Browser, subject: string, l: seq<Effect>)
    requires forall j :: 0 <= j < |SubjectSelectors| ==> !b.ok(Locate(Subject, j))
    ensures SubjectPhase(rec, b, subject, l).flow == Done(false)
    ensures ErrorShotsOf(SubjectPhase(rec, b, subject, l).log) == ErrorShotsOf(l) + ["error_subject_field_not_found"]
    ensures Msgs(SubjectPhase(rec, b, subject, l).log)
         == Msgs(l) + [Says(FillingSubject)] + [Says(SubjectMissing)] + [ShotMsg(rec, b, "error_subject_field_not_found")]
  {
    MissingInputFails(rec, b, Subject, SubjectSelectors, subject, FillingSubject,
                      "11_subject_filled", SubjectMissing, "error_subject_field_not_found", l);
    SubjectMissingTag();
    MissingInputShotOnce(rec, b, Subject, SubjectSelectors, subject, FillingSubject,
                         "11_subject_filled", SubjectMissing, "error_subject_field_not_found", l);
  }

  lemma BodyMissingFails(rec: Recorder, b: Browser, body: string, l: seq<Effect>)
    requires forall j :: 0 <= j < |BodySelectors| ==> !b.ok(Locate(Body, j))
    ensures BodyPhase(rec, b, body, l).flow == Done(false)
    ensures ErrorShotsOf(BodyPhase(rec, b, body, l).log) == ErrorShotsOf(l) + ["error_body_area_not_found"]
    ensures Msgs(BodyPhase(rec, b, body, l).log)
         == Msgs(l) + [Says(FillingBody)] + [Says(BodyMissing)] + [ShotMsg(rec, b, "error_body_area_not_found")]
  {
    MissingInputFails(rec, b, Body, BodySelectors, body, FillingBody,
                      "12_body_filled", BodyMissing, "error_body_area_not_found", l);
    BodyMissingTag();
    MissingInputShotOnce(rec, b, Body, BodySelectors, body, FillingBody,
                         "12_body_filled", BodyMissing, "error_body_area_not_found", l);
  }

  lemma ToMissingTag()
    ensures IsErrorTag("error_to_field_not_found")
  {
  }

  lemma SubjectMissingTag()
    ensures IsErrorTag("error_subject_field_not_found")
  {
  }

  lemma BodyMissingTag()
    ensures IsErrorTag("error_body_area_not_found")
  {
  }

  // ---------------------------------------------------------------------
  // The catch-all handlers.

  /** An exception raised by call c that reaches an operation's handler is
      reported with its text, one screenshot of the handler's tag is taken,
      and the operation returns False. */
  lemma HandlerDiagnoses(rec: Recorder, b: Browser, l: seq<Effect>, c: Call, op: Operation)
    ensures Settle(rec, b, Run(l, Raised(c)), op).flow == Done(false)
    ensures Calls(Settle(rec, b, Run(l, Raised(c)), op).log) == Calls(l) + [Save(FailTag(op))]
    ensures Msgs(Settle(rec, b, Run(l, Raised(c)), op).log)
         == Msgs(l) + [FailMsg(op, b.error(c))] + [ShotMsg(rec, b, FailTag(op))]
  {
    var noted := Note(rec, l, FailMsg(op, b.error(c)), None);
    NoteFacts(rec, l, FailMsg(op, b.error(c)), None);
    ShotFacts(rec, b, noted, FailTag(op));
  }

  /** ... and that screenshot is the handler's only error screenshot. */
  lemma HandlerShotOnce(rec: Recorder, b: Browser, l: seq<Effect>, c: Call, op: Operation)
    ensures ErrorShotsOf(Settle(rec, b, Run(l, Raised(c)), op).log) == ErrorShotsOf(l) + [FailTag(op)]
  {
    FailTagIsErrorTag(op);
    var noted := Note(rec, l, FailMsg(op, b.error(c)), None);
    ShotsAfterNote(rec, l, FailMsg(op, b.error(c)), None);
    ShotsAfterShot(rec, b, noted, FailTag(op));
  }

  lemma FailTagIsErrorTag(op: Operation)
    ensures IsErrorTag(FailTag(op))
  {
  }

  /** A handler leaves every other ending as it is. */
  lemma HandlerKeepsOtherEndings(rec: Recorder, b: Browser, r: Run, op: Operation)
    requires !r.flow.Raised?
    ensures Settle(rec, b, r, op) == r
  {
  }

  // ---------------------------------------------------------------------
  // The send dispatch chain.

  /** Some send mechanism of the chain returns. */
  predicate SomeMechanismWorks(b: Browser)
  {
    exists i :: 0 <= i < |SendChain| && b.ok(SendChain[i])
  }

  /** The chain starts with the three click attempts. */
  lemma ClickPrefix()
    ensures SendChain[..3] == ClickRun(SendButton, 3)
  {
  }

  lemma ScriptPrefix()
    ensures SendChain[..4] == ClickRun(SendButton, 3) + [ScriptClick]
  {
    ClickPrefix();
  }

  lemma ActionsPrefix()
    ensures SendChain[..5] == ClickRun(SendButton, 3) + [ScriptClick] + [ActionsClick]
  {
    ClickPrefix();
  }

  lemma WholeChain()
    ensures SendChain[..6] == ClickRun(SendButton, 3) + [ScriptClick] + [ActionsClick] + [CtrlEnter(LastResort)]
  {
    ClickPrefix();
  }

  /** All three clicks raise: the loop makes all three attempts. */
  lemma ClicksAllRaise(rec: Recorder, b: Browser, l: seq<Effect>)
    requires forall a :: 0 <= a < Attempts ==> !b.ok(Click(SendButton, a))
    ensures !RetryClicked(b, SendButton)
    ensures Calls(RetryFx(rec, b, SendButton, l)) == Calls(l) + ClickRun(SendButton, 3)
  {
    var ro := RetryOutcomes(b, SendButton);
    assert forall j :: 0 <= j < |ro| ==> !ro[j];
    NoSuccessTriesAll(ro);
    RetryTrace(rec, b, SendButton, l);
  }

  /** Click attempt k is the first that returns. */
  lemma DispatchByClick(rec: Recorder, b: Browser, l: seq<Effect>, k: nat)
    requires k < Attempts && b.ok(Click(SendButton, k))
    requires forall j :: 0 <= j < k ==> !b.ok(Click(SendButton, j))
    ensures Dispatch(rec, b, l).1
    ensures Tried(ChainOutcomes(b)) == k + 1
    ensures Calls(Dispatch(rec, b, l).0) == Calls(l) + SendChain[..k + 1]
  {
    var ro := RetryOutcomes(b, SendButton);
    assert forall j :: 0 <= j < k ==> !ro[j];
    FirstSuccessBoundsAttempts(ro, k);
    RetryTrace(rec, b, SendButton, l);
    var co := ChainOutcomes(b);
    assert forall j :: 0 <= j <= k ==> SendChain[j] == Click(SendButton, j);
    assert SendChain[..k + 1] == ClickRun(SendButton, k + 1);
    assert forall j :: 0 <= j < k ==> !co[j];
    FirstSuccessBoundsAttempts(co, k);
  }

  /** The JavaScript click returns. */
  lemma ScriptWorks(rec: Recorder, b: Browser, t: seq<Effect>)
    requires b.ok(ScriptClick)
    ensures ScriptFx(rec, b, t).1
    ensures Calls(ScriptFx(rec, b, t).0) == Calls(t) + [ScriptClick]
  {
    var clicked := Note(rec, t, Says(TryingScript), None) + [Do(ScriptClick)];
    CallsNote(rec, t, Says(TryingScript), None);
    CallsDo(Note(rec, t, Says(TryingScript), None), ScriptClick);
    CallsNote(rec, clicked, Says(ScriptClicked), None);
  }

  /** The JavaScript click raises: the later mechanisms are tried after it. */
  lemma ScriptRaises(rec: Recorder, b: Browser, t: seq<Effect>)
    requires !b.ok(ScriptClick)
    ensures ScriptFx(rec, b, t) == ActionsFx(rec, b, Note(rec, Note(rec, t, Says(TryingScript), None) + [Do(ScriptClick)], ScriptFailed(b.error(ScriptClick)), None))
    ensures Calls(Note(rec, Note(rec, t, Says(TryingScript), None) + [Do(ScriptClick)], ScriptFailed(b.error(ScriptClick)), None)) == Calls(t) + [ScriptClick]
  {
    var clicked := Note(rec, t, Says(TryingScript), None) + [Do(ScriptClick)];
    CallsNote(rec, t, Says(TryingScript), None);
    CallsDo(Note(rec, t, Says(TryingScript), None), ScriptClick);
    CallsNote(rec, clicked, ScriptFailed(b.error(ScriptClick)), None);
  }

  /** The ActionChains click returns. */
  lemma ActionsWorks(rec: Recorder, b: Browser, t: seq<Effect>)
    requires b.ok(ActionsClick)
    ensures ActionsFx(rec, b, t).1
    ensures Calls(ActionsFx(rec, b, t).0) == Calls(t) + [ActionsClick]
  {
    var clicked := Note(rec, t, Says(TryingActions), None) + [Do(ActionsClick)];
    CallsNote(rec, t, Says(TryingActions), None);
    CallsDo(Note(rec, t, Says(TryingActions), None), ActionsClick);
    CallsNote(rec, clicked, Says(ActionsClicked), None);
  }

  /** The ActionChains click raises: Ctrl+Enter decides. */
  lemma ActionsRaises(rec: Recorder, b: Browser, t: seq<Effect>)
    requires !b.ok(ActionsClick)
    ensures ActionsFx(rec, b, t).1 == b.ok(CtrlEnter(LastResort))
    ensures Calls(ActionsFx(rec, b, t).0) == Calls(t) + [ActionsClick] + [CtrlEnter(LastResort)]
  {
    var clicked := Note(rec, t, Says(TryingActions), None) + [Do(ActionsClick)];
    CallsNote(rec, t, Says(TryingActions), None);
    CallsDo(Note(rec, t, Says(TryingActions), None), ActionsClick);
    var t2 := Note(rec, clicked, ActionsFailed(b.error(ActionsClick)), None);
    CallsNote(rec, clicked, ActionsFailed(b.error(ActionsClick)), None);
    var c := CtrlEnter(LastResort);
    var pressed := Note(rec, t2, Says(AllClicksFailed), None) + [Do(c)];
    CallsNote(rec, t2, Says(AllClicksFailed), None);
    CallsDo(Note(rec, t2, Says(AllClicksFailed), None), c);
    CallsNote(rec, pressed, Says(SentViaFallback), None);
    CallsNote(rec, pressed, FinalShortcutFailed(b.error(c)), None);
  }

  /** When only the JavaScript click returns of the first four, four
      mechanisms are tried and the send goes out. */
  lemma ScriptDecides(b: Browser)
    requires forall a :: 0 <= a < Attempts ==> !b.ok(Click(SendButton, a))
    requires b.ok(ScriptClick)
    ensures Tried(ChainOutcomes(b)) == 4
    ensures SomeMechanismWorks(b)
  {
    var co := ChainOutcomes(b);
    assert forall j :: 0 <= j < 3 ==> !co[j];
    FirstSuccessBoundsAttempts(co, 3);
    assert b.ok(SendChain[3]);
  }

  /** The three clicks raised and the JavaScript click returns. */
  lemma DispatchByScript(rec: Recorder, b: Browser, l: seq<Effect>)
    requires forall a :: 0 <= a < Attempts ==> !b.ok(Click(SendButton, a))
    requires b.ok(ScriptClick)
    ensures Calls(Dispatch(rec, b, l).0) == Calls(l) + SendChain[..Tried(ChainOutcomes(b))]
    ensures Dispatch(rec, b, l).1 == SomeMechanismWorks(b)
  {
    ClicksAllRaise(rec, b, l);
    ScriptPrefix();
    ScriptWorks(rec, b, RetryFx(rec, b, SendButton, l));
    ScriptDecides(b);
  }

  lemma ActionsDecides(b: Browser)
    requires forall a :: 0 <= a < Attempts ==> !b.ok(Click(SendButton, a))
    requires !b.ok(ScriptClick) && b.ok(ActionsClick)
    ensures Tried(ChainOutcomes(b)) == 5
    ensures SomeMechanismWorks(b)
  {
    var co := ChainOutcomes(b);
    assert forall j :: 0 <= j < 4 ==> !co[j];
    FirstSuccessBoundsAttempts(co, 4);
    assert b.ok(SendChain[4]);
  }

  /** The three clicks and the JavaScript click raised; the ActionChains click returns. */
  lemma DispatchByActions(rec: Recorder, b: Browser, l: seq<Effect>)
    requires forall a :: 0 <= a < Attempts ==> !b.ok(Click(SendButton, a))
    requires !b.ok(ScriptClick) && b.ok(ActionsClick)
    ensures Calls(Dispatch(rec, b, l).0) == Calls(l) + SendChain[..Tried(ChainOutcomes(b))]
    ensures Dispatch(rec, b, l).1 == SomeMechanismWorks(b)
  {
    ClicksAllRaise(rec, b, l);
    ActionsPrefix();
    ActionsDecides(b);
    var t := RetryFx(rec, b, SendButton, l);
    ScriptRaises(rec, b, t);
    ActionsWorks(rec, b, Note(rec, Note(rec, t, Says(TryingScript), None) + [Do(ScriptClick)], ScriptFailed(b.error(ScriptClick)), None));
  }

  /** When the first five mechanisms raise, the whole chain is tried and
      the send goes out exactly when Ctrl+Enter returns. */
  lemma ShortcutDecides(b: Browser)
    requires forall a :: 0 <= a < Attempts ==> !b.ok(Click(SendButton, a))
    requires !b.ok(ScriptClick) && !b.ok(ActionsClick)
    ensures Tried(ChainOutcomes(b)) == |SendChain|
    ensures SomeMechanismWorks(b) == b.ok(CtrlEnter(LastResort))
  {
    var co := ChainOutcomes(b);
    assert forall j :: 0 <= j < 5 ==> !co[j];
    if b.ok(CtrlEnter(LastResort)) {
      FirstSuccessBoundsAttempts(co, 5);
      assert b.ok(SendChain[5]);
    } else {
      NoSuccessTriesAll(co);
    }
  }

  /** Every click mechanism raised: Ctrl+Enter is the last mechanism tried. */
  lemma DispatchByShortcut(rec: Recorder, b: Browser, l: seq<Effect>)
    requires forall a :: 0 <= a < Attempts ==> !b.ok(Click(SendButton, a))
    requires !b.ok(ScriptClick) && !b.ok(ActionsClick)
    ensures Calls(Dispatch(rec, b, l).0) == Calls(l) + SendChain[..Tried(ChainOutcomes(b))]
    ensures Dispatch(rec, b, l).1 == SomeMechanismWorks(b)
  {
    ClicksAllRaise(rec, b, l);
    WholeChain();
    ShortcutDecides(b);
    var t := RetryFx(rec, b, SendButton, l);
    ScriptRaises(rec, b, t);
    ActionsRaises(rec, b, Note(rec, Note(rec, t, Says(TryingScript), None) + [Do(ScriptClick)], ScriptFailed(b.error(ScriptClick)), None));
  }

  /** The dispatch tries the mechanisms of the chain in order, stops at the
      first that returns, and reports the send sent exactly when one did. */
  lemma DispatchFollowsChain(rec: Recorder, b: Browser, l: seq<Effect>)
    ensures Calls(Dispatch(rec, b, l).0) == Calls(l) + SendChain[..Tried(ChainOutcomes(b))]
    ensures Dispatch(rec, b, l).1 == SomeMechanismWorks(b)
  {
    var ro := RetryOutcomes(b, SendButton);
    FirstTrueIsFirst(ro);
    match FirstTrue(ro)
    case Some(k) =>
      assert forall j :: 0 <= j < k ==> !b.ok(Click(SendButton, j)) by {
        forall j | 0 <= j < k ensures !b.ok(Click(SendButton, j)) {
          assert !ro[j];
        }
      }
      DispatchByClick(rec, b, l, k);
      assert SendChain[k] == Click(SendButton, k);
    case None =>
      assert forall a :: 0 <= a < Attempts ==> !b.ok(Click(SendButton, a)) by {
        forall a | 0 <= a < Attempts ensures !b.ok(Click(SendButton, a)) {
          assert !ro[a];
        }
      }
      if b.ok(ScriptClick) {
        DispatchByScript(rec, b, l);
      } else if b.ok(ActionsClick) {
        DispatchByActions(rec, b, l);
      } else {
        DispatchByShortcut(rec, b, l);
      }
  }

  // ---------------------------------------------------------------------
  // The send step.

  /** The last status message of a log, if there is one. */
  function LastMsg(l: seq<Effect>): Option<Msg>
  {
    if |Msgs(l)| == 0 then None else Some(Msgs(l)[|Msgs(l)| - 1])
  }

  lemma LastMsgOfNote(rec: Recorder, l: seq<Effect>, m: Msg, image: Option<string>)
    ensures LastMsg(Note(rec, l, m, image)) == Some(m)
  {
    NoteFacts(rec, l, m, image);
  }

  /** No send button resolves: the step reports it, takes the
      `error_send_button_not_found` screenshot, and the outcome is that of
      the Ctrl+Enter shortcut it tries instead. */
  lemma SendWithoutButton(rec: Recorder, b: Browser, l: seq<Effect>)
    requires forall j :: 0 <= j < |SendSelectors| ==> !b.ok(Locate(SendButton, j))
    ensures SendPhase(rec, b, l).flow == Done(b.ok(CtrlEnter(NoSendButton)))
    ensures Calls(SendPhase(rec, b, l).log)
         == Calls(l) + LocateRun(SendButton, |SendSelectors|) + [Save("error_send_button_not_found")]
            + [CtrlEnter(NoSendButton)]
            + (if b.ok(CtrlEnter(NoSendButton)) then [Save("13_email_sent_via_keyboard")] else [])
    ensures LastMsg(SendPhase(rec, b, l).log)
         == Some(if b.ok(CtrlEnter(NoSendButton)) then Says(SentViaShortcut)
                 else ShortcutFailed(b.error(CtrlEnter(NoSendButton))))
  {
    var c := CtrlEnter(NoSendButton);
    var n0 := Note(rec, l, Says(LookingForSend), None);
    NoteFacts(rec, l, Says(LookingForSend), None);
    SelectorExhausted(rec, b, SendButton, SendSelectors, n0);
    var s0 := ScanFx(rec, b, SendButton, SendSelectors, n0);
    var n1 := Note(rec, s0, Says(SendMissing), None);
    NoteFacts(rec, s0, Says(SendMissing), None);
    var s1 := Shot(rec, b, n1, "error_send_button_not_found");
    ShotFacts(rec, b, n1, "error_send_button_not_found");
    var n2 := Note(rec, s1, Says(TryingShortcut), None);
    NoteFacts(rec, s1, Says(TryingShortcut), None);
    DoFacts(n2, c);
    if b.ok(c) {
      ShotFacts(rec, b, n2 + [Do(c)], "13_email_sent_via_keyboard");
      var shot := Shot(rec, b, n2 + [Do(c)], "13_email_sent_via_keyboard");
      NoteFacts(rec, shot, Says(SentViaShortcut), None);
      LastMsgOfNote(rec, shot, Says(SentViaShortcut), None);
    } else {
      NoteFacts(rec, n2 + [Do(c)], ShortcutFailed(b.error(c)), None);
      LastMsgOfNote(rec, n2 + [Do(c)], ShortcutFailed(b.error(c)), None);
    }
  }

  /** ... and `error_send_button_not_found` is then its only error screenshot. */
  lemma SendWithoutButtonShot(rec: Recorder, b: Browser, l: seq<Effect>)
    requires forall j :: 0 <= j < |SendSelectors| ==> !b.ok(Locate(SendButton, j))
    ensures ErrorShotsOf(SendPhase(rec, b, l).log) == ErrorShotsOf(l) + ["error_send_button_not_found"]
  {
    SendWithoutButton(rec, b, l);
    var sent := b.ok(CtrlEnter(NoSendButton));
    var run := LocateRun(SendButton, |SendSelectors|);
    var rest := ShortcutTail(sent);
    assert Calls(l) + run + [Save("error_send_button_not_found")] + [CtrlEnter(NoSendButton)]
           + (if sent then [Save("13_email_sent_via_keyboard")] else [])
        == Calls(l) + run + [Save("error_send_button_not_found")] + rest;
    LocateRunNoErrorShot(SendButton, |SendSelectors|);
    ShortcutTailClean(sent);
    SendMissingTag();
    ShotsOfTrace(Calls(l), run, "error_send_button_not_found", rest);
  }

  /** The calls after the missing-button screenshot. */
  function ShortcutTail(sent: bool): seq<Call>
  {
    [CtrlEnter(NoSendButton)] + (if sent then [Save("13_email_sent_via_keyboard")] else [])
  }

  lemma ShortcutTailClean(sent: bool)
    ensures NoErrorShot(ShortcutTail(sent))
  {
    NotErrorTag("13_email_sent_via_keyboard");
  }

  lemma SendMissingTag()
    ensures IsErrorTag("error_send_button_not_found")
  {
  }

  /** When does the send step report the e-mail sent: without a button,
      exactly when Ctrl+Enter returns; with one, exactly when some dispatch
      mechanism returns and waiting for the confirmation raises nothing,
      whether or not the confirmation shows. An exception escapes the step
      only from that wait. */
  lemma SendOutcome(rec: Recorder, b: Browser, l: seq<Effect>)
    ensures SendPhase(rec, b, l).flow == Done(true) <==>
      (if ScanHit(b, SendButton, SendSelectors).None? then b.ok(CtrlEnter(NoSendButton))
       else SomeMechanismWorks(b) && Awaited(b, SentToast) != Broke)
    ensures SendPhase(rec, b, l).flow.Raised? <==>
      (ScanHit(b, SendButton, SendSelectors).Some? && SomeMechanismWorks(b) && Awaited(b, SentToast) == Broke)
  {
    var s0 := ScanFx(rec, b, SendButton, SendSelectors, Note(rec, l, Says(LookingForSend), None));
    DispatchFollowsChain(rec, b, Note(rec, s0, Says(AttemptingSend), None));
  }

  /** A confirmation toast that never shows does not make the send fail:
      the step reports the e-mail as likely sent and returns True. */
  lemma SendIsOptimistic(rec: Recorder, b: Browser, l: seq<Effect>)
    requires ScanHit(b, SendButton, SendSelectors).Some? && SomeMechanismWorks(b)
    requires Awaited(b, SentToast) == TimedOut
    ensures SendPhase(rec, b, l).flow == Done(true)
    ensures LastMsg(SendPhase(rec, b, l).log) == Some(Says(EmailLikelySent))
  {
    var s0 := ScanFx(rec, b, SendButton, SendSelectors, Note(rec, l, Says(LookingForSend), None));
    var d := Dispatch(rec, b, Note(rec, s0, Says(AttemptingSend), None));
    DispatchFollowsChain(rec, b, Note(rec, s0, Says(AttemptingSend), None));
    var s2 := d.0 + [Do(Await(SentToast))];
    LastMsgOfNote(rec, Shot(rec, b, s2, "13_email_sent_no_confirmation"), Says(EmailLikelySent), None);
  }

  /** The happy path: the first resolving candidate k is the button used,
      the dispatch mechanisms are tried in order up to the first that
      returns, the confirmation is awaited and the success screenshot taken. */
  lemma SendConfirmed(rec: Recorder, b: Browser, l: seq<Effect>, k: nat)
    requires k < |SendSelectors| && b.ok(Locate(SendButton, k))
    requires forall j :: 0 <= j < k ==> !b.ok(Locate(SendButton, j))
    requires SomeMechanismWorks(b) && Awaited(b, SentToast) == Seen
    ensures SendPhase(rec, b, l).flow == Done(true)
    ensures Calls(SendPhase(rec, b, l).log)
         == Calls(l) + LocateRun(SendButton, k + 1) + SendChain[..Tried(ChainOutcomes(b))]
            + [Await(SentToast)] + [Save("13_email_sent_success")]
    ensures LastMsg(SendPhase(rec, b, l).log) == Some(Says(EmailSent))
  {
    var n0 := Note(rec, l, Says(LookingForSend), None);
    NoteFacts(rec, l, Says(LookingForSend), None);
    SelectorStopsAtFirst(rec, b, SendButton, SendSelectors, k, n0);
    var s0 := ScanFx(rec, b, SendButton, SendSelectors, n0);
    var n1 := Note(rec, s0, Says(AttemptingSend), None);
    NoteFacts(rec, s0, Says(AttemptingSend), None);
    DispatchFollowsChain(rec, b, n1);
    var d := Dispatch(rec, b, n1);
    DoFacts(d.0, Await(SentToast));
    var s2 := d.0 + [Do(Await(SentToast))];
    ShotFacts(rec, b, s2, "13_email_sent_success");
    NoteFacts(rec, Shot(rec, b, s2, "13_email_sent_success"), Says(EmailSent), None);
    LastMsgOfNote(rec, Shot(rec, b, s2, "13_email_sent_success"), Says(EmailSent), None);
  }

  // ---------------------------------------------------------------------
  // The recipient-acceptance sub-protocol.

  /** How often call c occurs in cs. */
  function Count(cs: seq<Call>, c: Call): nat
  {
    multiset(cs)[c]
  }

  /** A locate-and-click loop presses no key and makes no other call. */
  lemma LookupsAddNothingElse(b: Browser, f: Field, n: nat, cs: seq<Call>, c: Call)
    requires !(c.Locate? || c.Click?)
    ensures Count(ClickCallsAfter(b, f, n, cs), c) == Count(cs, c)
  {
    ClickCallsAreLookups(b, f, n, cs);
    var all := ClickCallsAfter(b, f, n, cs);
    var added := all[|cs|..];
    assert all == cs + added;
    assert forall j :: 0 <= j < |added| ==> added[j] == all[|cs| + j];
    assert c !in added;
    assert multiset(all) == multiset(cs) + multiset(added);
  }

  lemma ClickScanTrace(rec: Recorder, b: Browser, f: Field, sels: seq<string>, l: seq<Effect>)
    requires ClickScanned(f)
    ensures Calls(ClickScanFx(rec, b, f, sels, l)) == ClickCallsAfter(b, f, Tried(ClickOutcomes(b, f, |sels|)), Calls(l))
    ensures l <= ClickScanFx(rec, b, f, sels, l)
  {
    ClickTrace(rec, b, f, sels, Tried(ClickOutcomes(b, f, |sels|)), l);
  }

  /** The log after the suggestion candidates were tried. */
  function SuggestionScan(rec: Recorder, b: Browser, to: string, l: seq<Effect>): seq<Effect>
  {
    ClickScanFx(rec, b, Suggestion, SuggestionSelectors(to), Note(rec, l, Says(HandlingSuggestion), None))
  }

  /** ... then Enter pressed because no suggestion was clicked. */
  function AfterEnter(rec: Recorder, b: Browser, to: string, l: seq<Effect>): seq<Effect>
  {
    Note(rec, SuggestionScan(rec, b, to, l), Says(NoSuggestion), None) + [Do(Press(CommitEnter))]
  }

  /** ... then Tab pressed because Enter did not get the address accepted. */
  function AfterTab(rec: Recorder, b: Browser, to: string, l: seq<Effect>): seq<Effect>
  {
    Note(rec, AfterEnter(rec, b, to, l), Says(TryingTab), None) + [Do(Press(AdvanceTab))]
  }

  /** The calls the sub-protocol makes after the suggestion candidates. */
  function AcceptanceTail(rec: Recorder, b: Browser, to: string, l: seq<Effect>): seq<Call>
  {
    if ClickHit(b, Suggestion, SuggestionSelectors(to)) then
      (if AcceptedAt(b, |SuggestionScan(rec, b, to, l)|) then [] else [Refocus])
    else if !b.ok(Press(CommitEnter)) then [Press(CommitEnter), Press(FallbackEnter)]
    else if AcceptedAt(b, |AfterEnter(rec, b, to, l)|) then [Press(CommitEnter)]
    else if !b.ok(Press(AdvanceTab)) then [Press(CommitEnter), Press(AdvanceTab), Press(FallbackEnter)]
    else [Press(CommitEnter), Press(AdvanceTab)] + (if AcceptedAt(b, |AfterTab(rec, b, to, l)|) then [] else [Refocus])
  }

  lemma LastTryFacts(rec: Recorder, b: Browser, t: seq<Effect>)
    ensures Calls(LastTry(rec, b, t)) == Calls(t) + (if AcceptedAt(b, |t|) then [] else [Refocus])
    ensures t <= LastTry(rec, b, t)
    ensures !AcceptedAt(b, |t|) ==>
      |LastTry(rec, b, t)| == |t| + 2 && LastTry(rec, b, t)[|t| + 1] == Do(Refocus)
  {
    if !AcceptedAt(b, |t|) {
      NoteFacts(rec, t, Says(StillNotAccepted), None);
      DoFacts(Note(rec, t, Says(StillNotAccepted), None), Refocus);
    }
  }

  lemma RecoveryFacts(rec: Recorder, b: Browser, c: Call, t: seq<Effect>)
    ensures Calls(Recovery(rec, b, c, t)) == Calls(t) + [Press(FallbackEnter)]
    ensures t <= Recovery(rec, b, c, t)
  {
    NoteFacts(rec, t, SuggestionError(b.error(c)), None);
    DoFacts(Note(rec, t, SuggestionError(b.error(c)), None), Press(FallbackEnter));
  }

  lemma ScanOfSuggestions(rec: Recorder, b: Browser, to: string, l: seq<Effect>)
    ensures Calls(SuggestionScan(rec, b, to, l))
         == ClickCallsAfter(b, Suggestion, Tried(ClickOutcomes(b, Suggestion, |SuggestionSelectors(to)|)), Calls(l))
    ensures l <= SuggestionScan(rec, b, to, l)
  {
    var n0 := Note(rec, l, Says(HandlingSuggestion), None);
    NoteFacts(rec, l, Says(HandlingSuggestion), None);
    ClickScanTrace(rec, b, Suggestion, SuggestionSelectors(to), n0);
  }

  lemma EnterFacts(rec: Recorder, b: Browser, to: string, l: seq<Effect>)
    ensures Calls(AfterEnter(rec, b, to, l)) == Calls(SuggestionScan(rec, b, to, l)) + [Press(CommitEnter)]
    ensures SuggestionScan(rec, b, to, l) <= AfterEnter(rec, b, to, l)
    ensures AfterEnter(rec, b, to, l)[|AfterEnter(rec, b, to, l)| - 1] == Do(Press(CommitEnter))
  {
    var t := SuggestionScan(rec, b, to, l);
    NoteFacts(rec, t, Says(NoSuggestion), None);
    DoFacts(Note(rec, t, Says(NoSuggestion), None), Press(CommitEnter));
  }

  lemma TabFacts(rec: Recorder, b: Browser, to: string, l: seq<Effect>)
    ensures Calls(AfterTab(rec, b, to, l)) == Calls(AfterEnter(rec, b, to, l)) + [Press(AdvanceTab)]
    ensures AfterEnter(rec, b, to, l) <= AfterTab(rec, b, to, l)
  {
    var t := AfterEnter(rec, b, to, l);
    NoteFacts(rec, t, Says(TryingTab), None);
    DoFacts(Note(rec, t, Says(TryingTab), None), Press(AdvanceTab));
  }

  /** The five ways through the sub-protocol. */
  lemma AcceptedBySuggestion(rec: Recorder, b: Browser, to: string, l: seq<Effect>)
    requires ClickHit(b, Suggestion, SuggestionSelectors(to))
    ensures Acceptance(rec, b, to, l) == LastTry(rec, b, SuggestionScan(rec, b, to, l))
  {
  }

  lemma EnterRaised(rec: Recorder, b: Browser, to: string, l: seq<Effect>)
    requires !ClickHit(b, Suggestion, SuggestionSelectors(to)) && !b.ok(Press(CommitEnter))
    ensures Acceptance(rec, b, to, l) == Recovery(rec, b, Press(CommitEnter), AfterEnter(rec, b, to, l))
  {
  }

  lemma AcceptedByEnter(rec: Recorder, b: Browser, to: string, l: seq<Effect>)
    requires !ClickHit(b, Suggestion, SuggestionSelectors(to)) && b.ok(Press(CommitEnter))
    requires AcceptedAt(b, |AfterEnter(rec, b, to, l)|)
    ensures Acceptance(rec, b, to, l) == AfterEnter(rec, b, to, l)
  {
  }

  lemma TabRaised(rec: Recorder, b: Browser, to: string, l: seq<Effect>)
    requires !ClickHit(b, Suggestion, SuggestionSelectors(to)) && b.ok(Press(CommitEnter))
    requires !AcceptedAt(b, |AfterEnter(rec, b, to, l)|) && !b.ok(Press(AdvanceTab))
    ensures Acceptance(rec, b, to, l) == Recovery(rec, b, Press(AdvanceTab), AfterTab(rec, b, to, l))
  {
  }

  lemma AfterTabTried(rec: Recorder, b: Browser, to: string, l: seq<Effect>)
    requires !ClickHit(b, Suggestion, SuggestionSelectors(to)) && b.ok(Press(CommitEnter))
    requires !AcceptedAt(b, |AfterEnter(rec, b, to, l)|) && b.ok(Press(AdvanceTab))
    ensures Acceptance(rec, b, to, l) == LastTry(rec, b, AfterTab(rec, b, to, l))
  {
  }

  /** The sub-protocol after the suggestion scan, case by case. */
  lemma TraceBySuggestion(rec: Recorder, b: Browser, to: string, l: seq<Effect>)
    requires ClickHit(b, Suggestion, SuggestionSelectors(to))
    ensures Calls(Acceptance(rec, b, to, l)) == Calls(SuggestionScan(rec, b, to, l)) + AcceptanceTail(rec, b, to, l)
    ensures SuggestionScan(rec, b, to, l) <= Acceptance(rec, b, to, l)
  {
    AcceptedBySuggestion(rec, b, to, l);
    LastTryFacts(rec, b, SuggestionScan(rec, b, to, l));
  }

  lemma TraceByEnter(rec: Recorder, b: Browser, to: string, l: seq<Effect>)
    requires !ClickHit(b, Suggestion, SuggestionSelectors(to))
    requires !b.ok(Press(CommitEnter)) || AcceptedAt(b, |AfterEnter(rec, b, to, l)|)
    ensures Calls(Acceptance(rec, b, to, l)) == Calls(SuggestionScan(rec, b, to, l)) + AcceptanceTail(rec, b, to, l)
    ensures SuggestionScan(rec, b, to, l) <= Acceptance(rec, b, to, l)
  {
    EnterFacts(rec, b, to, l);
    if !b.ok(Press(CommitEnter)) {
      EnterRaised(rec, b, to, l);
      RecoveryFacts(rec, b, Press(CommitEnter), AfterEnter(rec, b, to, l));
      PrefixTransitive(SuggestionScan(rec, b, to, l), AfterEnter(rec, b, to, l), Acceptance(rec, b, to, l));
    } else {
      AcceptedByEnter(rec, b, to, l);
    }
  }

  lemma TraceByTab(rec: Recorder, b: Browser, to: string, l: seq<Effect>)
    requires !ClickHit(b, Suggestion, SuggestionSelectors(to)) && b.ok(Press(CommitEnter))
    requires !AcceptedAt(b, |AfterEnter(rec, b, to, l)|)
    ensures Calls(Acceptance(rec, b, to, l)) == Calls(SuggestionScan(rec, b, to, l)) + AcceptanceTail(rec, b, to, l)
    ensures SuggestionScan(rec, b, to, l) <= Acceptance(rec, b, to, l)
  {
    EnterFacts(rec, b, to, l);
    TabFacts(rec, b, to, l);
    PrefixTransitive(SuggestionScan(rec, b, to, l), AfterEnter(rec, b, to, l), AfterTab(rec, b, to, l));
    if !b.ok(Press(AdvanceTab)) {
      TabRaised(rec, b, to, l);
      RecoveryFacts(rec, b, Press(AdvanceTab), AfterTab(rec, b, to, l));
    } else {
      AfterTabTried(rec, b, to, l);
      LastTryFacts(rec, b, AfterTab(rec, b, to, l));
    }
    PrefixTransitive(SuggestionScan(rec, b, to, l), AfterTab(rec, b, to, l), Acceptance(rec, b, to, l));
  }

  lemma AcceptanceTrace(rec: Recorder, b: Browser, to: string, l: seq<Effect>)
    ensures Calls(Acceptance(rec, b, to, l)) == Calls(SuggestionScan(rec, b, to, l)) + AcceptanceTail(rec, b, to, l)
    ensures SuggestionScan(rec, b, to, l) <= Acceptance(rec, b, to, l)
  {
    if ClickHit(b, Suggestion, SuggestionSelectors(to)) {
      TraceBySuggestion(rec, b, to, l);
    } else if !b.ok(Press(CommitEnter)) || AcceptedAt(b, |AfterEnter(rec, b, to, l)|) {
      TraceByEnter(rec, b, to, l);
    } else {
      TraceByTab(rec, b, to, l);
    }
  }

  /** How often the tail of the sub-protocol presses each key. */
  lemma TailCounts(rec: Recorder, b: Browser, to: string, l: seq<Effect>)
    ensures Count(AcceptanceTail(rec, b, to, l), Press(CommitEnter))
         == if ClickHit(b, Suggestion, SuggestionSelectors(to)) then 0 else 1
    ensures Count(AcceptanceTail(rec, b, to, l), Press(AdvanceTab))
         == if !ClickHit(b, Suggestion, SuggestionSelectors(to)) && b.ok(Press(CommitEnter))
               && !AcceptedAt(b, |AfterEnter(rec, b, to, l)|) then 1 else 0
    ensures Count(AcceptanceTail(rec, b, to, l), Refocus) <= 1
    ensures Count(AcceptanceTail(rec, b, to, l), Refocus) > 0 ==>
      (ClickHit(b, Suggestion, SuggestionSelectors(to)) && !AcceptedAt(b, |SuggestionScan(rec, b, to, l)|))
      || (!ClickHit(b, Suggestion, SuggestionSelectors(to)) && b.ok(Press(CommitEnter))
          && !AcceptedAt(b, |AfterEnter(rec, b, to, l)|) && b.ok(Press(AdvanceTab))
          && !AcceptedAt(b, |AfterTab(rec, b, to, l)|))
  {
  }

  /** The calls of the sub-protocol, counted: the suggestion scan adds no
      key press and no refocus. */
  lemma AcceptanceCounts(rec: Recorder, b: Browser, to: string, l: seq<Effect>, c: Call)
    requires !(c.Locate? || c.Click?)
    ensures Count(Calls(Acceptance(rec, b, to, l)), c) == Count(Calls(l), c) + Count(AcceptanceTail(rec, b, to, l), c)
  {
    AcceptanceTrace(rec, b, to, l);
    ScanOfSuggestions(rec, b, to, l);
    LookupsAddNothingElse(b, Suggestion, Tried(ClickOutcomes(b, Suggestion, |SuggestionSelectors(to)|)), Calls(l), c);
    var scanned := Calls(SuggestionScan(rec, b, to, l));
    assert multiset(scanned + AcceptanceTail(rec, b, to, l)) == multiset(scanned) + multiset(AcceptanceTail(rec, b, to, l));
  }

  /** Enter is pressed, once, exactly when no suggestion was clicked. */
  lemma EnterOnlyWithoutSuggestion(rec: Recorder, b: Browser, to: string, l: seq<Effect>)
    ensures Count(Calls(Acceptance(rec, b, to, l)), Press(CommitEnter))
         == Count(Calls(l), Press(CommitEnter)) + (if ClickHit(b, Suggestion, SuggestionSelectors(to)) then 0 else 1)
  {
    AcceptanceCounts(rec, b, to, l, Press(CommitEnter));
    TailCounts(rec, b, to, l);
  }

  /** Tab is pressed at most once, and only right after an Enter that
      returned but left the address without an accepted chip. */
  lemma TabOnlyAfterRejectedEnter(rec: Recorder, b: Browser, to: string, l: seq<Effect>)
    ensures Count(Calls(Acceptance(rec, b, to, l)), Press(AdvanceTab)) <= Count(Calls(l), Press(AdvanceTab)) + 1
    ensures Count(Calls(Acceptance(rec, b, to, l)), Press(AdvanceTab)) > Count(Calls(l), Press(AdvanceTab)) ==>
      !ClickHit(b, Suggestion, SuggestionSelectors(to)) && b.ok(Press(CommitEnter)) &&
      exists n :: |l| < n <= |Acceptance(rec, b, to, l)| &&
        Acceptance(rec, b, to, l)[n - 1] == Do(Press(CommitEnter)) && !AcceptedAt(b, n)
  {
    AcceptanceCounts(rec, b, to, l, Press(AdvanceTab));
    TailCounts(rec, b, to, l);
    if Count(Calls(Acceptance(rec, b, to, l)), Press(AdvanceTab)) > Count(Calls(l), Press(AdvanceTab)) {
      var a := Acceptance(rec, b, to, l);
      var e := AfterEnter(rec, b, to, l);
      ScanOfSuggestions(rec, b, to, l);
      EnterFacts(rec, b, to, l);
      TraceByTab(rec, b, to, l);
      TabFacts(rec, b, to, l);
      assert e <= a by {
        if !b.ok(Press(AdvanceTab)) {
          TabRaised(rec, b, to, l);
          RecoveryFacts(rec, b, Press(AdvanceTab), AfterTab(rec, b, to, l));
        } else {
          AfterTabTried(rec, b, to, l);
          LastTryFacts(rec, b, AfterTab(rec, b, to, l));
        }
        PrefixTransitive(e, AfterTab(rec, b, to, l), a);
      }
      assert a[|e| - 1] == e[|e| - 1];
      assert |l| < |e|;
    }
  }

  /** The click outside and back happens at most once, as the last step,
      and only when the chip check just before it found no chip. */
  lemma RefocusOnlyWhenRejected(rec: Recorder, b: Browser, to: string, l: seq<Effect>)
    ensures Count(Calls(Acceptance(rec, b, to, l)), Refocus) <= Count(Calls(l), Refocus) + 1
    ensures Count(Calls(Acceptance(rec, b, to, l)), Refocus) > Count(Calls(l), Refocus) ==>
      |Acceptance(rec, b, to, l)| >= 2 &&
      Acceptance(rec, b, to, l)[|Acceptance(rec, b, to, l)| - 1] == Do(Refocus) &&
      !AcceptedAt(b, |Acceptance(rec, b, to, l)| - 2)
  {
    AcceptanceCounts(rec, b, to, l, Refocus);
    TailCounts(rec, b, to, l);
    if Count(Calls(Acceptance(rec, b, to, l)), Refocus) > Count(Calls(l), Refocus) {
      if ClickHit(b, Suggestion, SuggestionSelectors(to)) {
        AcceptedBySuggestion(rec, b, to, l);
        LastTryFacts(rec, b, SuggestionScan(rec, b, to, l));
      } else {
        AfterTabTried(rec, b, to, l);
        LastTryFacts(rec, b, AfterTab(rec, b, to, l));
      }
    }
  }

  // ---------------------------------------------------------------------
  // The compose workflow.

  /** Once the To field was typed, the recipient step lets the workflow go
      on whatever the acceptance sub-protocol meets. */
  lemma RecipientNeverAborts(rec: Recorder, b: Browser, to: string, l: seq<Effect>)
    ensures RecipientPhase(rec, b, to, l).flow.Next? <==> ScanHit(b, To, ToSelectors).Some? && b.ok(Focus(To))
    ensures RecipientPhase(rec, b, to, l).flow != Done(true)
  {
    var filled := Fill(rec, b, To, ToSelectors, to, FillingRecipient,
                       "10_recipient_typed", ToMissing, "error_to_field_not_found", l);
    assert filled.flow.Next? <==> ScanHit(b, To, ToSelectors).Some? && b.ok(Focus(To));
  }

  lemma FillNeverSucceeds(rec: Recorder, b: Browser, f: Field, sels: seq<string>, text: string,
                          intro: Notice, shot: string, missing: Notice, errorTag: string, l: seq<Effect>)
    requires Scanned(f)
    ensures Fill(rec, b, f, sels, text, intro, shot, missing, errorTag, l).flow != Done(true)
  {
  }

  lemma OpenNeverSucceeds(rec: Recorder, b: Browser, l: seq<Effect>)
    ensures OpenPhase(rec, b, l).flow != Done(true)
  {
  }

  /** `compose_and_send_email` returns True only when the send step
      reported the e-mail sent. */
  lemma ComposeTrueMeansSent(rec: Recorder, drv: Option<Browser>, to: string, subject: string, body: string, l: seq<Effect>)
    ensures Compose(rec, drv, to, subject, body, l).flow.Done?
    ensures Compose(rec, drv, to, subject, body, l).flow == Done(true) ==>
      drv.Some? &&
      (if ScanHit(drv.value, SendButton, SendSelectors).None? then drv.value.ok(CtrlEnter(NoSendButton))
       else SomeMechanismWorks(drv.value) && Awaited(drv.value, SentToast) != Broke)
  {
    if drv.Some? {
      var b := drv.value;
      var a := OpenPhase(rec, b, l);
      OpenNeverSucceeds(rec, b, l);
      var r := RecipientPhase(rec, b, to, a.log);
      RecipientNeverAborts(rec, b, to, a.log);
      var s := SubjectPhase(rec, b, subject, r.log);
      FillNeverSucceeds(rec, b, Subject, SubjectSelectors, subject, FillingSubject,
                        "11_subject_filled", SubjectMissing, "error_subject_field_not_found", r.log);
      var m := BodyPhase(rec, b, body, s.log);
      FillNeverSucceeds(rec, b, Body, BodySelectors, body, FillingBody,
                        "12_body_filled", BodyMissing, "error_body_area_not_found", s.log);
      SendOutcome(rec, b, m.log);
      var run := ComposePhases(rec, b, to, subject, body, l);
      if run.flow.Raised? {
        HandlerDiagnoses(rec, b, run.log, run.flow.at, Delivery);
      }
    }
  }

  /** Once the window is open and the three fields are filled, the send step
      alone decides `compose_and_send_email`: True exactly when Ctrl+Enter
      returns with no button, or when a mechanism returns and the
      confirmation wait does not raise, a timed-out wait included. */
  lemma ComposeSendDecides(rec: Recorder, b: Browser, to: string, subject: string, body: string, l: seq<Effect>)
    requires OpenPhase(rec, b, l).flow.Next?
    requires RecipientPhase(rec, b, to, OpenPhase(rec, b, l).log).flow.Next?
    requires SubjectPhase(rec, b, subject, RecipientPhase(rec, b, to, OpenPhase(rec, b, l).log).log).flow.Next?
    requires BodyPhase(rec, b, body, SubjectPhase(rec, b, subject, RecipientPhase(rec, b, to, OpenPhase(rec, b, l).log).log).log).flow.Next?
    ensures Compose(rec, Some(b), to, subject, body, l).flow == Done(true) <==>
      (if ScanHit(b, SendButton, SendSelectors).None? then b.ok(CtrlEnter(NoSendButton))
       else SomeMechanismWorks(b) && Awaited(b, SentToast) != Broke)
  {
    var m := BodyPhase(rec, b, body, SubjectPhase(rec, b, subject, RecipientPhase(rec, b, to, OpenPhase(rec, b, l).log).log).log);
    SendOutcome(rec, b, m.log);
  }

  /** The log of the compose step once the mail client is up, before the
      compose button is looked for. */
  function MailReached(rec: Recorder, b: Browser, l: seq<Effect>): seq<Effect>
  {
    var s0 := if b.ok(UrlOnMail) then l + [Do(UrlOnMail)]
              else Note(rec, l + [Do(UrlOnMail)], Says(NavigatingToMail), None) + [Do(Navigate(MailPage))];
    Shot(rec, b, s0, "08_gmail_loaded") + [Do(Await(MainRegion))]
  }

  /** The log once the compose candidates were scanned. */
  function ComposeScan(rec: Recorder, b: Browser, l: seq<Effect>): seq<Effect>
  {
    ScanFx(rec, b, ComposeButton, ComposeSelectors, Note(rec, MailReached(rec, b, l), Says(LookingForCompose), None))
  }

  lemma MailReachedShots(rec: Recorder, b: Browser, l: seq<Effect>)
    ensures ErrorShotsOf(MailReached(rec, b, l)) == ErrorShotsOf(l)
  {
    var s0 := if b.ok(UrlOnMail) then l + [Do(UrlOnMail)]
              else Note(rec, l + [Do(UrlOnMail)], Says(NavigatingToMail), None) + [Do(Navigate(MailPage))];
    ShotsAfterDo(l, UrlOnMail);
    if !b.ok(UrlOnMail) {
      ShotsAfterNote(rec, l + [Do(UrlOnMail)], Says(NavigatingToMail), None);
      ShotsAfterDo(Note(rec, l + [Do(UrlOnMail)], Says(NavigatingToMail), None), Navigate(MailPage));
    }
    NotErrorTag("08_gmail_loaded");
    ShotsAfterShot(rec, b, s0, "08_gmail_loaded");
    ShotsAfterDo(Shot(rec, b, s0, "08_gmail_loaded"), Await(MainRegion));
  }

  lemma ComposeScanShots(rec: Recorder, b: Browser, l: seq<Effect>)
    ensures ErrorShotsOf(ComposeScan(rec, b, l)) == ErrorShotsOf(l)
  {
    MailReachedShots(rec, b, l);
    ShotsAfterNote(rec, MailReached(rec, b, l), Says(LookingForCompose), None);
    ShotsAfterScan(rec, b, ComposeButton, ComposeSelectors, Note(rec, MailReached(rec, b, l), Says(LookingForCompose), None));
  }

  lemma ComposeMissingBranch(rec: Recorder, b: Browser, l: seq<Effect>)
    requires b.ok(UrlOnMail) || b.ok(Navigate(MailPage))
    requires Awaited(b, MainRegion) == Seen
    requires ScanHit(b, ComposeButton, ComposeSelectors).None?
    ensures OpenPhase(rec, b, l)
         == Run(Shot(rec, b, Note(rec, ComposeScan(rec, b, l), Says(ComposeMissing), None), "error_compose_not_found"),
                Done(false))
  {
  }

  /** The mail client was reached but no compose candidate resolves: the step
      ends the operation with False after the `error_compose_not_found`
      screenshot, the only error screenshot it takes. */
  lemma ComposeButtonMissing(rec: Recorder, b: Browser, l: seq<Effect>)
    requires b.ok(UrlOnMail) || b.ok(Navigate(MailPage))
    requires Awaited(b, MainRegion) == Seen
    requires forall j :: 0 <= j < |ComposeSelectors| ==> !b.ok(Locate(ComposeButton, j))
    ensures OpenPhase(rec, b, l).flow == Done(false)
    ensures LastMsg(OpenPhase(rec, b, l).log) == Some(ShotMsg(rec, b, "error_compose_not_found"))
    ensures ErrorShotsOf(OpenPhase(rec, b, l).log) == ErrorShotsOf(l) + ["error_compose_not_found"]
  {
    SelectorExhausted(rec, b, ComposeButton, ComposeSelectors, Note(rec, MailReached(rec, b, l), Says(LookingForCompose), None));
    ComposeMissingBranch(rec, b, l);
    var n := Note(rec, ComposeScan(rec, b, l), Says(ComposeMissing), None);
    ComposeScanShots(rec, b, l);
    ShotsAfterNote(rec, ComposeScan(rec, b, l), Says(ComposeMissing), None);
    ComposeMissingTag();
    ShotsAfterShot(rec, b, n, "error_compose_not_found");
    ShotLastMsg(rec, b, n, "error_compose_not_found");
  }

  lemma ShotLastMsg(rec: Recorder, b: Browser, l: seq<Effect>, name: string)
    ensures LastMsg(Shot(rec, b, l, name)) == Some(ShotMsg(rec, b, name))
  {
    var path := ShotPath(rec, name);
    LastMsgOfNote(rec, l + [Do(Save(name))], ShotSaved(path), Some(path));
    LastMsgOfNote(rec, l + [Do(Save(name))], ShotFailed(b.error(Save(name))), None);
  }

  lemma ComposeMissingTag()
    ensures IsErrorTag("error_compose_not_found")
  {
  }

  /** A compose button that resolved but whose three clicks all raised: the
      step reports the third failure and ends the operation with False. */
  lemma ComposeClicksGiveUp(rec: Recorder, b: Browser, l: seq<Effect>)
    requires b.ok(UrlOnMail) || b.ok(Navigate(MailPage))
    requires Awaited(b, MainRegion) == Seen
    requires ScanHit(b, ComposeButton, ComposeSelectors).Some?
    requires forall a :: 0 <= a < Attempts ==> !b.ok(Click(ComposeButton, a))
    ensures OpenPhase(rec, b, l).flow == Done(false)
    ensures LastMsg(OpenPhase(rec, b, l).log) == Some(ComposeAttemptFailed(3, b.error(Click(ComposeButton, 2))))
  {
    var ro := RetryOutcomes(b, ComposeButton);
    assert forall j :: 0 <= j < |ro| ==> !ro[j];
    NoSuccessTriesAll(ro);
    var s0 := if b.ok(UrlOnMail) then l + [Do(UrlOnMail)]
              else Note(rec, l + [Do(UrlOnMail)], Says(NavigatingToMail), None) + [Do(Navigate(MailPage))];
    var s1 := Shot(rec, b, s0, "08_gmail_loaded") + [Do(Await(MainRegion))];
    var s2 := ScanFx(rec, b, ComposeButton, ComposeSelectors, Note(rec, s1, Says(LookingForCompose), None));
    var prev := RetrySteps(rec, b, ComposeButton, 2, s2);
    LastMsgOfNote(rec, prev + [Do(Click(ComposeButton, 2))], RetryMsg(b, ComposeButton, 2), None);
  }

  /** An exception that escapes the compose phases ends in the handler: it
      reports the exception, takes `error_email_failed_detailed` and returns False. */
  lemma ComposeExceptionDiagnosed(rec: Recorder, b: Browser, to: string, subject: string, body: string, l: seq<Effect>)
    requires ComposePhases(rec, b, to, subject, body, l).flow.Raised?
    ensures Compose(rec, Some(b), to, subject, body, l).flow == Done(false)
    ensures ErrorShotsOf(Compose(rec, Some(b), to, subject, body, l).log)
         == ErrorShotsOf(ComposePhases(rec, b, to, subject, body, l).log) + ["error_email_failed_detailed"]
    ensures Msgs(Compose(rec, Some(b), to, subject, body, l).log)
         == Msgs(ComposePhases(rec, b, to, subject, body, l).log)
            + [SendingFailed(b.error(ComposePhases(rec, b, to, subject, body, l).flow.at))]
            + [ShotMsg(rec, b, "error_email_failed_detailed")]
  {
    var r := ComposePhases(rec, b, to, subject, body, l);
    HandlerDiagnoses(rec, b, r.log, r.flow.at, Delivery);
    HandlerShotOnce(rec, b, r.log, r.flow.at, Delivery);
  }

  // ---------------------------------------------------------------------
  // Login.

  lemma IdentifierNeverEnds(rec: Recorder, b: Browser, email: string, l: seq<Effect>)
    ensures IdentifierPhase(rec, b, email, l).flow.Next? || IdentifierPhase(rec, b, email, l).flow.Raised?
    ensures IdentifierPhase(rec, b, email, l).flow.Next? <==>
      b.ok(Navigate(SignInPage)) && b.ok(Locate(Identifier, 0)) && b.ok(Focus(Identifier))
      && b.ok(Click(IdentifierNext, 0))
  {
  }

  lemma PasswordOutcome(rec: Recorder, b: Browser, password: string, l: seq<Effect>)
    ensures PasswordPhase(rec, b, password, l).flow == Done(true) <==>
      ScanHit(b, Password, PasswordSelectors).Some? && b.ok(Focus(Password))
      && b.ok(Click(PasswordNext, 0)) && Awaited(b, LoginMarkers) == Seen
  {
  }

  /** `login_to_gmail` returns True exactly when every sign-in step returned
      and one of the three post-login markers showed up in time. */
  lemma LoginNeedsMarker(rec: Recorder, drv: Option<Browser>, email: string, password: string, l: seq<Effect>)
    ensures Login(rec, drv, email, password, l).flow.Done?
    ensures Login(rec, drv, email, password, l).flow == Done(true) <==>
      drv.Some? &&
      drv.value.ok(Navigate(SignInPage)) && drv.value.ok(Locate(Identifier, 0))
      && drv.value.ok(Focus(Identifier)) && drv.value.ok(Click(IdentifierNext, 0))
      && ScanHit(drv.value, Password, PasswordSelectors).Some? && drv.value.ok(Focus(Password))
      && drv.value.ok(Click(PasswordNext, 0))
      && drv.value.ok(Await(LoginMarkers))
      && exists i :: 0 <= i < Markers(LoginMarkers) && drv.value.marker(LoginMarkers, i)
  {
    if drv.Some? {
      var b := drv.value;
      var a := IdentifierPhase(rec, b, email, l);
      IdentifierNeverEnds(rec, b, email, l);
      PasswordOutcome(rec, b, password, a.log);
      var r := LoginPhases(rec, b, email, password, l);
      if r.flow.Raised? {
        HandlerDiagnoses(rec, b, r.log, r.flow.at, SignIn);
      }
    }
  }

  /** No password candidate resolves: the step reports it and ends the
      login with False after the `error_password_field_not_found` screenshot. */
  lemma PasswordMissingFails(rec: Recorder, b: Browser, password: string, l: seq<Effect>)
    requires forall j :: 0 <= j < |PasswordSelectors| ==> !b.ok(Locate(Password, j))
    ensures PasswordPhase(rec, b, password, l).flow == Done(false)
    ensures LastMsg(PasswordPhase(rec, b, password, l).log) == Some(ShotMsg(rec, b, "error_password_field_not_found"))
    ensures ErrorShotsOf(PasswordPhase(rec, b, password, l).log) == ErrorShotsOf(l) + ["error_password_field_not_found"]
  {
    var n0 := Note(rec, l, Says(LookingForPassword), None);
    ShotsAfterNote(rec, l, Says(LookingForPassword), None);
    SelectorExhausted(rec, b, Password, PasswordSelectors, n0);
    ShotsAfterScan(rec, b, Password, PasswordSelectors, n0);
    var s4 := ScanFx(rec, b, Password, PasswordSelectors, n0);
    ShotsAfterNote(rec, s4, Says(PasswordMissing), None);
    PasswordMissingTag();
    ShotsAfterShot(rec, b, Note(rec, s4, Says(PasswordMissing), None), "error_password_field_not_found");
    ShotFacts(rec, b, Note(rec, s4, Says(PasswordMissing), None), "error_password_field_not_found");
  }

  lemma PasswordMissingTag()
    ensures IsErrorTag("error_password_field_not_found")
  {
  }

  /** The log of the password step once the password was typed. */
  function PasswordTyped(rec: Recorder, b: Browser, password: string, l: seq<Effect>): seq<Effect>
  {
    var s4 := ScanFx(rec, b, Password, PasswordSelectors, Note(rec, l, Says(LookingForPassword), None));
    Typing(rec, b, Password, password, Note(rec, s4, Says(ClickingPassword), None) + [Do(Focus(Password))])
  }

  /** The log of the password step once the sign-in was submitted and the
      markers are awaited. */
  function PasswordSubmitted(rec: Recorder, b: Browser, password: string, l: seq<Effect>): seq<Effect>
  {
    var s6 := Shot(rec, b, PasswordTyped(rec, b, password, l), "05_password_field_filled")
              + [Do(Click(PasswordNext, 0))];
    Note(rec, Shot(rec, b, s6, "07_password_next_clicked"), Says(AwaitingLogin), None)
    + [Do(Await(LoginMarkers))]
  }

  lemma PasswordTypedShots(rec: Recorder, b: Browser, password: string, l: seq<Effect>)
    ensures ErrorShotsOf(PasswordTyped(rec, b, password, l)) == ErrorShotsOf(l)
  {
    var n0 := Note(rec, l, Says(LookingForPassword), None);
    ShotsAfterNote(rec, l, Says(LookingForPassword), None);
    ShotsAfterScan(rec, b, Password, PasswordSelectors, n0);
    var s4 := ScanFx(rec, b, Password, PasswordSelectors, n0);
    var n1 := Note(rec, s4, Says(ClickingPassword), None);
    ShotsAfterNote(rec, s4, Says(ClickingPassword), None);
    ShotsAfterDo(n1, Focus(Password));
    ShotsAfterTyping(rec, b, Password, password, n1 + [Do(Focus(Password))]);
  }

  lemma PasswordSubmittedShots(rec: Recorder, b: Browser, password: string, l: seq<Effect>)
    ensures ErrorShotsOf(PasswordSubmitted(rec, b, password, l)) == ErrorShotsOf(l)
  {
    var typed := PasswordTyped(rec, b, password, l);
    PasswordTypedShots(rec, b, password, l);
    NotErrorTag("05_password_field_filled");
    ShotsAfterShot(rec, b, typed, "05_password_field_filled");
    var shot5 := Shot(rec, b, typed, "05_password_field_filled");
    ShotsAfterDo(shot5, Click(PasswordNext, 0));
    var s6 := shot5 + [Do(Click(PasswordNext, 0))];
    NotErrorTag("07_password_next_clicked");
    ShotsAfterShot(rec, b, s6, "07_password_next_clicked");
    var n2 := Note(rec, Shot(rec, b, s6, "07_password_next_clicked"), Says(AwaitingLogin), None);
    ShotsAfterNote(rec, Shot(rec, b, s6, "07_password_next_clicked"), Says(AwaitingLogin), None);
    ShotsAfterDo(n2, Await(LoginMarkers));
  }

  lemma LoginTimeoutBranch(rec: Recorder, b: Browser, password: string, l: seq<Effect>)
    requires ScanHit(b, Password, PasswordSelectors).Some? && b.ok(Focus(Password))
    requires b.ok(Click(PasswordNext, 0)) && Awaited(b, LoginMarkers) == TimedOut
    ensures PasswordPhase(rec, b, password, l)
         == Run(Note(rec, Shot(rec, b, PasswordSubmitted(rec, b, password, l), "error_login_failed"),
                     Says(LoginUnconfirmed), None), Done(false))
  {
  }

  /** A sign-in that was submitted but shows none of the markers in time:
      the login ends with False after the `error_login_failed` screenshot,
      reporting that it failed or needs extra verification. */
  lemma LoginTimeoutDiagnosed(rec: Recorder, b: Browser, password: string, l: seq<Effect>)
    requires ScanHit(b, Password, PasswordSelectors).Some? && b.ok(Focus(Password))
    requires b.ok(Click(PasswordNext, 0)) && Awaited(b, LoginMarkers) == TimedOut
    ensures PasswordPhase(rec, b, password, l).flow == Done(false)
    ensures LastMsg(PasswordPhase(rec, b, password, l).log) == Some(Says(LoginUnconfirmed))
    ensures ErrorShotsOf(PasswordPhase(rec, b, password, l).log) == ErrorShotsOf(l) + ["error_login_failed"]
  {
    LoginTimeoutBranch(rec, b, password, l);
    var s7 := PasswordSubmitted(rec, b, password, l);
    PasswordSubmittedShots(rec, b, password, l);
    LoginFailedTag();
    ShotsAfterShot(rec, b, s7, "error_login_failed");
    ShotsAfterNote(rec, Shot(rec, b, s7, "error_login_failed"), Says(LoginUnconfirmed), None);
    LastMsgOfNote(rec, Shot(rec, b, s7, "error_login_failed"), Says(LoginUnconfirmed), None);
  }

  lemma LoginFailedTag()
    ensures IsErrorTag("error_login_failed")
  {
  }

  /** An exception that escapes the login phases ends in the handler: it
      reports the exception, takes `error_login_exception` and returns False. */
  lemma LoginExceptionDiagnosed(rec: Recorder, b: Browser, email: string, password: string, l: seq<Effect>)
    requires LoginPhases(rec, b, email, password, l).flow.Raised?
    ensures Login(rec, Some(b), email, password, l).flow == Done(false)
    ensures ErrorShotsOf(Login(rec, Some(b), email, password, l).log)
         == ErrorShotsOf(LoginPhases(rec, b, email, password, l).log) + ["error_login_exception"]
    ensures Msgs(Login(rec, Some(b), email, password, l).log)
         == Msgs(LoginPhases(rec, b, email, password, l).log)
            + [LoginFailed(b.error(LoginPhases(rec, b, email, password, l).flow.at))]
            + [ShotMsg(rec, b, "error_login_exception")]
  {
    var r := LoginPhases(rec, b, email, password, l);
    HandlerDiagnoses(rec, b, r.log, r.flow.at, SignIn);
    HandlerShotOnce(rec, b, r.log, r.flow.at, SignIn);
  }

  // ---------------------------------------------------------------------
  // Without a driver, `click_show_password`, `quit` and the screenshot.

  /** Without a driver every entry point reports that it cannot run and
      attempts no driver call; the two operations return False and `quit`
      does nothing at all. */
  lemma NoDriverRefuses(rec: Recorder, email: string, password: string, to: string, subject: string, body: string,
                        name: string, l: seq<Effect>)
    ensures Login(rec, None, email, password, l).flow == Done(false)
    ensures Calls(Login(rec, None, email, password, l).log) == Calls(l)
    ensures LastMsg(Login(rec, None, email, password, l).log) == Some(Says(NoDriverLogin))
    ensures Compose(rec, None, to, subject, body, l).flow == Done(false)
    ensures Calls(Compose(rec, None, to, subject, body, l).log) == Calls(l)
    ensures LastMsg(Compose(rec, None, to, subject, body, l).log) == Some(Says(NoDriverSend))
    ensures ShowPasswordRun(rec, None, l).flow == Done(false)
    ensures Calls(ShowPasswordRun(rec, None, l).log) == Calls(l)
    ensures LastMsg(ShowPasswordRun(rec, None, l).log) == Some(Says(NoDriverShowPassword))
    ensures WaitShot(rec, None, l, name).0 == None
    ensures Calls(WaitShot(rec, None, l, name).1) == Calls(l)
    ensures LastMsg(WaitShot(rec, None, l, name).1) == Some(Says(NoDriverShot))
    ensures QuitFx(rec, None, l) == l
  {
    NoteFacts(rec, l, Says(NoDriverLogin), None);
    LastMsgOfNote(rec, l, Says(NoDriverLogin), None);
    NoteFacts(rec, l, Says(NoDriverSend), None);
    LastMsgOfNote(rec, l, Says(NoDriverSend), None);
    NoteFacts(rec, l, Says(NoDriverShowPassword), None);
    LastMsgOfNote(rec, l, Says(NoDriverShowPassword), None);
    NoteFacts(rec, l, Says(NoDriverShot), None);
    LastMsgOfNote(rec, l, Says(NoDriverShot), None);
  }

  /** `click_show_password` returns True exactly when some candidate both
      resolves and takes the click; it only looks up and clicks, and without
      a click it reports that it carries on. */
  lemma ShowPasswordResult(rec: Recorder, b: Browser, l: seq<Effect>)
    ensures ShowPasswordRun(rec, Some(b), l).flow == Done(true) <==>
      exists i :: 0 <= i < |ShowPasswordSelectors| && b.ok(Locate(ShowPassword, i)) && b.ok(Click(ShowPassword, i))
    ensures ShowPasswordRun(rec, Some(b), l).flow.Done?
    ensures forall c: Call :: !(c.Locate? || c.Click?) ==>
      Count(Calls(ShowPasswordRun(rec, Some(b), l).log), c) == Count(Calls(l), c)
    ensures ShowPasswordRun(rec, Some(b), l).flow == Done(false) ==>
      LastMsg(ShowPasswordRun(rec, Some(b), l).log) == Some(Says(ShowPasswordMissing))
  {
    var outcomes := ClickOutcomes(b, ShowPassword, |ShowPasswordSelectors|);
    FirstTrueIsFirst(outcomes);
    assert forall i :: 0 <= i < |outcomes| ==> outcomes[i] == (b.ok(Locate(ShowPassword, i)) && b.ok(Click(ShowPassword, i)));
    if FirstTrue(outcomes).Some? {
      var k := FirstTrue(outcomes).value;
      assert b.ok(Locate(ShowPassword, k)) && b.ok(Click(ShowPassword, k));
    }
    var s := ClickScanFx(rec, b, ShowPassword, ShowPasswordSelectors, l);
    var n := Tried(outcomes);
    ClickScanTrace(rec, b, ShowPassword, ShowPasswordSelectors, l);
    forall c: Call | !(c.Locate? || c.Click?)
      ensures Count(Calls(ShowPasswordRun(rec, Some(b), l).log), c) == Count(Calls(l), c)
    {
      LookupsAddNothingElse(b, ShowPassword, n, Calls(l), c);
      NoteFacts(rec, s, Says(ShowPasswordMissing), None);
    }
    LastMsgOfNote(rec, s, Says(ShowPasswordMissing), None);
  }

  /** `quit` on a live driver attempts the close and then the quit, whatever
      either raises, and reports the browser closed. */
  lemma QuitClosesBoth(rec: Recorder, b: Browser, l: seq<Effect>)
    ensures Calls(QuitFx(rec, Some(b), l)) == Calls(l) + [Close, Quit]
    ensures LastMsg(QuitFx(rec, Some(b), l)) == Some(Says(BrowserClosed))
    ensures Msgs(QuitFx(rec, Some(b), l)) == Msgs(l) + [Says(BrowserClosed)]
  {
    DoFacts(l, Close);
    DoFacts(l + [Do(Close)], Quit);
    NoteFacts(rec, l + [Do(Close)] + [Do(Quit)], Says(BrowserClosed), None);
    LastMsgOfNote(rec, l + [Do(Close)] + [Do(Quit)], Says(BrowserClosed), None);
  }

  /** The screenshot on a live driver returns the path `dir/name.png` either
      way; the message carries that path as its image only when the save
      worked, and only through the emit callback. */
  lemma ShotImage(rec: Recorder, b: Browser, l: seq<Effect>, name: string)
    ensures WaitShot(rec, Some(b), l, name).0 == Some(ShotPath(rec, name))
    ensures var e := WaitShot(rec, Some(b), l, name).1[|WaitShot(rec, Some(b), l, name).1| - 1];
      (e.Emit? && e.image.Some?) <==> (rec.callback && b.ok(Save(name)))
    ensures var e := WaitShot(rec, Some(b), l, name).1[|WaitShot(rec, Some(b), l, name).1| - 1];
      e.Emit? && e.image.Some? ==> e.image.value == ShotPath(rec, name)
  {
  }

  lemma PngKeepsNoSeparator(name: string)
    requires forall i :: 0 <= i < |name| ==> name[i] != '/'
    ensures forall i :: 0 <= i < |name + ".png"| ==> (name + ".png")[i] != '/'
  {
    var file := name + ".png";
    forall i | 0 <= i < |file| ensures file[i] != '/' {
      if i >= |name| { assert file[i] == ".png"[i - |name|]; }
    }
  }

  /** The base name of a screenshot path is the screenshot's file name,
      whenever the step name holds no separator. */
  lemma ShotBaseName(rec: Recorder, name: string)
    requires forall i :: 0 <= i < |name| ==> name[i] != '/'
    ensures BaseName(ShotPath(rec, name)) == name + ".png"
  {
    PngKeepsNoSeparator(name);
    BaseNameOfJoin(rec.dir, name + ".png");
  }
}
