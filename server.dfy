/** The request handler of backend/main.py: the Socket.IO events it sends,
    the validation of the two inbound requests, the browser task that wraps
    one agent between its construction and its `quit`, and the lookup of the
    Socket.IO client script.

    The server's outward channel is the ordered sequence of events it sends.
    An agent created by the server hands each status message to
    `emit_status`; the model relays the messages an agent operation produced
    right after the operation returns, which gives the same sequence of
    events because nothing else is sent while an operation runs. */
module Server {
  import opened Search
  import opened Paths
  import opened Driver
  import opened Messages
  import opened Effects
  import opened AgentFacts
  import opened LogGrowth
  import opened Agent

  /** The two event names the front end listens to for status. */
  const TextChannel: string := "text"
  const ImageChannel: string := "image"

  /** One event sent over the socket: to every client (`socketio.emit`), as
      the reply to the client whose request is being handled (`emit` inside
      a handler), or the generated e-mail of a `generate_email` request. */
  datatype Event =
    | Broadcast(channel: string, data: string)
    | Reply(channel: string, data: string)
    | GeneratedReply(email: map<string, string>)

  const ImagePrefix: string := "data:image/png;base64,"
  const ImageWarning: string := "⚠️ Failed to send image for screenshot: "

  const LaunchingText: string := "🧠 Launching browser..."
  const LoggedInText: string := "✅ Logged in to Gmail."
  const SentText: string := "✅ Email sent successfully!"
  const SendFailedText: string := "❌ Failed to send email."
  const LoginFailedText: string := "❌ Gmail login failed."
  const ClosedText: string := "🛑 Browser closed."
  const MissingFieldsText: string := "❌ Missing required fields: to, subject, or body."
  const MissingIntentText: string := "❌ Please provide a request like 'send a leave email'."

  /** The screenshot directory of an agent built with the default arguments. */
  const DefaultShotDir: string := "screenshots"

  /** How an agent created by the server records diagnostics: in the default
      directory and through `emit_status`. */
  const TaskRecorder: Recorder := Recorder(DefaultShotDir, true)

  // ---------------------------------------------------------------------
  // `emit_status`.

  /** Whether `if image_path:` holds. */
  predicate HasImage(image: Option<string>)
  {
    image.Some? && image.value != ""
  }

  /** The events of `emit_status(text, image_path)`. `read(p)` is the base64
      text of the file at p, or None when opening or reading it raises. */
  function StatusEvents(read: string -> Option<string>, text: string, image: Option<string>): seq<Event>
  {
    [Broadcast(TextChannel, text)] +
    (if !HasImage(image) then []
     else match read(image.value)
       case Some(payload) => [Broadcast(ImageChannel, ImagePrefix + payload)]
       case None => [Broadcast(TextChannel, ImageWarning + BaseName(image.value))])
  }

  /** Without an image, `emit_status` sends the text alone. */
  lemma PlainStatus(read: string -> Option<string>, text: string)
    ensures StatusEvents(read, text, None) == [Broadcast(TextChannel, text)]
  {
    assert [Broadcast(TextChannel, text)] + [] == [Broadcast(TextChannel, text)];
  }

  /** The text always goes first; an image event follows only for a given,
      readable image and carries the data-URL prefix; an unreadable image
      gives a warning naming the file instead; nothing else is sent. */
  lemma StatusEventsOrder(read: string -> Option<string>, text: string, image: Option<string>)
    ensures |StatusEvents(read, text, image)| == (if HasImage(image) then 2 else 1)
    ensures StatusEvents(read, text, image)[0] == Broadcast(TextChannel, text)
    ensures (exists i :: 0 <= i < |StatusEvents(read, text, image)| && StatusEvents(read, text, image)[i].channel == ImageChannel)
        <==> HasImage(image) && read(image.value).Some?
    ensures forall i :: 0 <= i < |StatusEvents(read, text, image)| && StatusEvents(read, text, image)[i].channel == ImageChannel ==>
      StatusEvents(read, text, image)[i] == Broadcast(ImageChannel, ImagePrefix + read(image.value).value)
    ensures HasImage(image) && read(image.value).None? ==>
      StatusEvents(read, text, image)[1] == Broadcast(TextChannel, ImageWarning + BaseName(image.value))
  {
    var es := StatusEvents(read, text, image);
    assert TextChannel != ImageChannel;
    if HasImage(image) && read(image.value).Some? {
      assert es[1].channel == ImageChannel;
    }
  }

  /** The warning for an unreadable screenshot names the screenshot's file. */
  lemma ShotWarningNamesFile(read: string -> Option<string>, text: string, rec: Recorder, name: string)
    requires forall i :: 0 <= i < |name| ==> name[i] != '/'
    requires read(ShotPath(rec, name)).None?
    ensures ShotPath(rec, name) != "" ==>
      StatusEvents(read, text, Some(ShotPath(rec, name)))[1] == Broadcast(TextChannel, ImageWarning + name + ".png")
  {
    var p := ShotPath(rec, name);
    if p != "" {
      ShotBaseName(rec, name);
      UnreadableWarning(read, text, p);
    }
  }

  lemma UnreadableWarning(read: string -> Option<string>, text: string, p: string)
    requires p != "" && read(p).None?
    ensures StatusEvents(read, text, Some(p))[1] == Broadcast(TextChannel, ImageWarning + BaseName(p))
  {
  }

  /** The events an agent's messages become: each message handed to the
      callback goes through `emit_status` with its image. */
  function EffectEvents(read: string -> Option<string>, e: Effect): seq<Event>
  {
    match e
    case Emit(m, image) => StatusEvents(read, Text(m), image)
    case _ => []
  }

  function Relay(read: string -> Option<string>, es: seq<Effect>): seq<Event>
    decreases |es|
  {
    if es == [] then [] else Relay(read, es[..|es| - 1]) + EffectEvents(read, es[|es| - 1])
  }

  /** The part of a log recorded after `base`. */
  function After(l: seq<Effect>, base: seq<Effect>): seq<Effect>
  {
    if |base| <= |l| then l[|base|..] else []
  }

  // ---------------------------------------------------------------------
  // The stream of one browser task.

  function Status(text: string): Event
  {
    Broadcast(TextChannel, text)
  }

  /** The outcome message of a task. */
  function OutcomeText(loggedIn: bool, sent: bool): string
  {
    if !loggedIn then LoginFailedText else if sent then SentText else SendFailedText
  }

  /** The events of `run_browser_task`, given what each agent operation added
      to the log and what the two operations returned. */
  function TaskStream(read: string -> Option<string>, login: seq<Effect>, loggedIn: bool,
                      compose: seq<Effect>, sent: bool, quit: seq<Effect>): seq<Event>
  {
    [Status(LaunchingText)] + Relay(read, login)
    + (if loggedIn then [Status(LoggedInText)] + Relay(read, compose) else [])
    + [Status(OutcomeText(loggedIn, sent))]
    + Relay(read, quit) + [Status(ClosedText)]
  }

  /** The run of `login_to_gmail` of a freshly built agent on browser b. */
  function LoginRun(user: string, pass: string, b: Browser): Run
  {
    Login(TaskRecorder, Some(b), user, pass, SetupFx)
  }

  /** The run of `compose_and_send_email` after that login. */
  function ComposeRun(user: string, pass: string, b: Browser, to: string, subject: string, body: string): Run
  {
    Compose(TaskRecorder, Some(b), to, subject, body, LoginRun(user, pass, b).log)
  }

  /** The log before `quit`. */
  function BeforeQuit(user: string, pass: string, b: Browser, to: string, subject: string, body: string): seq<Effect>
  {
    if LoginRun(user, pass, b).flow == Done(true) then ComposeRun(user, pass, b, to, subject, body).log
    else LoginRun(user, pass, b).log
  }

  /** Every event of `run_browser_task(to, subject, body)` on browser b. */
  function TaskEvents(read: string -> Option<string>, user: string, pass: string, b: Browser,
                      to: string, subject: string, body: string): seq<Event>
  {
    var login := LoginRun(user, pass, b);
    var compose := ComposeRun(user, pass, b, to, subject, body);
    var last := BeforeQuit(user, pass, b, to, subject, body);
    TaskStream(read, After(login.log, SetupFx), login.flow == Done(true),
               After(compose.log, login.log), compose.flow == Done(true),
               After(QuitFx(TaskRecorder, Some(b), last), last))
  }

  // ---------------------------------------------------------------------
  // Facts about the stream.

  /** The outcome messages of `run_browser_task`. */
  predicate IsOutcome(e: Event)
  {
    e == Status(SentText) || e == Status(SendFailedText) || e == Status(LoginFailedText)
  }

  function Outcomes(es: seq<Event>): nat
    decreases |es|
  {
    if es == [] then 0 else (if IsOutcome(es[0]) then 1 else 0) + Outcomes(es[1..])
  }

  lemma AppendAssoc(a: seq<Event>, b: seq<Event>, c: seq<Event>)
    ensures a + b + c == a + (b + c)
  {
  }

  /** What `run_browser_task` emits once the login has returned: the
      compose phase (after a successful login only) and the outcome. */
  function MiddleStream(read: string -> Option<string>, loggedIn: bool, compose: seq<Effect>, sent: bool): seq<Event>
  {
    (if loggedIn then [Status(LoggedInText)] + Relay(read, compose) else [])
    + [Status(OutcomeText(loggedIn, sent))]
  }

  /** What `run_browser_task` emits from `quit` on. */
  function ClosingStream(read: string -> Option<string>, quit: seq<Effect>): seq<Event>
  {
    Relay(read, quit) + [Status(ClosedText)]
  }

  /** A task's stream in its three phases. */
  lemma TaskStreamPhases(read: string -> Option<string>, login: seq<Effect>, loggedIn: bool,
                         compose: seq<Effect>, sent: bool, quit: seq<Effect>)
    ensures TaskStream(read, login, loggedIn, compose, sent, quit)
            == [Status(LaunchingText)] + Relay(read, login)
               + MiddleStream(read, loggedIn, compose, sent) + ClosingStream(read, quit)
  {
    var h := [Status(LaunchingText)] + Relay(read, login);
    var mid := if loggedIn then [Status(LoggedInText)] + Relay(read, compose) else [];
    var o := [Status(OutcomeText(loggedIn, sent))];
    var q := Relay(read, quit);
    var z := [Status(ClosedText)];
    AppendAssoc(h + mid + o, q, z);
    AppendAssoc(h, mid, o);
    AppendAssoc(h, mid + o, q + z);
  }

  lemma {:induction false} OutcomesAppend(a: seq<Event>, b: seq<Event>)
    ensures Outcomes(a + b) == Outcomes(a) + Outcomes(b)
    decreases |a|
  {
    if a != [] {
      assert (a + b)[0] == a[0];
      assert (a + b)[1..] == a[1..] + b;
      OutcomesAppend(a[1..], b);
    } else {
      assert a + b == b;
    }
  }

  /** A text starting with a status badge is no outcome message. */
  lemma BadgedIsNoOutcome(s: string)
    requires |s| > 0 && s[0] == '['
    ensures !IsOutcome(Status(s))
  {
    assert SentText[0] != '[' && SendFailedText[0] != '[' && LoginFailedText[0] != '[';
  }

  lemma WarningIsNoOutcome(name: string)
    ensures !IsOutcome(Status(ImageWarning + name))
  {
    var s := ImageWarning + name;
    assert s[0] == ImageWarning[0];
    assert SentText[0] != ImageWarning[0] && SendFailedText[0] != ImageWarning[0] && LoginFailedText[0] != ImageWarning[0];
  }

  lemma BadgeOpens(b: Badge)
    ensures BadgeText(b)[0] == '['
  {
  }

  lemma StatusOfMessageIsNoOutcome(read: string -> Option<string>, m: Msg, image: Option<string>)
    ensures Outcomes(StatusEvents(read, Text(m), image)) == 0
  {
    var s := Text(m);
    BadgeOpens(MsgBadge(m));
    assert s[0] == BadgeText(MsgBadge(m))[0];
    BadgedIsNoOutcome(s);
    var es := StatusEvents(read, s, image);
    if HasImage(image) {
      if read(image.value).None? {
        WarningIsNoOutcome(BaseName(image.value));
      }
      assert es == [es[0]] + [es[1]];
      OutcomesAppend([es[0]], [es[1]]);
    } else {
      assert es == [es[0]];
    }
  }

  /** Nothing the agent says is an outcome message of the task. */
  lemma {:induction false} RelayHasNoOutcome(read: string -> Option<string>, es: seq<Effect>)
    ensures Outcomes(Relay(read, es)) == 0
    decreases |es|
  {
    if es != [] {
      RelayHasNoOutcome(read, es[..|es| - 1]);
      OutcomesAppend(Relay(read, es[..|es| - 1]), EffectEvents(read, es[|es| - 1]));
      match es[|es| - 1]
      case Emit(m, image) => StatusOfMessageIsNoOutcome(read, m, image);
      case _ =>
    }
  }

  lemma OutcomesOfOne(e: Event)
    ensures Outcomes([e]) == if IsOutcome(e) then 1 else 0
  {
    assert [e][1..] == [];
  }

  /** The fixed texts of a task other than its outcome are no outcome. */
  lemma FixedTextsAreNoOutcome()
    ensures !IsOutcome(Status(LaunchingText))
    ensures !IsOutcome(Status(LoggedInText))
    ensures !IsOutcome(Status(ClosedText))
  {
    assert LaunchingText[0] != SentText[0] && LaunchingText[0] != SendFailedText[0];
    assert ClosedText[0] != SentText[0] && ClosedText[0] != SendFailedText[0];
    assert LoggedInText[0] != SendFailedText[0];
    assert |LoggedInText| != |SentText|;
  }

  lemma OutcomeTextIsOutcome(loggedIn: bool, sent: bool)
    ensures IsOutcome(Status(OutcomeText(loggedIn, sent)))
    ensures OutcomeText(loggedIn, sent) == SentText <==> loggedIn && sent
  {
    assert SentText[0] != SendFailedText[0];
    assert SentText[0] != LoginFailedText[0];
  }

  /** Where the outcome and the close-down events sit in a task's stream. */
  lemma TaskStreamEnds(read: string -> Option<string>, login: seq<Effect>, loggedIn: bool,
                       compose: seq<Effect>, sent: bool, quit: seq<Effect>)
    ensures var es := TaskStream(read, login, loggedIn, compose, sent, quit);
      var q := Relay(read, quit);
      |es| >= 3 + |q| &&
      es[0] == Status(LaunchingText) &&
      es[|es| - 1] == Status(ClosedText) &&
      es[|es| - 2 - |q|] == Status(OutcomeText(loggedIn, sent)) &&
      es[|es| - 1 - |q|..|es| - 1] == q
  {
    var q := Relay(read, quit);
    var front := [Status(LaunchingText)] + Relay(read, login)
                 + (if loggedIn then [Status(LoggedInText)] + Relay(read, compose) else []);
    var es := TaskStream(read, login, loggedIn, compose, sent, quit);
    assert es == front + [Status(OutcomeText(loggedIn, sent))] + q + [Status(ClosedText)];
    assert es[0] == front[0];
  }

  /** A task's stream holds exactly one outcome message. */
  lemma TaskStreamOneOutcome(read: string -> Option<string>, login: seq<Effect>, loggedIn: bool,
                             compose: seq<Effect>, sent: bool, quit: seq<Effect>)
    ensures Outcomes(TaskStream(read, login, loggedIn, compose, sent, quit)) == 1
  {
    var l := Relay(read, login);
    var c := Relay(read, compose);
    var q := Relay(read, quit);
    var mid := if loggedIn then [Status(LoggedInText)] + c else [];
    var o := [Status(OutcomeText(loggedIn, sent))];
    var z := [Status(ClosedText)];
    var x := [Status(LaunchingText)];
    assert TaskStream(read, login, loggedIn, compose, sent, quit) == x + l + mid + o + q + z;
    RelayHasNoOutcome(read, login);
    RelayHasNoOutcome(read, compose);
    RelayHasNoOutcome(read, quit);
    FixedTextsAreNoOutcome();
    OutcomeTextIsOutcome(loggedIn, sent);
    OutcomesOfOne(Status(LaunchingText));
    OutcomesOfOne(Status(LoggedInText));
    OutcomesOfOne(Status(OutcomeText(loggedIn, sent)));
    OutcomesOfOne(Status(ClosedText));
    if loggedIn {
      OutcomesAppend([Status(LoggedInText)], c);
    }
    OutcomesAppend(x, l);
    OutcomesAppend(x + l, mid);
    OutcomesAppend(x + l + mid, o);
    OutcomesAppend(x + l + mid + o, q);
    OutcomesAppend(x + l + mid + o + q, z);
  }

  lemma RelaySnoc(read: string -> Option<string>, es: seq<Effect>, e: Effect)
    ensures Relay(read, es + [e]) == Relay(read, es) + EffectEvents(read, e)
  {
    assert (es + [e])[..|es|] == es;
  }

  /** A closing log slice relays its one message. */
  lemma RelayClosing(read: string -> Option<string>, m: Msg)
    ensures Relay(read, [Do(Close), Do(Quit), Emit(m, None)]) == [Status(Text(m))]
  {
    RelaySnoc(read, [], Do(Close));
    assert [Do(Close)] + [Do(Quit)] == [Do(Close), Do(Quit)];
    RelaySnoc(read, [Do(Close)], Do(Quit));
    assert [Do(Close), Do(Quit)] + [Emit(m, None)] == [Do(Close), Do(Quit), Emit(m, None)];
    RelaySnoc(read, [Do(Close), Do(Quit)], Emit(m, None));
    PlainStatus(read, Text(m));
  }

  /** What `quit` reports to the server: its one message. */
  lemma QuitRelayed(read: string -> Option<string>, b: Browser, l: seq<Effect>)
    ensures Relay(read, After(QuitFx(TaskRecorder, Some(b), l), l)) == [Status(Text(Says(BrowserClosed)))]
  {
    var q := QuitFx(TaskRecorder, Some(b), l);
    assert After(q, l) == [Do(Close), Do(Quit), Emit(Says(BrowserClosed), None)];
    RelayClosing(read, Says(BrowserClosed));
  }

  /** The shape of a task's events: the launch message first, one outcome
      message, which is the success message exactly when the login and the
      send both returned True, then the agent's closing message and the
      server's. */
  predicate TaskShaped(es: seq<Event>, loggedIn: bool, sent: bool)
  {
    |es| >= 4 &&
    es[0] == Status(LaunchingText) &&
    es[|es| - 1] == Status(ClosedText) &&
    es[|es| - 2] == Status(Text(Says(BrowserClosed))) &&
    es[|es| - 3] == Status(OutcomeText(loggedIn, sent)) &&
    Outcomes(es) == 1 &&
    (es[|es| - 3] == Status(SentText) <==> loggedIn && sent)
  }

  /** A task's stream has that shape once `quit` relays its one message. */
  lemma TaskStreamShaped(read: string -> Option<string>, login: seq<Effect>, loggedIn: bool,
                         compose: seq<Effect>, sent: bool, quit: seq<Effect>)
    requires Relay(read, quit) == [Status(Text(Says(BrowserClosed)))]
    ensures TaskShaped(TaskStream(read, login, loggedIn, compose, sent, quit), loggedIn, sent)
  {
    TaskStreamEnds(read, login, loggedIn, compose, sent, quit);
    TaskStreamOneOutcome(read, login, loggedIn, compose, sent, quit);
    OutcomeTextIsOutcome(loggedIn, sent);
  }

  /** The events of every whole task have that shape. */
  lemma TaskOutcomeOnce(read: string -> Option<string>, user: string, pass: string, b: Browser,
                        to: string, subject: string, body: string)
    ensures TaskShaped(TaskEvents(read, user, pass, b, to, subject, body),
                       LoginRun(user, pass, b).flow == Done(true),
                       ComposeRun(user, pass, b, to, subject, body).flow == Done(true))
  {
    var login := LoginRun(user, pass, b);
    var compose := ComposeRun(user, pass, b, to, subject, body);
    var last := BeforeQuit(user, pass, b, to, subject, body);
    QuitRelayed(read, b, last);
    TaskStreamShaped(read, After(login.log, SetupFx), login.flow == Done(true),
                     After(compose.log, login.log), compose.flow == Done(true),
                     After(QuitFx(TaskRecorder, Some(b), last), last));
  }

  // ---------------------------------------------------------------------
  // Inbound requests.

  /** The fields of a `send_email` request. */
  datatype Request = Request(to: string, subject: string, body: string)

  /** Whether a payload field is present and not empty. */
  predicate Filled(data: map<string, string>, key: string)
  {
    key in data && data[key] != ""
  }

  /** The guard of `handle_send_email`: a request only when all three
      fields are present and not empty. */
  function SendRequest(data: map<string, string>): (r: Option<Request>)
    ensures r.Some? <==> Filled(data, "to") && Filled(data, "subject") && Filled(data, "body")
    ensures r.Some? ==> r.value.to == data["to"] && r.value.subject == data["subject"] && r.value.body == data["body"]
  {
    if Filled(data, "to") && Filled(data, "subject") && Filled(data, "body") then
      Some(Request(data["to"], data["subject"], data["body"]))
    else None
  }

  function PreparingText(to: string): string
  {
    "📨 Preparing to send email to " + to + "..."
  }

  function GeneratingText(intent: string): string
  {
    "🧠 Generating email for: '" + intent + "'..."
  }

  // ---------------------------------------------------------------------
  // `serve_socketio_js`.

  /** The response of the script route: the file at `path`, or a 404. */
  datatype Response = Serve(path: string) | NotFound(body: string, status: nat)

  /** The three places the client script is looked for, in order. */
  function ScriptPaths(frontend: string): seq<string>
  {
    [Join(frontend, "socket.io.js"),
     Join(frontend, "socket.io.min.js"),
     Join(Join(Join(Join(Join(frontend, ".."), "node_modules"), "socket.io-client"), "dist"), "socket.io.js")]
  }

  /** The loop of `serve_socketio_js` over some candidate paths: the first
      one that exists is served; only when none exists is the answer a 404.
      `present(p)` tells whether p exists. */
  method ServeFirst(present: string -> bool, paths: seq<string>) returns (r: Response)
    ensures r.Serve? ==>
      exists k :: 0 <= k < |paths| && r.path == paths[k] && present(r.path) &&
        forall j :: 0 <= j < k ==> !present(paths[j])
    ensures r.NotFound? <==> forall j :: 0 <= j < |paths| ==> !present(paths[j])
    ensures r.NotFound? ==> r == NotFound("socket.io.js not found", 404)
  {
    var i := 0;
    while i < |paths|
      invariant 0 <= i <= |paths|
      invariant forall j :: 0 <= j < i ==> !present(paths[j])
    {
      if present(paths[i]) {
        return Serve(paths[i]);
      }
      i := i + 1;
    }
    return NotFound("socket.io.js not found", 404);
  }

  /** `serve_socketio_js()`: the candidates are tried in the order of
      `ScriptPaths`. */
  method ServeSocketIoJs(present: string -> bool, frontend: string) returns (r: Response)
    ensures r.Serve? ==>
      exists k :: 0 <= k < |ScriptPaths(frontend)| && r.path == ScriptPaths(frontend)[k] && present(r.path) &&
        forall j :: 0 <= j < k ==> !present(ScriptPaths(frontend)[j])
    ensures r.NotFound? <==> forall j :: 0 <= j < |ScriptPaths(frontend)| ==> !present(ScriptPaths(frontend)[j])
    ensures r.NotFound? ==> r == NotFound("socket.io.js not found", 404)
  {
    r := ServeFirst(present, ScriptPaths(frontend));
  }

  // ---------------------------------------------------------------------
  // The server.

  class SocketServer {
    /** `GMAIL_USER` and `GMAIL_PASS`. */
    const user: string
    const pass: string
    /** The base64 text of a file, or None when reading it raises. */
    const read: string -> Option<string>
    /** `generate_email`: the e-mail generated for an intent. */
    const generate: string -> map<string, string>

    /** Every event sent so far, in order. */
    var events: seq<Event>
    /** The intents handed to `generate_email`, in order. */
    var prompts: seq<string>
    /** How many agents were built and how many were quit. */
    var built: nat
    var quitted: nat

    /** Every agent the server built has been quit. */
    predicate Valid()
      reads this
    {
      built == quitted
    }

    constructor (user: string, pass: string, read: string -> Option<string>, generate: string -> map<string, string>)
      ensures this.user == user && this.pass == pass && this.read == read && this.generate == generate
      ensures events == [] && prompts == [] && built == 0 && quitted == 0
      ensures Valid()
    {
      this.user := user;
      this.pass := pass;
      this.read := read;
      this.generate := generate;
      events := [];
      prompts := [];
      built := 0;
      quitted := 0;
    }

    /** `emit_status(text, image_path)`. */
    method EmitStatus(text: string, image: Option<string>)
      modifies this
      ensures events == old(events) + StatusEvents(read, text, image)
      ensures prompts == old(prompts) && built == old(built) && quitted == old(quitted)
    {
      events := events + [Broadcast(TextChannel, text)];
      if image.Some? && image.value != "" {
        match read(image.value)
        case Some(payload) =>
          events := events + [Broadcast(ImageChannel, ImagePrefix + payload)];
        case None =>
          events := events + [Broadcast(TextChannel, ImageWarning + BaseName(image.value))];
      }
    }

    /** `emit_status(text)` without an image. */
    method Announce(text: string)
      modifies this
      ensures events == old(events) + [Status(text)]
      ensures prompts == old(prompts) && built == old(built) && quitted == old(quitted)
    {
      EmitStatus(text, None);
      PlainStatus(read, text);
    }

    /** Hands one effect of an agent on: a message goes to `emit_status`. */
    method RelayEffect(e: Effect)
      modifies this
      ensures events == old(events) + EffectEvents(read, e)
      ensures prompts == old(prompts) && built == old(built) && quitted == old(quitted)
    {
      match e {
        case Emit(m, image) => EmitStatus(Text(m), image);
        case _ =>
      }
    }

    /** Hands every effect of `es` that is a message to `emit_status`, in
        order. */
    method RelayAll(es: seq<Effect>)
      modifies this
      ensures events == old(events) + Relay(read, es)
      ensures prompts == old(prompts) && built == old(built) && quitted == old(quitted)
      decreases |es|
    {
      if es == [] {
        assert old(events) + [] == old(events);
      } else {
        var front := es[..|es| - 1];
        RelayAll(front);
        RelayEffect(es[|es| - 1]);
        AppendAssoc(old(events), Relay(read, front), EffectEvents(read, es[|es| - 1]));
      }
    }

    /** Hands every message an agent recorded from position `from` on to
        `emit_status`. */
    method RelayFrom(agent: BrowserAgent, from: nat)
      requires from <= |agent.log|
      modifies this
      ensures events == old(events) + Relay(read, agent.log[from..])
      ensures prompts == old(prompts) && built == old(built) && quitted == old(quitted)
    {
      RelayAll(agent.log[from..]);
    }

    /** `agent.login_to_gmail()` on a fresh agent, its messages relayed. */
    method LoginStep(agent: BrowserAgent, browser: Browser) returns (loggedIn: bool)
      requires agent.log == SetupFx && agent.driver == Some(browser)
      requires agent.email == user && agent.password == pass && agent.Rec() == TaskRecorder
      modifies this, agent
      ensures agent.driver == Some(browser)
      ensures agent.log == LoginRun(user, pass, browser).log
      ensures loggedIn == (LoginRun(user, pass, browser).flow == Done(true))
      ensures events == old(events) + Relay(read, After(agent.log, SetupFx))
      ensures prompts == old(prompts) && built == old(built) && quitted == old(quitted)
    {
      loggedIn := agent.LoginToGmail();
      LoginGrows(TaskRecorder, Some(browser), user, pass, SetupFx);
      RelayFrom(agent, |SetupFx|);
    }

    /** `agent.compose_and_send_email(...)` after a login, its messages relayed. */
    method ComposeStep(agent: BrowserAgent, browser: Browser, to: string, subject: string, body: string)
      returns (sent: bool)
      requires agent.log == LoginRun(user, pass, browser).log && agent.driver == Some(browser)
      requires agent.Rec() == TaskRecorder
      modifies this, agent
      ensures agent.driver == Some(browser)
      ensures agent.log == ComposeRun(user, pass, browser, to, subject, body).log
      ensures sent == (ComposeRun(user, pass, browser, to, subject, body).flow == Done(true))
      ensures events == old(events) + Relay(read, After(agent.log, LoginRun(user, pass, browser).log))
      ensures prompts == old(prompts) && built == old(built) && quitted == old(quitted)
    {
      var mark := |agent.log|;
      sent := agent.ComposeAndSendEmail(to, subject, body);
      ComposeGrows(TaskRecorder, Some(browser), to, subject, body, LoginRun(user, pass, browser).log);
      RelayFrom(agent, mark);
    }

    /** `agent.quit()`, its message relayed. */
    method CloseStep(agent: BrowserAgent, browser: Browser)
      requires agent.driver == Some(browser) && agent.Rec() == TaskRecorder
      modifies this, agent
      ensures agent.driver == None
      ensures events == old(events) + Relay(read, After(QuitFx(TaskRecorder, Some(browser), old(agent.log)), old(agent.log)))
      ensures prompts == old(prompts) && built == old(built) && quitted == old(quitted)
    {
      var mark := |agent.log|;
      ghost var last := agent.log;
      agent.Quit();
      QuitGrows(TaskRecorder, Some(browser), last);
      RelayFrom(agent, mark);
    }

    /** `run_browser_task` after a successful login: compose and send,
        then announce the outcome. */
    method SendStep(agent: BrowserAgent, browser: Browser, to: string, subject: string, body: string)
      returns (ok: bool)
      requires agent.log == LoginRun(user, pass, browser).log && agent.driver == Some(browser)
      requires agent.Rec() == TaskRecorder
      modifies this, agent
      ensures agent.driver == Some(browser)
      ensures agent.log == ComposeRun(user, pass, browser, to, subject, body).log
      ensures ok == (ComposeRun(user, pass, browser, to, subject, body).flow == Done(true))
      ensures events == old(events) + MiddleStream(read, true, After(agent.log, old(agent.log)), ok)
      ensures prompts == old(prompts) && built == old(built) && quitted == old(quitted)
    {
      Announce(LoggedInText);
      ok := ComposeStep(agent, browser, to, subject, body);
      ghost var c := Relay(read, After(agent.log, old(agent.log)));
      Announce(if ok then SentText else SendFailedText);
      AppendAssoc(old(events), [Status(LoggedInText)], c);
      AppendAssoc(old(events), [Status(LoggedInText)] + c, [Status(OutcomeText(true, ok))]);
    }

    /** The part of `run_browser_task` after the login: compose and send
        when it succeeded, then announce the outcome. */
    method MiddleStep(agent: BrowserAgent, browser: Browser, loggedIn: bool,
                      to: string, subject: string, body: string)
      returns (sent: Option<bool>)
      requires agent.log == LoginRun(user, pass, browser).log && agent.driver == Some(browser)
      requires agent.Rec() == TaskRecorder
      requires loggedIn == (LoginRun(user, pass, browser).flow == Done(true))
      modifies this, agent
      ensures agent.driver == Some(browser)
      ensures agent.log == BeforeQuit(user, pass, browser, to, subject, body)
      ensures sent.Some? <==> loggedIn
      ensures sent.Some? ==> ComposeRun(user, pass, browser, to, subject, body).flow == Done(sent.value)
      ensures events == old(events) + MiddleStream(read, loggedIn,
                  After(ComposeRun(user, pass, browser, to, subject, body).log, LoginRun(user, pass, browser).log),
                  ComposeRun(user, pass, browser, to, subject, body).flow == Done(true))
      ensures prompts == old(prompts) && built == old(built) && quitted == old(quitted)
    {
      if loggedIn {
        var ok := SendStep(agent, browser, to, subject, body);
        sent := Some(ok);
      } else {
        sent := None;
        Announce(LoginFailedText);
      }
    }

    /** `agent.quit()` and the closing message of `run_browser_task`. */
    method ClosingStep(agent: BrowserAgent, browser: Browser)
      requires agent.driver == Some(browser) && agent.Rec() == TaskRecorder
      modifies this, agent
      ensures agent.driver == None
      ensures events == old(events) + ClosingStream(read, After(QuitFx(TaskRecorder, Some(browser), old(agent.log)), old(agent.log)))
      ensures prompts == old(prompts) && built == old(built) && quitted == old(quitted) + 1
    {
      ghost var last := agent.log;
      CloseStep(agent, browser);
      quitted := quitted + 1;
      Announce(ClosedText);
      AppendAssoc(old(events), Relay(read, After(QuitFx(TaskRecorder, Some(browser), last), last)), [Status(ClosedText)]);
    }

    /** `run_browser_task(to, subject, body)` on a freshly started browser:
        one agent is built and quit; the e-mail is composed only after a
        successful login. */
    method RunBrowserTask(to: string, subject: string, body: string, browser: Browser)
      returns (loggedIn: bool, sent: Option<bool>)
      modifies this
      ensures loggedIn == (LoginRun(user, pass, browser).flow == Done(true))
      ensures sent.Some? <==> loggedIn
      ensures sent.Some? ==> ComposeRun(user, pass, browser, to, subject, body).flow == Done(sent.value)
      ensures events == old(events) + TaskEvents(read, user, pass, browser, to, subject, body)
      ensures built == old(built) + 1 && quitted == old(quitted) + 1 && prompts == old(prompts)
    {
      var agent := new BrowserAgent(user, pass, DefaultShotDir, true, browser);
      built := built + 1;
      Announce(LaunchingText);
      ghost var so := [Status(LaunchingText)];
      loggedIn := LoginStep(agent, browser);
      ghost var rl := Relay(read, After(agent.log, SetupFx));
      AppendAssoc(old(events), so, rl);
      so := so + rl;
      ghost var login := LoginRun(user, pass, browser);
      ghost var compose := ComposeRun(user, pass, browser, to, subject, body);
      ghost var m := MiddleStream(read, loggedIn, After(compose.log, login.log), compose.flow == Done(true));
      sent := MiddleStep(agent, browser, loggedIn, to, subject, body);
      AppendAssoc(old(events), so, m);
      so := so + m;
      ghost var last := agent.log;
      ghost var c := ClosingStream(read, After(QuitFx(TaskRecorder, Some(browser), last), last));
      ClosingStep(agent, browser);
      AppendAssoc(old(events), so, c);
      TaskStreamPhases(read, After(login.log, SetupFx), loggedIn, After(compose.log, login.log),
                       compose.flow == Done(true), After(QuitFx(TaskRecorder, Some(browser), last), last));
    }

    /** `handle_send_email(data)`: an incomplete request is answered with one
        rejection and builds no agent; a complete one is acknowledged and
        runs the browser task. */
    method HandleSendEmail(data: map<string, string>, browser: Browser)
      modifies this
      ensures SendRequest(data).None? ==>
        events == old(events) + [Reply(TextChannel, MissingFieldsText)] &&
        built == old(built) && quitted == old(quitted)
      ensures SendRequest(data).Some? ==>
        var r := SendRequest(data).value;
        events == old(events) + [Reply(TextChannel, PreparingText(r.to))]
                  + TaskEvents(read, user, pass, browser, r.to, r.subject, r.body) &&
        built == old(built) + 1 && quitted == old(quitted) + 1
      ensures prompts == old(prompts)
    {
      var request := SendRequest(data);
      if request.None? {
        events := events + [Reply(TextChannel, MissingFieldsText)];
        return;
      }
      var r := request.value;
      events := events + [Reply(TextChannel, PreparingText(r.to))];
      var _, _ := RunBrowserTask(r.to, r.subject, r.body, browser);
    }

    /** `handle_generate(data)`: an empty intent is answered with one
        rejection and nothing is generated; otherwise one acknowledgement
        and then exactly one reply carrying the generated e-mail. */
    method HandleGenerate(data: map<string, string>)
      modifies this
      ensures ("intent" !in data || data["intent"] == "") ==>
        events == old(events) + [Reply(TextChannel, MissingIntentText)] && prompts == old(prompts)
      ensures "intent" in data && data["intent"] != "" ==>
        events == old(events) + [Reply(TextChannel, GeneratingText(data["intent"])), GeneratedReply(generate(data["intent"]))] &&
        prompts == old(prompts) + [data["intent"]]
      ensures built == old(built) && quitted == old(quitted)
    {
      var intent := if "intent" in data then data["intent"] else "";
      if intent == "" {
        events := events + [Reply(TextChannel, MissingIntentText)];
        return;
      }
      events := events + [Reply(TextChannel, GeneratingText(intent))];
      prompts := prompts + [intent];
      var result := generate(intent);
      events := events + [GeneratedReply(result)];
    }

    /** Handling requests keeps every built agent quit. */
    method HandleRequests(requests: seq<map<string, string>>, browsers: seq<Browser>)
      requires Valid() && |browsers| == |requests|
      modifies this
      ensures Valid()
      ensures built == old(built) + |SendRequests(requests)|
    {
      var i := 0;
      while i < |requests|
        invariant 0 <= i <= |requests|
        invariant Valid()
        invariant built == old(built) + |SendRequests(requests[..i])|
      {
        assert requests[..i + 1] == requests[..i] + [requests[i]];
        SendRequestsSnoc(requests[..i], requests[i]);
        HandleSendEmail(requests[i], browsers[i]);
        i := i + 1;
      }
      assert requests[..i] == requests;
    }
  }

  /** The complete `send_email` requests among some payloads. */
  function SendRequests(requests: seq<map<string, string>>): seq<Request>
    decreases |requests|
  {
    if requests == [] then []
    else
      var d := requests[|requests| - 1];
      SendRequests(requests[..|requests| - 1]) + (if SendRequest(d).Some? then [SendRequest(d).value] else [])
  }

  lemma SendRequestsSnoc(requests: seq<map<string, string>>, d: map<string, string>)
    ensures SendRequests(requests + [d]) == SendRequests(requests) + (if SendRequest(d).Some? then [SendRequest(d).value] else [])
  {
    assert (requests + [d])[..|requests|] == requests;
  }
}
