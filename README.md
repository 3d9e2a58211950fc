# Gmail automation agent: a verified model of its control logic

The system is a small web service that sends e-mail through the Gmail web
client by driving a headless Chrome session. The front end talks to it over a
Socket.IO connection.
- A `send_email` request builds a `BrowserAgent`, signs in, composes and sends
  the message, then closes the browser.
- A `generate_email` request asks a text generator for a draft.
- Every step is reported back to the client as a status text, with a
  screenshot where one was taken.

This project models the control flow of that service in Dafny. The browser is
an oracle: for every driver call it says whether the call returns normally and
what an exception's text would be. The oracle also gives the text of each
accepted-recipient chip at a given moment and which markers an explicit wait
sees. Nothing else about Selenium is modelled.

The project has these modules:

- `Search` (search.dfy): "first success in a list", which every selector loop
  and retry loop is an instance of.
- `Paths` (paths.dfy): `os.path.join` and `os.path.basename` on strings, and
  the decimal rendering of a counter.
- `Driver` (driver.dfy): the browser oracle, the driver calls the agent makes,
  and the selector lists of each input, in the source's order.
- `Messages` (messages.dfy): the agent's status messages as `Msg`
  value (a status badge plus a detail), rendered to the source's text by `Text`.
- `Effects` (effects.dfy): each operation and each phase of an operation as a
  function from the agent's log to the log after it, with how the phase ends.
  A phase either lets the next phase run, makes the operation return a
  boolean, or raises into the operation's catch-all handler.
- `Agent` (agent.dfy): the class `BrowserAgent`.
  - It has a `driver` field, which `quit` sets to None, and an append-only
    `log` of the driver calls it attempted and the messages it emitted.
  - Every source loop is a `while`/`for` loop with its invariants.
  - Each method is proved to leave exactly the log the matching `Effects`
    function describes and to return that function's result.
- `AgentFacts` (agent_lemmas.dfy) and `LogGrowth` (growth.dfy): what those
  functions promise. This covers the selector order, the send fallback chain,
  the recipient sub-protocol, the error screenshots, login and send outcomes,
  and append-only logs.
- `Server` (server.dfy): the request handlers of backend/main.py.
  - The class `SocketServer` keeps the stream of socket events, the intents
    handed to the generator, and counters of agents built and quit.
  - It also models `emit_status`, `run_browser_task` (one agent built and quit
    per task, with exactly one outcome message) and the Socket.IO script route.

## Model

| member | source | states |
|---|---|---|
| Search.FirstTrueIsFirst | backend/browser_agent.py:173-181 | the index a first-success search keeps is preceded only by failures, and there is none exactly when every element fails |
| Search.FirstSuccessBoundsAttempts | backend/browser_agent.py:272-277 | when attempt k is the first success, the search keeps k and has made k+1 attempts |
| Search.NoSuccessTriesAll | backend/browser_agent.py:272-282 | when nothing succeeds, the search keeps nothing and has made every attempt |
| Paths.Join | backend/browser_agent.py:50 | `os.path.join`: an absolute second part replaces the first; otherwise the result starts with the directory and ends with the file name |
| Paths.BaseName | backend/main.py:31 | `os.path.basename`: the longest suffix without a separator, preceded by a separator when it is not the whole path |
| Paths.BaseNameOfJoin | backend/main.py:31 | the base name of `join(dir, file)` is `file` whenever `file` holds no separator |
| Paths.NatText | backend/browser_agent.py:275 | the decimal text of a counter is non-empty, all digits, and has no leading zero |
| Paths.NatTextValue | backend/browser_agent.py:275 | the text of a counter, read back as decimal digits, is that counter |
| Messages.Text | backend/browser_agent.py:38-42 | every status text is non-empty and starts with its badge, so without a callback `_emit` always prints |
| Driver.SuggestionSelectors | backend/browser_agent.py:329-337 | the suggestion candidates are seven selectors, four of them built from the typed address |
| Agent.BrowserAgent.constructor | backend/browser_agent.py:16-36 | a new agent keeps its credentials, directory and callback, holds the live driver, and has issued the webdriver mask and the cookie deletion |
| Agent.BrowserAgent.Emit | backend/browser_agent.py:38-42 | a message goes to the callback with its image when there is one, and is printed otherwise |
| Agent.BrowserAgent.WaitAndScreenshot | backend/browser_agent.py:44-56 | without a driver it reports that and returns None; otherwise it saves `dir/name.png`, reports success with the image or the failure text, and returns the path either way |
| Agent.BrowserAgent.CheckIfRecipientAccepted | backend/browser_agent.py:58-81 | a read with no `modifies`; True exactly when the driver is live and some chip selector's text is non-empty and holds an `@` |
| Agent.BrowserAgent.HumanType | backend/browser_agent.py:83-95 | a missing element is reported; otherwise it clears, then sends one key per character, stopping with a "Typing failed" message at the first call that raises |
| Agent.BrowserAgent.FindFirst | backend/browser_agent.py:172-181 | a selector loop returns the first candidate that resolves and leaves exactly the log of the candidates it tried |
| Agent.BrowserAgent.FindAndClick | backend/browser_agent.py:338-350 | a loop whose click is in the same try: a candidate wins when it resolves and the click on it returns |
| Agent.BrowserAgent.ClickWithRetry | backend/browser_agent.py:486-496 | up to three click attempts, each reported, ending at the first that returns |
| Agent.BrowserAgent.DispatchSend | backend/browser_agent.py:484-529 | click retries, then the JavaScript click, then ActionChains, then Ctrl+Enter, each only when all earlier ones raised; False only when the last Ctrl+Enter raises |
| Agent.BrowserAgent.AcceptRecipient | backend/browser_agent.py:325-381 | the suggestion, Enter, Tab, click-outside sequence, with exceptions from Enter or Tab going to the fallback Enter |
| Agent.BrowserAgent.FillField | backend/browser_agent.py:302-323 | resolve the input, or report it missing with its error screenshot and end with False; else focus, type and take the step screenshot |
| Agent.BrowserAgent.FillRecipient | backend/browser_agent.py:291-381 | filling the To field, then the acceptance sub-protocol |
| Agent.BrowserAgent.OpenCompose | backend/browser_agent.py:231-289 | navigate when not on the mail client, wait for the main region, find the compose button (False when missing), click it with three attempts (False when all raise), wait for the compose window |
| Agent.BrowserAgent.FillSubject | backend/browser_agent.py:383-410 | the subject step, ending with False after `error_subject_field_not_found` when no candidate resolves |
| Agent.BrowserAgent.FillBody | backend/browser_agent.py:412-440 | the body step, ending with False after `error_body_area_not_found` when no candidate resolves |
| Agent.BrowserAgent.SendMessage | backend/browser_agent.py:442-544 | without a button, Ctrl+Enter decides the result; with one, the dispatch chain, then True whether the confirmation shows or the wait times out |
| Agent.BrowserAgent.Conclude | backend/browser_agent.py:545-548 | an exception that reached the handler is reported, the operation's error screenshot is taken, and the result is False; any other ending is kept |
| Agent.BrowserAgent.ComposeSteps | backend/browser_agent.py:230-544 | the compose phases run in order, each only when the previous one let the workflow go on |
| Agent.BrowserAgent.ComposeAndSendEmail | backend/browser_agent.py:225-548 | without a driver it reports that and returns False; otherwise the phases under the catch-all handler |
| Agent.BrowserAgent.EnterIdentifier | backend/browser_agent.py:136-158 | open the sign-in page, type the address, click Next and take the numbered screenshots; any raising call goes to the handler |
| Agent.BrowserAgent.EnterPassword | backend/browser_agent.py:160-218 | find the password field (False after `error_password_field_not_found` when missing), type, submit, wait for a login marker: True when seen, False after `error_login_failed` on timeout |
| Agent.BrowserAgent.LoginSteps | backend/browser_agent.py:135-218 | the identifier step, then the password step when the first let the workflow go on |
| Agent.BrowserAgent.LoginToGmail | backend/browser_agent.py:130-223 | without a driver it reports that and returns False; otherwise the login steps under the catch-all handler |
| Agent.BrowserAgent.ClickShowPassword | backend/browser_agent.py:97-128 | tries the show-password candidates in order; True at the first that resolves and takes the click, else reports that it carries on and returns False |
| Agent.BrowserAgent.Quit | backend/browser_agent.py:550-566 | on a live driver it attempts close, then quit, whatever they raise, and reports the browser closed; the driver is None afterwards, and a call without a driver changes nothing |
| AgentFacts.ScanHitIsFirst | backend/browser_agent.py:172-181 | the candidate a selector loop keeps resolves and every earlier one does not; it keeps none exactly when no candidate resolves |
| AgentFacts.SelectorStopsAtFirst | backend/browser_agent.py:172-181 | when candidate k is the first that resolves, the loop looks up exactly candidates 0..k, in order, and nothing later |
| AgentFacts.SelectorExhausted | backend/browser_agent.py:172-186 | when no candidate resolves, the loop looks up every candidate, in order, and keeps none |
| AgentFacts.ScanMissesAreSilent | backend/browser_agent.py:302-311 | outside the send loop, a candidate that does not resolve is passed over without a message |
| AgentFacts.SendMissesAreReported | backend/browser_agent.py:457-467 | the send loop reports each failing candidate with its position counted from 1 |
| AgentFacts.ClickCallsAreLookups | backend/browser_agent.py:338-350 | a locate-and-click loop only appends lookups and clicks of its own candidates |
| AgentFacts.RetryTrace | backend/browser_agent.py:486-496 | the retry loop clicks attempts 0..k, where k is the first click that returns, or all three |
| AgentFacts.TypingTrace | backend/browser_agent.py:83-95 | typing makes the clear, then one keystroke per character in order, stopping after the first that raises; it reports a failure exactly when one raised |
| AgentFacts.MissingInputFails | backend/browser_agent.py:302-316 | when no candidate of an input resolves, all are tried, the input is reported missing, its error screenshot is taken, and the operation ends with False |
| AgentFacts.MissingInputShotOnce | backend/browser_agent.py:313-316 | that screenshot is the only `error_` screenshot the step takes |
| AgentFacts.RecipientMissing | backend/browser_agent.py:313-316 | a missing To field ends the operation with False and exactly one `error_to_field_not_found` screenshot |
| AgentFacts.SubjectMissingFails | backend/browser_agent.py:401-404 | a missing subject field ends the operation with False and exactly one `error_subject_field_not_found` screenshot |
| AgentFacts.BodyMissingFails | backend/browser_agent.py:431-434 | a missing body area ends the operation with False and exactly one `error_body_area_not_found` screenshot |
| AgentFacts.HandlerDiagnoses | backend/browser_agent.py:545-548 | an exception that reaches a handler ends the operation with False, after the failure message and the handler's screenshot |
| AgentFacts.HandlerShotOnce | backend/browser_agent.py:545-548 | the handler's screenshot is the one `error_` screenshot it adds |
| AgentFacts.HandlerKeepsOtherEndings | backend/browser_agent.py:220-223 | a phase that did not raise leaves the handler with nothing to do |
| AgentFacts.DispatchFollowsChain | backend/browser_agent.py:484-529 | dispatch tries the mechanisms in the chain's order, stops after the first that returns, and succeeds exactly when one returned |
| AgentFacts.SendWithoutButton | backend/browser_agent.py:468-483 | with no send button, every send candidate is tried, `error_send_button_not_found` is taken, Ctrl+Enter is tried, and the result is whether it returned |
| AgentFacts.SendWithoutButtonShot | backend/browser_agent.py:468-470 | that screenshot is the only `error_` screenshot of the send step in this case |
| AgentFacts.SendOutcome | backend/browser_agent.py:442-544 | when the send step reports True, and that an exception escapes it only from the confirmation wait |
| AgentFacts.SendIsOptimistic | backend/browser_agent.py:541-544 | a confirmation wait that times out still ends the send with True and the "likely sent" message |
| AgentFacts.SendConfirmed | backend/browser_agent.py:530-540 | the confirmed path: the first resolving button, the chain up to its first success, the wait, the success screenshot and message |
| AgentFacts.AcceptanceTrace | backend/browser_agent.py:338-381 | after the suggestion scan, the sub-protocol makes exactly the calls its gates allow |
| AgentFacts.EnterOnlyWithoutSuggestion | backend/browser_agent.py:352-354 | Enter is pressed once exactly when no suggestion was clicked, and never otherwise |
| AgentFacts.TabOnlyAfterRejectedEnter | backend/browser_agent.py:356-360 | Tab is pressed at most once, and only right after an Enter that returned while no chip was accepted |
| AgentFacts.RefocusOnlyWhenRejected | backend/browser_agent.py:361-373 | click-outside-and-back happens at most once, as the last step, and only when the check just before it found no accepted chip |
| AgentFacts.RecipientNeverAborts | backend/browser_agent.py:313-381 | once the To field was typed, the recipient step always lets the workflow go on, whatever the sub-protocol meets; it never ends the operation with True |
| AgentFacts.FillNeverSucceeds | backend/browser_agent.py:302-323 | an input step never ends the operation with True |
| AgentFacts.OpenNeverSucceeds | backend/browser_agent.py:231-289 | opening the compose window never ends the operation with True |
| AgentFacts.ComposeTrueMeansSent | backend/browser_agent.py:225-548 | `compose_and_send_email` ends with a boolean, and True only when a live driver sent it: by Ctrl+Enter with no button, or by a dispatch mechanism followed by a wait that did not raise |
| AgentFacts.ComposeSendDecides | backend/browser_agent.py:225-548 | once the compose window is open and the three fields are filled, `compose_and_send_email` returns True exactly when the send step succeeds: Ctrl+Enter returned with no button, or a dispatch mechanism returned and the confirmation wait did not raise, so a timed-out wait still gives True |
| AgentFacts.ComposeButtonMissing | backend/browser_agent.py:266-269 | a missing compose button ends with False, the `error_compose_not_found` screenshot last, and no other `error_` screenshot |
| AgentFacts.ComposeClicksGiveUp | backend/browser_agent.py:272-281 | when all three compose clicks raise, the step ends with False after reporting the third failure |
| AgentFacts.ComposeExceptionDiagnosed | backend/browser_agent.py:545-548 | an exception escaping the compose phases is reported with its text, `error_email_failed_detailed` is taken, and the result is False |
| AgentFacts.IdentifierNeverEnds | backend/browser_agent.py:136-158 | the identifier step never decides the login; it lets it go on exactly when its four driver calls all return |
| AgentFacts.PasswordOutcome | backend/browser_agent.py:160-213 | the password step ends with True exactly when the field resolves, focus and submit return, and the login wait sees a marker |
| AgentFacts.LoginNeedsMarker | backend/browser_agent.py:130-223 | `login_to_gmail` ends with a boolean, and with True exactly when every sign-in call returned and one of the three post-login markers showed |
| AgentFacts.PasswordMissingFails | backend/browser_agent.py:183-186 | a missing password field ends the login with False and exactly one `error_password_field_not_found` screenshot, taken last |
| AgentFacts.LoginTimeoutDiagnosed | backend/browser_agent.py:215-218 | a login wait that times out ends with False, exactly one `error_login_failed` screenshot and the "extra verification" message |
| AgentFacts.LoginExceptionDiagnosed | backend/browser_agent.py:220-223 | an exception escaping the login phases is reported with its text, `error_login_exception` is taken, and the result is False |
| AgentFacts.NoDriverRefuses | backend/browser_agent.py:227-229 | without a driver, login, send, show-password and screenshot each report that they cannot run and make no driver call; the first three return False, the screenshot returns None, and `quit` does nothing |
| AgentFacts.ShowPasswordResult | backend/browser_agent.py:97-128 | `click_show_password` is True exactly when some candidate resolves and takes the click; it only looks up and clicks, and on False its last message says it carries on |
| AgentFacts.QuitClosesBoth | backend/browser_agent.py:550-566 | `quit` on a live driver attempts close and then quit, and its only message is that the browser was closed |
| AgentFacts.ShotImage | backend/browser_agent.py:49-56 | the screenshot returns `dir/name.png` either way; its message carries that path as the image only with a callback and a save that returned |
| AgentFacts.ShotBaseName | backend/browser_agent.py:50 | the base name of a screenshot path is `name.png` whenever the name holds no separator |
| LogGrowth.LoginGrows | backend/browser_agent.py:130-223 | `login_to_gmail` only appends to the agent's log |
| LogGrowth.ComposeGrows | backend/browser_agent.py:225-548 | `compose_and_send_email` only appends to the agent's log |
| LogGrowth.QuitGrows | backend/browser_agent.py:550-566 | `quit` only appends to the agent's log |
| Server.PlainStatus | backend/main.py:22-24 | without an image, `emit_status` sends the text event alone |
| Server.StatusEventsOrder | backend/main.py:22-31 | the text goes first; an image event with the `data:image/png;base64,` prefix follows only for a given, readable image; an unreadable one gives a warning text instead |
| Server.ShotWarningNamesFile | backend/main.py:30-31 | the warning for an unreadable screenshot names its file, `name.png` |
| Server.RelayHasNoOutcome | backend/main.py:35-39 | nothing an agent says through `emit_status` is one of the outcome messages of `run_browser_task` |
| Server.TaskStreamPhases | backend/main.py:40-57 | a task's events are the launch message, the login's messages, the compose phase and outcome, then the closing messages |
| Server.TaskStreamOneOutcome | backend/main.py:42-50 | a task's stream holds exactly one outcome message |
| Server.TaskOutcomeOnce | backend/main.py:40-57 | every task's event stream starts with the launch message and holds exactly one outcome, the success message exactly when login and send both returned True; it ends with the agent's and the server's "closed" messages |
| Server.SendRequest | backend/main.py:61-67 | a request is accepted exactly when `to`, `subject` and `body` are all present and non-empty, and then carries their values |
| Server.ServeFirst | backend/main.py:97-102 | serves the first existing path; a 404 with "socket.io.js not found" exactly when none exists |
| Server.ServeSocketIoJs | backend/main.py:89-102 | the script route over its three candidate paths, in their order |
| Server.SocketServer.constructor | backend/main.py:13-18 | a server starts with no events, no generator calls and no agents |
| Server.SocketServer.EmitStatus | backend/main.py:22-31 | appends exactly the events of `emit_status` and nothing else |
| Server.SocketServer.RunBrowserTask | backend/main.py:34-57 | builds one agent and quits it once; composes only after a successful login; appends exactly the events `TaskEvents` describes |
| Server.SocketServer.HandleSendEmail | backend/main.py:59-69 | an incomplete request gets one rejection reply and builds no agent; a complete one gets the "Preparing" reply and then the events of `run_browser_task` |
| Server.SocketServer.HandleGenerate | backend/main.py:71-79 | a missing or empty `intent` field gets one rejection reply and nothing is generated; otherwise one "Generating" reply, then exactly one `generated_email` reply with the generator's result |
| Server.SocketServer.HandleRequests | backend/main.py:59-69 | any sequence of `send_email` requests keeps the number of agents quit equal to the number built, and builds one per complete request |

## Left out

- Selenium semantics are not modelled: XPath evaluation, `WebDriverWait` polling, `element_to_be_clickable` and the Chrome options. The browser oracle says only whether each call returns and what its exception text is.
- The chip texts that `check_if_recipient_accepted` reads come from the oracle, keyed by the log position and the selector. How a page produces them is not modelled.
- The check adds nothing to the log, so two checks with no effect between them read the same chips. When Tab is skipped, the checks at backend/browser_agent.py:357 and 362 therefore always agree. The model does not capture a chip changing between them.
- `time.sleep` and `random.uniform` pacing are left out. They add no observable control flow.
- The XPath strings built from the typed address (backend/browser_agent.py:330-333) are kept as plain concatenations. Their escaping is not modelled.
- Driver calls that follow one another with no message between them and share one handler are modelled as one call. Examples are click-then-clear on an input and scroll-into-view-then-click.
- Reading the current URL (backend/browser_agent.py:232) is modelled as a call that never raises. For that call the oracle answers whether the URL is a mail URL.
- The constructor does not model a setup call that raises. These are the Chrome launch (backend/browser_agent.py:34), the `execute_script` that masks the webdriver flag (backend/browser_agent.py:35) and `delete_all_cookies` (backend/browser_agent.py:36). The model builds the agent on a live browser and records both setup calls as issued. If any of them raises, the exception escapes `run_browser_task` before its `try` (backend/main.py:35-40). No "Launching" message is then sent, `quit` never runs and the closing message never appears. The model does not capture that run.
- `print` output of main.py is not modelled.
- base64 encoding and file reads in `emit_status` are the oracle `read`. `os.path.exists` is the oracle `present`.
- `email_generator.generate_email` is the oracle `generate`. backend/email_generator.py is not part of this model.
- The "Unexpected error" branch of `run_browser_task` (backend/main.py:51-54) is left out. Both agent operations catch every exception themselves, so only a failing socket emit could reach it, and socket transport is not modelled.
- The emit callback is taken never to raise. Two status messages exist only for a raising callback and are not modelled, and neither is their handler:
  - "Show password not available", from the outer handler of `click_show_password` (backend/browser_agent.py:126-128);
  - "Error closing browser", from the outer handler of `quit` (backend/browser_agent.py:564-566).
- A raising callback would also end a selector-loop pass early, since the loops catch everything. That is not modelled either.
- Socket.IO transport, the threading mode, and the Flask routes `index`, `favicon` and `serve_static` are network plumbing and are not modelled.
- Payload fields are modelled as strings. Non-string JSON values are not modelled.
- `GMAIL_USER` and `GMAIL_PASS` being unset (None) is not modelled. They are taken as strings.
- The `"All send methods failed"` branch (backend/browser_agent.py:527-529) has no counterpart in the model. Every path that leaves `clicked` false has already returned, which `Agent.BrowserAgent.DispatchSend` asserts at that point.
- Agent.BrowserAgent.HumanType: an element of None is reported, but no call site passes one. Every input is resolved before it is typed into.
