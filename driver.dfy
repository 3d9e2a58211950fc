/** The browser session as the agent sees it: an environment that answers,
    for every driver call the agent makes, whether the call returns normally
    or raises. Nothing about how the page is rendered or how an XPath is
    evaluated is modelled; the answers are given. */
module Driver {
  import opened Search

  /** Logical UI elements of the sign-in page and of the mail client. */
  datatype Field =
    | Identifier      // the e-mail input, id `identifierId`
    | IdentifierNext  // the button with id `identifierNext`
    | Password        // the password input
    | PasswordNext    // the button with id `passwordNext`
    | ShowPassword    // the "show password" control
    | ComposeButton
    | To              // the recipient input
    | Suggestion      // an entry of the recipient suggestion drop-down
    | Subject
    | Body
    | SendButton

  /** Pages the agent navigates to. */
  datatype Page = SignInPage | MailPage

  /** The explicit waits whose markers the agent polls for. */
  datatype Wait =
    | LoginMarkers    // the Compose label, a mail URL, or the main region
    | MainRegion      // `//div[@role='main']` before composing
    | ComposeWindow   // `//div[contains(@class, 'AD')]`
    | SentToast       // a "Message sent" span or a "sent" div

  /** Keystrokes of the recipient sub-protocol. */
  datatype Stroke =
    | CommitEnter     // Enter when no suggestion was clicked
    | AdvanceTab      // Tab when Enter did not get the address accepted
    | FallbackEnter   // Enter after the sub-protocol raised

  /** The two places where Ctrl+Enter is sent to the message body. */
  datatype Shortcut = NoSendButton | LastResort

  /** One driver call, or a group of calls that the source makes back to
      back under the same exception handler with no status message between
      them (such a group raises if any of its calls raises). */
  datatype Call =
    | MaskWebdriver                      // hide `navigator.webdriver`
    | DeleteCookies
    | Navigate(page: Page)               // driver.get
    | UrlOnMail                          // "mail.google.com" in driver.current_url
    | Save(name: string)                 // driver.save_screenshot for step tag `name`
    | Locate(field: Field, candidate: nat) // wait until candidate selector is clickable
    | Focus(field: Field)                // click and clear a resolved input
    | Click(field: Field, attempt: nat)  // click (find first, for the two Next buttons)
    | Clear(field: Field)                // element.clear() in human typing
    | Key(field: Field, index: nat, c: char) // one send_keys of a typed character
    | Await(wait: Wait)                  // the polling of an explicit wait
    | Press(stroke: Stroke)              // Enter or Tab in the recipient input
    | Refocus                            // click subject, click recipient, press Enter
    | ScriptClick                        // JavaScript click on the send button
    | ActionsClick                       // ActionChains move-and-click on the send button
    | CtrlEnter(site: Shortcut)          // click the body, then Ctrl+Enter
    | Close                              // driver.close()
    | Quit                               // driver.quit()

  /** The environment. `ok(c)` says that call `c` returns normally (for
      `UrlOnMail`: that the current URL is a mail URL); `error(c)` is the
      text of the exception when it does not. `chip(n, s)` is the
      `textContent` of the element that accepted-recipient selector `s`
      finds once the agent has produced `n` effects (None when the lookup
      raises or the attribute is absent). `marker(w, i)` says that the i-th
      condition of wait `w` becomes true within the wait's bound. */
  datatype Browser = Browser(
    ok: Call -> bool,
    error: Call -> string,
    chip: (nat, nat) -> Option<string>,
    marker: (Wait, nat) -> bool)

  /** How an explicit wait ends. */
  datatype WaitOutcome =
    | Seen       // some condition became true within the bound
    | TimedOut   // TimeoutException
    | Broke      // any other exception raised while polling

  /** Number of alternative conditions each wait accepts. */
  function Markers(w: Wait): nat
  {
    match w
    case LoginMarkers => 3
    case SentToast => 2
    case MainRegion => 1
    case ComposeWindow => 1
  }

  /** `WebDriverWait(...).until(EC.any_of(...))` over the wait's markers. */
  function Awaited(b: Browser, w: Wait): WaitOutcome
  {
    if !b.ok(Await(w)) then Broke
    else if exists i :: 0 <= i < Markers(w) && b.marker(w, i) then Seen
    else TimedOut
  }

  // Candidate selectors, in the order the agent tries them.

  const PasswordSelectors: seq<string> := [
    "//input[@name='password']",
    "//input[@type='password']",
    "//input[@aria-label='Enter your password']",
    "//input[contains(@aria-describedby, 'password')]",
    "//div[@id='password']//input",
    "//input[@autocomplete='current-password']",
    "//input[@name='Passwd']"]

  const ShowPasswordSelectors: seq<string> := [
    "//input[@type='checkbox'][@aria-label='Show password']",
    "//button[@aria-label='Show password']",
    "//span[contains(text(), 'Show password')]",
    "//div[contains(text(), 'Show password')]",
    "//input[@type='checkbox'][contains(@aria-describedby, 'password')]",
    "//button[contains(@class, 'show-password')]"]

  const ComposeSelectors: seq<string> := [
    "//div[contains(@class, 'T-I') and contains(@class, 'T-I-KE') and contains(@class, 'L3')]",
    "//div[@role='button' and contains(text(), 'Compose')]",
    "//div[contains(@class, 'z0') and contains(text(), 'Compose')]",
    "//div[contains(@class, 'aic') and contains(text(), 'Compose')]",
    "//div[text()='Compose']",
    "//button[contains(@aria-label, 'Compose')]"]

  const ToSelectors: seq<string> := [
    "//textarea[@name='to']",
    "//input[@name='to']",
    "//textarea[contains(@aria-label, 'To')]",
    "//input[contains(@aria-label, 'To')]",
    "//div[@aria-label='To']//textarea",
    "//div[@aria-label='To']//input"]

  /** Text t occurs in s starting at position k. */
  predicate OccursAt(s: string, k: nat, t: string)
  {
    k + |t| <= |s| && s[k..k + |t|] == t
  }

  /** The text spliced into a template occurs right after its prefix. */
  lemma Interpolated(prefix: string, t: string, suffix: string)
    ensures OccursAt(prefix + t + suffix, |prefix|, t)
  {
    assert (prefix + t + suffix)[|prefix|..|prefix| + |t|] == t;
  }

  /** The suggestion selectors interpolate the typed address (no escaping). */
  function SuggestionSelectors(to: string): (sels: seq<string>)
    ensures |sels| == 7
    ensures forall i :: 0 <= i < 4 ==> exists k :: OccursAt(sels[i], k, to)
  {
    var close := "')]";
    var sa := "//div[contains(@class, 'Sa') and contains(text(), '";
    var jd := "//div[contains(@class, 'Jd') and contains(text(), '";
    var option := "//div[contains(@role, 'option') and contains(text(), '";
    var span := "//span[contains(text(), '";
    var r := [sa + to + close,
              jd + to + close,
              option + to + close,
              span + to + close,
              "//div[contains(@class, 'Sa')]",
              "//div[contains(@class, 'Jd')]",
              "//div[@role='option']"];
    Interpolated(sa, to, close);
    Interpolated(jd, to, close);
    Interpolated(option, to, close);
    Interpolated(span, to, close);
    assert OccursAt(r[0], |sa|, to) && OccursAt(r[1], |jd|, to);
    assert OccursAt(r[2], |option|, to) && OccursAt(r[3], |span|, to);
    r
  }

  const SubjectSelectors: seq<string> := [
    "//input[@name='subjectbox']",
    "//input[contains(@aria-label, 'Subject')]",
    "//input[@placeholder='Subject']",
    "//div[contains(@aria-label, 'Subject')]//input"]

  const BodySelectors: seq<string> := [
    "//div[@aria-label='Message Body']",
    "//div[contains(@aria-label, 'Message body')]",
    "//div[@role='textbox']",
    "//div[contains(@class, 'Am') and @role='textbox']",
    "//div[contains(@class, 'editable')]"]

  const SendSelectors: seq<string> := [
    "//div[@role='button' and contains(@class, 'T-I-atl')]",
    "//div[contains(@class, 'T-I') and contains(@class, 'J-J5-Ji') and contains(@class, 'aoO')]",
    "//div[contains(@class, 'T-I') and contains(@class, 'J-J5-Ji') and contains(@class, 'T-I-atl')]",
    "//div[@role='button' and contains(@data-tooltip, 'Send')]",
    "//div[@role='button' and contains(@aria-label, 'Send')]",
    "//div[@role='button' and contains(text(), 'Send')]",
    "//div[contains(@class, 'dC') and @role='button']",
    "//div[contains(@class, 'T-I') and contains(@class, 'J-J5-Ji')]",
    "//button[contains(text(), 'Send')]",
    "//input[@type='submit' and @value='Send']"]

  /** Selectors that show a recipient has been turned into an address chip. */
  const ChipSelectors: seq<string> := [
    "//span[contains(@class, 'aZo') and contains(@email, '@')]",
    "//span[contains(@class, 'go') and contains(@email, '@')]",
    "//div[contains(@class, 'vR')]//span[contains(@email, '@')]",
    "//span[contains(@title, '@')]"]

  /** The chip text the recipient check looks for: present, non-empty and
      holding an `@` (any `@`, not necessarily the typed address). */
  predicate ChipAccepted(text: Option<string>)
  {
    text.Some? && text.value != "" && '@' in text.value
  }

  /** Some accepted-chip selector finds such a text at log position n. */
  predicate AcceptedAt(b: Browser, n: nat)
  {
    exists s :: 0 <= s < |ChipSelectors| && ChipAccepted(b.chip(n, s))
  }
}
