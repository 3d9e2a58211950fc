/** The status messages of the agent. Each message the agent can send is a
    value of `Msg`; `Text` renders it exactly as the agent formats it. Keeping
    the messages structured lets the rest of the model say which message was
    sent without reasoning about the strings. */
module Messages {
  import opened Paths

  /** The messages whose text is fixed. */
  datatype Notice =
    // diagnostics
    | NoDriverShot | NoElement
    // `click_show_password`
    | NoDriverShowPassword | ShowPasswordClicked | ShowPasswordMissing
    // `login_to_gmail`
    | NoDriverLogin | OpeningGmail | EnteringEmail | AwaitingPasswordPage | LookingForPassword
    | PasswordMissing | ClickingPassword | AwaitingLogin | LoginSucceeded | LoginUnconfirmed
    // `compose_and_send_email`
    | NoDriverSend | NavigatingToMail | LookingForCompose | ComposeMissing
    | FillingRecipient | ToMissing | HandlingSuggestion | NoSuggestion | TryingTab | StillNotAccepted
    | FillingSubject | SubjectMissing | FillingBody | BodyMissing
    | LookingForSend | SendMissing | TryingShortcut | SentViaShortcut | AttemptingSend
    | TryingScript | ScriptClicked | TryingActions | ActionsClicked | AllClicksFailed | SentViaFallback
    | EmailSent | EmailLikelySent
    // `quit`
    | BrowserClosed

  /** Every status message. Positions and attempt numbers are the numbers
      shown, counted from 1; `error` is the text of an exception. */
  datatype Msg =
    | Says(notice: Notice)
    | ShotSaved(path: string)
    | ShotFailed(error: string)
    | TypingFailed(error: string)
    | PasswordFound(selector: string)
    | ComposeFound(selector: string)
    | ToFound(selector: string)
    | SubjectFound(selector: string)
    | BodyFound(selector: string)
    | SendFound(position: nat, selector: string)
    | SendSelectorFailed(position: nat, selector: string)
    | SuggestionClicked(selector: string)
    | ComposeClicked(attempt: nat)
    | ComposeAttemptFailed(attempt: nat, error: string)
    | SendClicked(attempt: nat)
    | SendAttemptFailed(attempt: nat, error: string)
    | ScriptFailed(error: string)
    | ActionsFailed(error: string)
    | FinalShortcutFailed(error: string)
    | ShortcutFailed(error: string)
    | SuggestionError(error: string)
    | SendingFailed(error: string)
    | LoginFailed(error: string)

  /** The status badge each message starts with. */
  datatype Badge = Warn | Check | Busy | Cross | Tick | Info

  function BadgeText(b: Badge): (s: string)
    ensures |s| > 0
  {
    match b
    case Warn => "[!] "
    case Check => "[✓] "
    case Busy => "[🔄] "
    case Cross => "[❌] "
    case Tick => "[✅] "
    case Info => "[ℹ] "
  }

  /** The badge and the rest of each fixed message. */
  function NoticeBadge(n: Notice): Badge
  {
    match n
    case NoDriverShot => Warn
    case NoElement => Warn
    case NoDriverShowPassword => Warn
    case ShowPasswordClicked => Check
    case ShowPasswordMissing => Info
    case NoDriverLogin => Warn
    case OpeningGmail => Busy
    case EnteringEmail => Busy
    case AwaitingPasswordPage => Busy
    case LookingForPassword => Busy
    case PasswordMissing => Cross
    case ClickingPassword => Busy
    case AwaitingLogin => Busy
    case LoginSucceeded => Tick
    case LoginUnconfirmed => Cross
    case NoDriverSend => Warn
    case NavigatingToMail => Busy
    case LookingForCompose => Busy
    case ComposeMissing => Cross
    case FillingRecipient => Busy
    case ToMissing => Cross
    case HandlingSuggestion => Busy
    case NoSuggestion => Busy
    case TryingTab => Busy
    case StillNotAccepted => Busy
    case FillingSubject => Busy
    case SubjectMissing => Cross
    case FillingBody => Busy
    case BodyMissing => Cross
    case LookingForSend => Busy
    case SendMissing => Cross
    case TryingShortcut => Busy
    case SentViaShortcut => Tick
    case AttemptingSend => Busy
    case TryingScript => Busy
    case ScriptClicked => Check
    case TryingActions => Busy
    case ActionsClicked => Check
    case AllClicksFailed => Busy
    case SentViaFallback => Tick
    case EmailSent => Tick
    case EmailLikelySent => Tick
    case BrowserClosed => Tick
  }

  function NoticeDetail(n: Notice): string
  {
    match n
    case NoDriverShot => "Cannot take screenshot, driver is None"
    case NoElement => "Cannot type, element is None"
    case NoDriverShowPassword => "Cannot click show password, driver is None"
    case ShowPasswordClicked => "Show password button clicked!"
    case ShowPasswordMissing => "Show password button not found, continuing..."
    case NoDriverLogin => "Cannot login, driver is None"
    case OpeningGmail => "Opening Gmail..."
    case EnteringEmail => "Entering email..."
    case AwaitingPasswordPage => "Waiting for password field to appear..."
    case LookingForPassword => "Looking for password input field..."
    case PasswordMissing => "Password field not found with any selector"
    case ClickingPassword => "Clicking on password input box..."
    case AwaitingLogin => "Waiting for login success..."
    case LoginSucceeded => "Login successful!"
    case LoginUnconfirmed => "Login failed or extra verification required."
    case NoDriverSend => "Cannot send email, driver is None"
    case NavigatingToMail => "Navigating to Gmail..."
    case LookingForCompose => "Looking for Compose button..."
    case ComposeMissing => "Compose button not found"
    case FillingRecipient => "Filling recipient..."
    case ToMissing => "To field not found"
    case HandlingSuggestion => "Handling email suggestion..."
    case NoSuggestion => "No suggestion found, trying Enter key..."
    case TryingTab => "Enter didn't work, trying Tab key..."
    case StillNotAccepted => "Still not accepted, trying to click outside and back..."
    case FillingSubject => "Filling subject..."
    case SubjectMissing => "Subject field not found"
    case FillingBody => "Filling body..."
    case BodyMissing => "Body area not found"
    case LookingForSend => "Looking for Send button..."
    case SendMissing => "Send button not found with any selector"
    case TryingShortcut => "Trying keyboard shortcut Ctrl+Enter..."
    case SentViaShortcut => "Email sent via keyboard shortcut!"
    case AttemptingSend => "Attempting to click Send button..."
    case TryingScript => "Trying JavaScript click..."
    case ScriptClicked => "Send button clicked via JavaScript!"
    case TryingActions => "Trying ActionChains click..."
    case ActionsClicked => "Send button clicked via ActionChains!"
    case AllClicksFailed => "All click methods failed, trying keyboard shortcut..."
    case SentViaFallback => "Email sent via keyboard shortcut fallback!"
    case EmailSent => "Email sent successfully!"
    case EmailLikelySent => "Email likely sent (no confirmation toast found)"
    case BrowserClosed => "Browser closed successfully"
  }

  /** The badge a message starts with. */
  function MsgBadge(m: Msg): Badge
  {
    match m
    case Says(n) => NoticeBadge(n)
    case ShotSaved(path) => Check
    case ShotFailed(e) => Warn
    case TypingFailed(e) => Warn
    case PasswordFound(sel) => Check
    case ComposeFound(sel) => Check
    case ToFound(sel) => Check
    case SubjectFound(sel) => Check
    case BodyFound(sel) => Check
    case SendFound(n, sel) => Check
    case SendSelectorFailed(n, sel) => Warn
    case SuggestionClicked(sel) => Check
    case ComposeClicked(n) => Check
    case ComposeAttemptFailed(n, e) => Warn
    case SendClicked(n) => Check
    case SendAttemptFailed(n, e) => Warn
    case ScriptFailed(e) => Warn
    case ActionsFailed(e) => Warn
    case FinalShortcutFailed(e) => Cross
    case ShortcutFailed(e) => Cross
    case SuggestionError(e) => Warn
    case SendingFailed(e) => Cross
    case LoginFailed(e) => Cross
  }

  /** What follows the badge. */
  function Detail(m: Msg): string
  {
    match m
    case Says(n) => NoticeDetail(n)
    case ShotSaved(path) => "Screenshot saved: " + path
    case ShotFailed(e) => "Screenshot failed: " + e
    case TypingFailed(e) => "Typing failed: " + e
    case PasswordFound(sel) => "Password field found with selector: " + sel
    case ComposeFound(sel) => "Compose button found with selector: " + sel
    case ToFound(sel) => "To field found with selector: " + sel
    case SubjectFound(sel) => "Subject field found with selector: " + sel
    case BodyFound(sel) => "Body area found with selector: " + sel
    case SendFound(n, sel) => "Send button found with selector " + NatText(n) + ": " + sel
    case SendSelectorFailed(n, sel) => "Send selector " + NatText(n) + " failed: " + sel
    case SuggestionClicked(sel) => "Email suggestion clicked with selector: " + sel
    case ComposeClicked(n) => "Compose button clicked (attempt " + NatText(n) + ")"
    case ComposeAttemptFailed(n, e) => "Compose click attempt " + NatText(n) + " failed: " + e
    case SendClicked(n) => "Send button clicked successfully (attempt " + NatText(n) + ")"
    case SendAttemptFailed(n, e) => "Send click attempt " + NatText(n) + " failed: " + e
    case ScriptFailed(e) => "JavaScript click failed: " + e
    case ActionsFailed(e) => "ActionChains click failed: " + e
    case FinalShortcutFailed(e) => "Final keyboard shortcut failed: " + e
    case ShortcutFailed(e) => "Keyboard shortcut failed: " + e
    case SuggestionError(e) => "Error handling email suggestion: " + e
    case SendingFailed(e) => "Email sending failed: " + e
    case LoginFailed(e) => "Login failed: " + e
  }

  /** The text of a message, as the agent formats it: its badge, then the
      rest. No message is empty, so `_emit` without a callback prints every
      one of them. */
  function Text(m: Msg): (s: string)
    ensures |s| > 0
    ensures |BadgeText(MsgBadge(m))| <= |s| && s[..|BadgeText(MsgBadge(m))|] == BadgeText(MsgBadge(m))
  {
    BadgeText(MsgBadge(m)) + Detail(m)
  }
}
