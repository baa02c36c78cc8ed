# Think Plus front end: a Dafny model of its behaviour

Think Plus Education is a single-page learning site written as React
components. This project models the behaviour behind those components and
proves properties about it:

- **the test section** (`TestSection`): a quiz engine with three screens.
  The screens are the test list, the question screen and the results. The
  model covers answer recording, Previous/Next clamping, submission, the
  score, the correct/incorrect/unanswered counts and the answer review.
- **the chat assistant** (`Chatbot`): a message history that opens with a
  greeting. Each reply is chosen from a keyword table; the first key, in
  table order, found in the lower-cased user text wins.
- **the login dialog** (`LoginModal`): the demo credential rule, the order
  of the signup checks, the demo login, and the delayed completion of each
  submission.
- **the navigation bar** (`Navbar`): the menu gated on the session, the
  avatar initials, the stored-profile fallback, and the logout, login and
  mobile-menu clicks.
- **the application shell** (`Application`, from `App.tsx`): the session
  flag kept in local storage, login and logout, course enrolment and
  payment, and which sections render when logged out.
- **the settings panel** (`UserSettings`) and **the profile dialog**
  (`ProfileDialog`): record updates, each with a "nothing else changes"
  property, and saving to local storage.

Helper modules:

- `Storage` models the browser's local storage as a string-to-string map.
- `Text` models the JavaScript string operations the components use: trim,
  lower and upper case, split, join and substring search.
- `Codec` is a self-delimiting text encoding that stands in for JSON, with
  proved round trips.
- `Profiles` holds the stored user profile record.
- `Initials` holds the `getInitials` function that the navigation bar and
  the profile dialog both define.

The components hold state that their handlers update in place. That state
is modelled as classes: `QuizEngine`, `ChatWindow`, `LoginDialog`,
`NavbarState`, `App`, `SettingsPanel`, `ProfileModal` and `LocalStorage`.
Each class has methods whose contracts give the whole new state. The rules
those methods follow are pure functions, and the lemmas are proved about
those functions.

A `setTimeout` callback is modelled as a separate step:

- the handler records a pending job;
- a later method fires that job;
- each fired job takes effect exactly once.

This applies to the chat reply (`ChatWindow.DeliverReply`) and to the
login, signup and demo completions (`LoginDialog.FireJob`).

Three behaviours of the code matter for the model:

- Submitting a test only sets the results flag; no handler checks it.
  Answering, Previous and Next are bound only to controls of the question
  screen, Submit only to the last question's button, starting a test only to
  the cards of the list screen and "Back to Tests" only to the results
  screen. Each of those methods requires its screen, so answers cannot change
  after submission.
- Every test that is started uses the same five sample questions. The
  selected test's own question count is not used.
- The profile dialog reads storage without a `try`. A malformed stored
  profile therefore fails to load (`ProfileDialog.InitialProfile` gives
  `Err`). The navigation bar instead catches the same failure and falls back
  to John Doe.

## Model

| member | source | states |
|---|---|---|
| TestSection.StartableTests | src/components/TestSection.tsx:16-69 | of the five listed tests, exactly ids 3 and 4 (the `available` ones) can be started |
| TestSection.QuizEngine.constructor | src/components/TestSection.tsx:11-14 | no active test, question 0, no answers, results hidden: the test list is shown |
| TestSection.QuizEngine.StartTest | src/components/TestSection.tsx:104-109 | from the list screen, only an available test starts; it becomes active with question 0, empty answers and results hidden, so the question screen shows |
| TestSection.Recorded | src/components/TestSection.tsx:111-113 | the answered question maps to the chosen option, every other entry is unchanged, and the key set gains only that question |
| TestSection.RecordedValid | src/components/TestSection.tsx:153-159 | recording an in-range option for an in-range question keeps every key in [0, len) and every option in range |
| TestSection.RecordedTwice | src/components/TestSection.tsx:111-113 | a second answer to the same question overwrites the first |
| TestSection.QuizEngine.Answer | src/components/TestSection.tsx:153-156 | on the question screen only, the current question's answer is recorded and the engine stays valid |
| TestSection.PreviousIndex | src/components/TestSection.tsx:171 | Previous never goes below 0 and goes back by one when above 0 |
| TestSection.NextIndex | src/components/TestSection.tsx:182 | Next never passes len-1 and moves forward by one before the last question |
| TestSection.PreviousEnabled | src/components/TestSection.tsx:172 | "Previous" is enabled exactly where pressing it would move the index |
| TestSection.QuizEngine.Previous | src/components/TestSection.tsx:171-172 | on the question screen, the index becomes the clamped previous one, stays in range, and moves exactly when the button is enabled |
| TestSection.QuizEngine.Next | src/components/TestSection.tsx:176-187 | offered before the last question only, Next makes the index the clamped next one, in range |
| TestSection.Forward | src/components/TestSection.tsx:176-187 | Submit is offered in place of Next exactly on the last question |
| TestSection.Progress | src/components/TestSection.tsx:131 | (current+1)/len·100 is positive, at most 100, and 100 exactly on the last question |
| TestSection.QuizEngine.CurrentProgress | src/components/TestSection.tsx:131 | the progress bar is full exactly when Submit is offered |
| TestSection.QuizEngine.Submit | src/components/TestSection.tsx:115-117 | from the last question, submitting shows the results screen |
| TestSection.Score | src/components/TestSection.tsx:126 | the score lies in [0,100] and is the percentage of correct answers: score·len = 100·correct |
| TestSection.CorrectCount | src/components/TestSection.tsx:119-125 | the number of correctly answered questions among the first n is at most n |
| TestSection.CorrectCountAll | src/components/TestSection.tsx:119-125 | the count equals n iff every question is answered correctly, and is 0 iff none is |
| TestSection.QuizEngine.CalculateScore | src/components/TestSection.tsx:119-127 | the counting loop returns 100·correct/len |
| TestSection.RatioBounds | src/components/TestSection.tsx:126 | c/n·100 lies in [0,100], is 100 iff c = n and is 0 iff c = 0 |
| TestSection.ScoreBounds | src/components/TestSection.tsx:119-127 | the score lies in [0,100], is 100 iff every answer is correct and is 0 iff none is |
| TestSection.CorrectKeysCount | src/components/TestSection.tsx:219 | the answers shown as correct are as many as the correct answers the score counts |
| TestSection.DisplayedCounts | src/components/TestSection.tsx:219-233 | the correct tile counts the correctly answered questions (the score's count), the incorrect tile the answered but wrong ones, the unanswered tile the questions without an answer; the three add up to the number of questions and unanswered is never negative |
| TestSection.IncorrectKeysCount | src/components/TestSection.tsx:226 | the answers the incorrect filter keeps are as many as the answered but wrongly answered questions |
| TestSection.CountsPartition | src/components/TestSection.tsx:219-233 | every question is exactly one of correct, incorrect or unanswered, so the three counts add up to the number of questions |
| TestSection.Review | src/components/TestSection.tsx:241-261 | one item per question, in order; an unanswered question is not correct and reads "Not answered"; the correct option is shown exactly when the answer is not correct |
| TestSection.ScreenOf | src/components/TestSection.tsx:129-197 | the question screen shows iff a test is active and results are hidden; the results screen shows iff the results flag is set |
| TestSection.QuizEngine.BackToTests | src/components/TestSection.tsx:270-273 | from the results screen, the active test and the results flag are both cleared and the test list shows |
| TestSection.SampleScenario | src/components/TestSection.tsx:71-102 | answering the first three sample questions correctly, the fourth wrongly and leaving the fifth open scores 60 with counts 3/1/1 |
| Chatbot.ChatWindow.constructor | src/components/Chatbot.tsx:10-17 | the history is the single greeting, the input is empty, and quick replies show |
| Chatbot.FirstMatchFrom | src/components/Chatbot.tsx:51-56 | the result is the first entry at or after the start whose key occurs in the text; no match means no key occurs |
| Chatbot.Reply | src/components/Chatbot.tsx:48-56 | the reply is always one of the table's texts; it is the text of the first key in table order found in the lower-cased input, and the default text when no key is found |
| Chatbot.FindReply | src/components/Chatbot.tsx:48-56 | the scan with `break` returns the first matching key's text, else the default |
| Chatbot.KeysAreLowerCase | src/components/Chatbot.tsx:26-32 | every table key is lower case |
| Chatbot.ReplyIgnoresCase | src/components/Chatbot.tsx:48 | lower-casing the input first does not change the reply |
| Chatbot.CourseInformationWins | src/components/Chatbot.tsx:27-28 | any input mentioning "course information" gets the course reply, whatever else it mentions |
| Chatbot.DefaultIffNoTopic | src/components/Chatbot.tsx:49-56 | the default text is the reply iff none of the four topic keys occurs in the lower-cased input |
| Chatbot.QuickRepliesGetTheirTopic | src/components/Chatbot.tsx:19-32 | each quick-reply text, once sent, is answered with its own topic's reply |
| Chatbot.ChatWindow.ShowQuickReplies | src/components/Chatbot.tsx:167 | quick replies show exactly while the greeting is the whole history |
| Chatbot.ChatWindow.QuickReply | src/components/Chatbot.tsx:68-70 | offered only while quick replies show, a quick reply sets the input only; nothing is sent |
| Chatbot.ChatWindow.SetInput | src/components/Chatbot.tsx:189 | typing replaces the input and nothing else |
| Chatbot.ChatWindow.Send | src/components/Chatbot.tsx:34-47 | a blank input changes nothing; otherwise exactly one user message with the raw text is appended, the input is cleared and one reply becomes pending |
| Chatbot.ChatWindow.DeliverReply | src/components/Chatbot.tsx:47-65 | the oldest pending text's reply is appended after the existing history, so each user message gets exactly one bot reply |
| LoginModal.CheckLogin | src/components/LoginModal.tsx:39-48 | login succeeds iff the password is "password123"; the name is the email's text before the first '@', or the whole email when it has none |
| LoginModal.CheckSignup | src/components/LoginModal.tsx:64-86 | a mismatch is reported before a short password; exactly the matching passwords of length at least 6 succeed, with a record holding only name and email |
| LoginModal.SignupLengthBoundary | src/components/LoginModal.tsx:69-72 | a 6-character password is accepted, a 5-character one is too short, and a mismatch wins |
| LoginModal.JobOutcome | src/components/LoginModal.tsx:37-113 | each delayed completion yields the login check's result, the signup record or the fixed demo record |
| LoginModal.FailedLoginReportsNothing | src/components/LoginModal.tsx:54-56 | only a login with the wrong password yields no profile |
| LoginModal.LoginDialog.constructor | src/components/LoginModal.tsx:17-30 | not loading, nothing scheduled, and every login and signup field empty |
| LoginModal.LoginDialog.EditLogin | src/components/LoginModal.tsx:151-168 | typing in the login form replaces its e-mail and password |
| LoginModal.LoginDialog.EditSignup | src/components/LoginModal.tsx:236-284 | typing in the signup form replaces its four fields |
| LoginModal.LoginDialog.SubmitLogin | src/components/LoginModal.tsx:32-37 | loading starts and one login completion is scheduled with the entered credentials |
| LoginModal.LoginDialog.SubmitSignup | src/components/LoginModal.tsx:61-77 | a rejected signup reports its error and schedules nothing; an accepted one starts loading and schedules the signup completion |
| LoginModal.LoginDialog.DemoLogin | src/components/LoginModal.tsx:96-98 | the login fields are set to the demo credentials and the demo completion is scheduled |
| LoginModal.LoginDialog.FireJob | src/components/LoginModal.tsx:37-113 | the job runs once; a successful one stores its profile under "userProfile" and a failed login stores nothing; loading is cleared except by the demo job |
| Navbar.MenuItems | src/components/Navbar.tsx:28-37 | logged out, the menu is exactly [home, courses, contact]; logged in, it has six items from home to contact |
| Navbar.MenuGating | src/components/Navbar.tsx:31-35 | study materials, tests and progress are in the menu iff the user is logged in; the other sections always are |
| Initials.Initials | src/components/Navbar.tsx:46 | the initials are the upper-cased first characters of the maximal runs of non-spaces, in order; there is one initial per non-empty piece of the split, and none is a space |
| Initials.HeadsSplitIsWordStarts | src/components/Navbar.tsx:46 | taking the first character of each piece of a space split equals a left-to-right scan for word starts |
| Initials.WordStartsHaveNoSpace | src/components/Navbar.tsx:46 | no initial is a space |
| Initials.DefaultNameInitials | src/components/ProfileModal.tsx:46-48 | "John Doe" has the initials "JD" |
| Initials.SpacedNameInitials | src/components/Navbar.tsx:46 | "  a  b" has the initials "AB": leading and doubled spaces add nothing |
| Navbar.StoredProfile | src/components/Navbar.tsx:39-45 | a missing or empty stored profile shows John Doe; a well-formed one shows its own name and email |
| Navbar.MalformedFallsBack | src/components/Navbar.tsx:43-45 | a stored profile that does not parse also falls back to John Doe |
| Navbar.AvatarInitials | src/components/Navbar.tsx:134 | the avatar shows "JD" when no profile is stored and the stored name's initials otherwise |
| Navbar.NavbarState.constructor | src/components/Navbar.tsx:22-26 | the mobile menu and every dialog start closed |
| Navbar.NavbarState.ToggleMobileMenu | src/components/Navbar.tsx:204 | the mobile menu flips open or closed |
| Navbar.NavbarState.LogoClick | src/components/Navbar.tsx:80 | the logo goes home |
| Navbar.NavbarState.ItemClick | src/components/Navbar.tsx:104 | a menu item sets the active section, which then renders |
| Navbar.NavbarState.MobileItemClick | src/components/Navbar.tsx:281-284 | a mobile menu item sets the active section and closes the mobile menu |
| Navbar.NavbarState.LogoutClick | src/components/Navbar.tsx:359-362 | the logout confirmation opens; from the mobile menu, the menu also closes |
| Navbar.NavbarState.ConfirmLogout | src/components/Navbar.tsx:52-55 | the session is ended (flag removed, logged out, home) and the dialog closes |
| Navbar.NavbarState.LoginClick | src/components/Navbar.tsx:57-59 | the login dialog opens |
| Navbar.NavbarState.LoginSucceeded | src/components/Navbar.tsx:61-63 | the session flag and the profile are stored, the user is logged in, and the bar then shows that profile's name and email |
| Navbar.NavbarState.OpenDialog | src/components/Navbar.tsx:303-321 | the profile or settings dialog opens; from the mobile menu, the menu also closes |
| Application.StoredSession | src/App.tsx:25 | the stored session counts only when "isLoggedIn" holds exactly "true" |
| Application.App.constructor | src/App.tsx:18-27 | the app starts on home with no course and no payment, logged in exactly when storage says "true" |
| Application.PageOf | src/App.tsx:84-162 | study materials, tests and progress render only when logged in; home, courses and contact always render |
| Application.App.Page | src/App.tsx:84-162 | the rendered page is the active section or nothing; nothing renders only for a members-only section when logged out, so under the gating invariant the active section always renders |
| Application.App.PaymentVisible | src/App.tsx:169 | payment is only ever opened together with a course (the class invariant), so the dialog renders exactly when payment is open |
| Application.App.SetActiveSection | src/App.tsx:77 | a reachable section becomes active and renders |
| Application.App.HandleLogin | src/App.tsx:29-35 | the flag is set to "true" and the user is logged in; the profile is written only when user data is given |
| Application.App.HandleLogout | src/App.tsx:37-41 | the flag is removed, the user is logged out and the section returns to home |
| Application.App.HandleEnrollCourse | src/App.tsx:43-46 | the course is recorded, payment opens, the invariant (open payment has a course) is kept, and the payment dialog becomes visible |
| Application.App.ClosePayment | src/App.tsx:172 | payment closes, the invariant is kept and the payment dialog is no longer visible |
| Application.App.PaymentSucceeded | src/App.tsx:173-177 | payment closes, the user is logged in without the stored profile changing, and study materials show |
| UserSettings.SettingsPanel.constructor | src/components/Settings.tsx:19-29 | the panel starts from the fixed defaults (notifications on, autoplay off, font size 16, HD, English, ...) |
| UserSettings.Toggled | src/components/Settings.tsx:31-32 | toggling negates exactly the chosen switch and leaves every other field unchanged |
| UserSettings.ToggleTwice | src/components/Settings.tsx:32 | toggling the same switch twice restores the record |
| UserSettings.TogglesCommute | src/components/Settings.tsx:32 | toggles of two switches give the same record in either order |
| UserSettings.SettingsPanel.HandleToggle | src/components/Settings.tsx:31-34 | the panel's record becomes the toggled one |
| UserSettings.SettingsPanel.SetFontSize | src/components/Settings.tsx:83-90 | a slider value between 12 and 20 replaces the font size only |
| UserSettings.SettingsPanel.SetVideoQuality | src/components/Settings.tsx:173-182 | one of SD, HD, Full HD or Auto replaces the video quality only |
| UserSettings.SettingsPanel.SetLanguage | src/components/Settings.tsx:187-195 | one of English, Hindi or Spanish replaces the language only |
| UserSettings.DecodeEncode | src/components/Settings.tsx:37 | the saved text decodes back to the same record |
| UserSettings.SettingsPanel.HandleSave | src/components/Settings.tsx:36-37 | the whole record is stored under "userSettings", every other key is unchanged, and reading it back gives the record |
| ProfileDialog.InitialProfile | src/components/ProfileModal.tsx:16-27 | a missing or empty stored profile gives the John Doe default; a stored one is loaded as is; a malformed one fails to load |
| ProfileDialog.ProfileModal.constructor | src/components/ProfileModal.tsx:16-29 | the dialog opens on the loaded profile, not editing |
| ProfileDialog.Changed | src/components/ProfileModal.tsx:31-33 | exactly the chosen field takes the new value; every other field is unchanged |
| ProfileDialog.ChangeBack | src/components/ProfileModal.tsx:31-33 | writing a field's old value back restores the profile |
| ProfileDialog.ChangeTwice | src/components/ProfileModal.tsx:31-33 | a second edit of the same field overwrites the first |
| ProfileDialog.ProfileModal.HandleChange | src/components/ProfileModal.tsx:101-173 | in edit mode only (the inputs are disabled otherwise), an input edit replaces that one field of the profile |
| ProfileDialog.ProfileModal.HandleSave | src/components/ProfileModal.tsx:35-39 | offered in edit mode only, saving: the profile is stored under "userProfile", edit mode ends, and loading again gives the same profile |
| ProfileDialog.ProfileModal.AvatarInitials | src/components/ProfileModal.tsx:67 | the avatar shows the upper-cased word starts of the profile's name, "JD" for the default name |
| ProfileDialog.ProfileModal.ToggleEdit | src/components/ProfileModal.tsx:83 | the edit button flips edit mode |
| ProfileDialog.ProfileModal.Cancel | src/components/ProfileModal.tsx:179-189 | offered in edit mode only, cancel only leaves edit mode; field edits are kept |
| Profiles.DecodeEncode | src/components/LoginModal.tsx:50 | a stored profile reads back as the same profile |
| Profiles.EncodeNonEmpty | src/components/ProfileModal.tsx:18 | a stored profile is never the empty text, so it is never mistaken for a missing one |
| Storage.Get | src/App.tsx:25 | reading a key gives its value iff the key is present |
| Storage.Set | src/App.tsx:30 | after writing, the key reads back the value and every other key is unchanged |
| Storage.Remove | src/App.tsx:38 | after removing, the key is absent and every other key is unchanged |
| Storage.LocalStorage.GetItem | src/App.tsx:25 | getItem reads the stored map |
| Storage.LocalStorage.SetItem | src/App.tsx:30 | setItem replaces the stored map by its update at that key |
| Storage.LocalStorage.RemoveItem | src/App.tsx:38 | removeItem replaces the stored map by the map without that key |
| Text.TrimEmptyIffBlank | src/components/Chatbot.tsx:35 | trimming gives the empty text exactly for inputs made only of whitespace |
| Text.ToLowerIsLower | src/components/Chatbot.tsx:48 | lower-casing leaves no upper-case letter |
| Text.JoinSplit | src/components/Navbar.tsx:46 | joining the pieces of a split with its separator gives back the original text |
| Text.BeforeFirst | src/components/LoginModal.tsx:41 | the first split piece is the longest prefix without the separator, followed by the separator or the end |
| Codec.DecodeEncodeFields | src/components/Settings.tsx:37 | a list of fields encoded as text decodes back to the same list |
| Codec.EncodeDecodeFields | src/components/Settings.tsx:37 | text that decodes is exactly the encoding of the list it decodes to, so any other text is reported as malformed |
| Codec.ParseDecimal | src/components/Settings.tsx:37 | the decimal text of a number parses back to it |

## Left out

- Rendering, styling and animation are not modelled: JSX markup, motion variants, icons, badges and colours.
- The hard-coded "45:23" timer badge on the question screen is not modelled, because no deadline logic is attached to it.
- Chatbot.ChatWindow: the open/close toggle of the chat window (`isOpen`) is left out, because it affects rendering only.
- Message times (`toLocaleTimeString`) are left out because they are clock I/O. A `Message` holds only its sender and text.
- Toast notifications are left out because they are foreign UI calls.
- The theme toggle (`useTheme`) is left out, because the theme context is not part of this model.
- The avatar-upload button is left out, because it only raises a toast.
- JSON is stood in for by `Codec`, an injective text encoding with proved round trips. The model does not capture JSON's concrete syntax.
- ProfileDialog.InitialProfile: a JSON value that parses but is not a profile object (for example `null`) is treated as malformed.
- Navbar.StoredProfile: the same applies, and such a value falls back to John Doe. In the real code it would fail later, when `.name` is read.
- Text.ToLower, Text.ToUpper: only the ASCII letters change case. Other scripts are not case-mapped.
- String lengths count characters, not UTF-16 code units.
- TestSection.QuizEngine.CalculateScore: the score is an exact real, and the `toFixed(0)` rounding of the display is not modelled.
- TestSection.Progress: the same applies. The value is an exact real, and floating-point rounding is not modelled.
- Answers are stored as option indices rather than their decimal strings. The comparison `answer === correct.toString()` is modelled as equality of indices.
- Timer delays are not modelled as real time. A delayed callback is a separate step that may be fired at any later point.
- The order in which pending login jobs fire is left to the caller.
- HTML `required` attributes on the login and signup forms are left out, because the browser enforces them, not the code.
- The password-visibility toggle is left out, because it affects rendering only.
- Closing dialogs through their own close buttons (`onOpenChange`) is left out, because it only clears the corresponding flag.
- The payment modal's internals, the contact form and the static data components (courses, features, footer, study materials, progress dashboard) are left out, because they hold no rules beyond hard-coded figures.
- The hero animation is left out, because it is graphics and browser event I/O.
- ProfileDialog.ProfileModal.constructor requires a loadable stored profile, because a malformed one makes the source throw while mounting. The failure itself is stated by `ProfileDialog.InitialProfile`.
- The profile is loaded once, when the dialog mounts. Later storage writes by the login dialog are not reflected until the dialog mounts again, as in the source.
