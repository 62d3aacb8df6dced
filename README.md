# SafeSchool pages in Dafny

A Dafny model of the stateful pages of a school disaster-preparedness web
app:

- **Quiz**: a ten-question emergency quiz with a five-minute countdown,
  answers kept in a JavaScript array, scoring and grading tiers.
- **SOS**: the SOS panel. It has a ten-second countdown run by `setInterval`
  timers, sends an alert to four emergency contacts, dials numbers, and
  sends canned quick messages.
- **Register**, **Login** and **Contact**: their form handlers, that is,
  field updates, validation chains and the user record they store.
- **Profile**: the profile page. It loads the stored user, runs an
  edit/save/cancel buffer, looks up role icons and labels, and computes two
  summary figures.

The model has one module per page, plus two shared modules:

- `Common`: `Option`, `Result`, the stored user record, and the browser
  storage key as a small class.
- `Text`: ASCII digits, ASCII case mapping, and the decimal text of a number.

Each page follows the same pattern:

- A pure step function, or a validation function, for each handler. The
  properties are proved about these.
- A class with the page's own state fields. Each method `ensures` that the
  new state is the matching step function applied to the old state.

Timers are explicit steps:

- `Quiz.AfterTick` is one second of the quiz timer effect.
- `Sos.AfterFire` is one callback of one `setInterval` timer.
- `Login.LoginPage.DemoTimeout` is the delayed demo-login write.

These are not modelled; they become parameters, log entries or nothing:

- Console output becomes an append-only log.
- Geolocation becomes a parameter.
- Toasts, navigation, speech and vibration are not modelled.

## Model

| member | source | states |
|---|---|---|
| Common.UserStorage.constructor | src/pages/Profile.tsx:27 | a fresh store holds no user record |
| Common.UserStorage.SetUser | src/pages/Register.tsx:78-82 | writing the `user` key leaves exactly the given record stored |
| Common.UserStorage.RemoveUser | src/pages/Profile.tsx:88 | removing the key leaves no stored record |
| Text.ToUpper | src/pages/SOS.tsx:171 | same length, and each character is upper-cased (ASCII letters) |
| Text.ToLower | src/pages/Login.tsx:94 | same length, and each character is lower-cased (ASCII letters) |
| Text.NatToDecimal | src/pages/Quiz.tsx:146 | the decimal text is non-empty, all digits, one digit iff n < 10, and has no leading zero |
| Text.DecimalRoundTrip | src/pages/Quiz.tsx:146 | reading the decimal text back gives the number |
| Quiz.CatalogSize | src/pages/Quiz.tsx:18-129 | the catalog holds ten questions |
| Quiz.CatalogWellFormed | src/pages/Quiz.tsx:18-129 | every question has four options; its correct index is one of them and agrees with the answer key used for scoring |
| Quiz.Holes | src/pages/Quiz.tsx:162-163 | n unanswered slots, each empty |
| Quiz.WriteSlot | src/pages/Quiz.tsx:162-163 | index assignment on a JavaScript array: slot k holds the answer; other slots keep theirs; the array grows to k + 1 with holes in between |
| Quiz.Score | src/pages/Quiz.tsx:200-202 | the score is at most the number of answer slots |
| Quiz.ScoreCountsMatches | src/pages/Quiz.tsx:200-202 | the score equals the number of questions whose recorded answer is the correct option (a set-based reference definition), and is at most 10 |
| Quiz.MatchedExtend | src/pages/Quiz.tsx:200-202 | one more answer slot adds that question to the matched set exactly when it is correct, and it was not matched before |
| Quiz.ReduceScore | src/pages/Quiz.tsx:181-183 | the accumulating loop computes exactly the score |
| Quiz.TierOf | src/pages/Quiz.tsx:253-258 | Certificate Eligible iff score ≥ 8, Passed iff 6 ≤ score < 8, Needs Review iff score < 6 |
| Quiz.TierMonotone | src/pages/Quiz.tsx:253-258 | a higher score never gets a lower tier |
| Quiz.CompletionIsDestructive | src/pages/Quiz.tsx:188 | the completion notification is destructive iff the tier is Needs Review |
| Quiz.Pad2 | src/pages/Quiz.tsx:146 | the seconds field is two digits that read back as the number |
| Quiz.FormatTime | src/pages/Quiz.tsx:143-147 | the text is `m:ss`; the minutes times 60 plus the seconds gives the input, the seconds part is below 60, and the minutes have no leading zero: the text starts with 0 iff under a minute, and then it is exactly `0:ss` |
| Quiz.StartClock | src/pages/Quiz.tsx:143-147 | a fresh quiz shows `5:00` |
| Quiz.PaddedClock | src/pages/Quiz.tsx:143-147 | 65 seconds show as `1:05` |
| Quiz.AfterStart | src/pages/Quiz.tsx:149-159 | starting resets question, answers, results and clock (300 s), and the quiz is in progress |
| Quiz.AfterRestart | src/pages/Quiz.tsx:192-198 | restarting equals the start state without the started flag, i.e. the start screen |
| Quiz.AfterSelect | src/pages/Quiz.tsx:161-165 | the current question's slot holds the chosen option; every other recorded answer and all other state are unchanged; the array grows only when the question is past its end, to exactly that question, and the slots it grows by before it are unanswered |
| Quiz.AfterNext | src/pages/Quiz.tsx:167-171 | advances by one below the last question, is a no-op on the last, and changes nothing else |
| Quiz.AfterPrevious | src/pages/Quiz.tsx:173-177 | goes back by one above the first question, is a no-op on the first, and changes nothing else |
| Quiz.AfterSubmit | src/pages/Quiz.tsx:179-180 | only the results flag is set, and a started quiz is then completed |
| Quiz.AfterTick | src/pages/Quiz.tsx:131-141 | a running clock drops by one second; reaching 0 submits; a clock at 0 on a started quiz submits; otherwise nothing changes; the clock never goes negative |
| Quiz.StepsPreserveWellFormed | src/pages/Quiz.tsx:131-198 | every handler keeps the question index in range, at most 10 answer slots, and the clock within [0, 300] |
| Quiz.InitialWellFormed | src/pages/Quiz.tsx:12-16 | the mounted state is well formed and equals the restart state |
| Quiz.GuardedStepsKeepNoSkips | src/pages/Quiz.tsx:361-375 | with Next and Submit enabled only on an answered question, every step keeps the answers free of holes and the current question at most one past the last answer |
| Quiz.UnguardedNextLeavesHole | src/pages/Quiz.tsx:167-171 | calling the Next handler on an unanswered question and then answering leaves a hole, so the guard is what prevents skipping |
| Quiz.NextThenPrevious | src/pages/Quiz.tsx:167-177 | next then previous returns to the same state below the last question |
| Quiz.PreviousThenNext | src/pages/Quiz.tsx:167-177 | previous then next returns to the same state above the first question |
| Quiz.NavigationKeepsAnswer | src/pages/Quiz.tsx:161-177 | answering, moving on and coming back finds the answer still recorded |
| Quiz.SubmitIdempotent | src/pages/Quiz.tsx:179-180 | submitting twice is submitting once |
| Quiz.TickAfterSubmitIsNoop | src/pages/Quiz.tsx:131-141 | a timer firing after the results are shown changes nothing |
| Quiz.Countdown | src/pages/Quiz.tsx:131-141 | k ticks into a running quiz the clock shows k seconds less, and the quiz is submitted exactly when the clock reaches 0 |
| Quiz.TimeoutSubmits | src/pages/Quiz.tsx:131-141 | a fresh quiz is still running after 299 ticks, is auto-submitted at tick 300 with the clock at 0, and later ticks change nothing |
| Quiz.StaleTicks | src/pages/Quiz.tsx:131-141 | any number of ticks after submission change nothing |
| Quiz.AnswerKey | src/pages/Quiz.tsx:18-129 | the ten correct options, one per question |
| Quiz.KeyPrefixScore | src/pages/Quiz.tsx:200-202 | the first k correct answers score k |
| Quiz.HolesScoreNothing | src/pages/Quiz.tsx:200-202 | unanswered slots at the end add nothing to the score |
| Quiz.PerfectScore | src/pages/Quiz.tsx:200-202 | all ten correct scores 10, which is Certificate Eligible |
| Quiz.KeySuffixScore | src/pages/Quiz.tsx:200-202 | skipping the first m questions and answering up to question k correctly scores k − m |
| Quiz.HalfAnswered | src/pages/Quiz.tsx:200-202 | five correct answers and five unanswered score 5, which is Needs Review, both for five answers followed by a timeout (the only shape the page produces) and for five skipped questions followed by five answers (reachable through the handlers alone) |
| Quiz.QuizPage.constructor | src/pages/Quiz.tsx:12-16 | the page mounts in the initial state |
| Quiz.QuizPage.StartQuiz | src/pages/Quiz.tsx:149-159 | the fields become the start state |
| Quiz.QuizPage.SelectAnswer | src/pages/Quiz.tsx:161-165 | copying the answers into a new array and writing one slot gives the select step |
| Quiz.QuizPage.NextQuestion | src/pages/Quiz.tsx:167-171 | the fields follow the next step |
| Quiz.QuizPage.PreviousQuestion | src/pages/Quiz.tsx:173-177 | the fields follow the previous step |
| Quiz.QuizPage.HandleSubmitQuiz | src/pages/Quiz.tsx:179-190 | the results are shown and the reported score is the score of the answers |
| Quiz.QuizPage.RestartQuiz | src/pages/Quiz.tsx:192-198 | the fields become the restart state |
| Quiz.QuizPage.Tick | src/pages/Quiz.tsx:131-141 | the fields follow one tick |
| Quiz.QuizPage.CurrentScore | src/pages/Quiz.tsx:200-202 | the displayed score is the score, at most 10, and nothing changes |
| Sos.ContactAlerts | src/pages/SOS.tsx:97-100 | one log line per contact, in list order, naming the contact and their number |
| Sos.AlertsSent | src/pages/SOS.tsx:94 | the count of alert entries is at most the log length |
| Sos.AlertsSentAppend | src/pages/SOS.tsx:94 | alert counts add over concatenated logs |
| Sos.ContactAlertsAreNotAlerts | src/pages/SOS.tsx:97-100 | the per-contact lines contain no alert entry |
| Sos.AlertLog | src/pages/SOS.tsx:85-100 | one alert (type "General Emergency", user "user_123", the given location), then each of the four contacts once, in order |
| Sos.AlertLogAppended | src/pages/SOS.tsx:94-100 | logging the alert and then the contacts appends exactly the alert log |
| Sos.AlertLogSendsOneAlert | src/pages/SOS.tsx:94-100 | one alert log holds exactly one alert |
| Sos.AfterActivate | src/pages/SOS.tsx:39-52 | the panel is active at 10, and one new live timer capturing the current location is added |
| Sos.AfterCancel | src/pages/SOS.tsx:67-79 | the flag and counter are reset; the timers and the log are untouched |
| Sos.AfterSendAlert | src/pages/SOS.tsx:81-118 | the panel is disarmed, the alert log is appended, and the alert count rises by exactly one |
| Sos.AfterFire | src/pages/SOS.tsx:43-52 | a cleared timer does nothing; a live one decrements above 1; at 1 or less it clears itself, sets 0 and sends the alert with its captured location; the user location is kept |
| Sos.AfterLocate | src/pages/SOS.tsx:25-30 | a resolved position becomes the user location |
| Sos.AfterQuickMessage | src/pages/SOS.tsx:149-181 | one message entry (category, canned text or none, location) is logged |
| Sos.StepsPreserveWellFormed | src/pages/SOS.tsx:39-79 | every step keeps the counter within [0, 10] |
| Sos.FiresDecrement | src/pages/SOS.tsx:43-52 | while the count stays above 1, k ticks lower it by k and change nothing else |
| Sos.CountdownRuns | src/pages/SOS.tsx:39-52 | in the first nine seconds after activation the count falls by one per tick and nothing is sent |
| Sos.AlertOnTenthTick | src/pages/SOS.tsx:39-52 | the tenth tick sends exactly one alert with the captured location, disarms and clears the timer; later ticks do nothing |
| Sos.DeadIntervalIsSilent | src/pages/SOS.tsx:46 | a cleared timer never changes anything |
| Sos.CancelThenTickSendsAlert | src/pages/SOS.tsx:67-79 | after a cancel within the countdown the timer is still live, and its next tick sends an alert |
| Sos.AlternatingDecrement | src/pages/SOS.tsx:43-52 | two live timers firing in turn take one off the count per callback while it stays above 1, and change nothing else |
| Sos.ReactivationAlertsTwice | src/pages/SOS.tsx:39-79 | activate, cancel within the countdown, activate: with the stale and the new timer firing in turn each second, nothing is sent for 9 callbacks, the re-armed panel alerts at its 5th second (10th callback) with the count at 0, and the stale timer's next callback sends a second alert |
| Sos.ClearAll | src/pages/SOS.tsx:46 | every timer is cleared and each keeps its captured location |
| Sos.AfterCancelAndClear | src/pages/SOS.tsx:67-79 | the corrected cancel: disarmed, counter 0, every timer kept but cleared, log and user location untouched |
| Sos.NoAlertAfterClearingCancel | src/pages/SOS.tsx:67-79 | after the corrected cancel, no sequence of timer ticks changes anything or sends an alert |
| Sos.StripNonDigits | src/pages/SOS.tsx:122 | the stripped number is no longer than the input |
| Sos.StripYieldsDigits | src/pages/SOS.tsx:122 | the stripped number is all digits |
| Sos.StripConcat | src/pages/SOS.tsx:122 | stripping distributes over concatenation |
| Sos.StripKeepsDigits | src/pages/SOS.tsx:122 | a number of digits only is unchanged |
| Sos.StripDropsNonDigits | src/pages/SOS.tsx:122 | a string without digits strips to empty |
| Sos.StripIdempotent | src/pages/SOS.tsx:122 | stripping twice is stripping once |
| Sos.DialUri | src/pages/SOS.tsx:133-136 | the link is `tel:` followed by the stripped number, so by digits only |
| Sos.StripAreaCode | src/pages/SOS.tsx:16 | "(555) " strips to "555" |
| Sos.StripExchange | src/pages/SOS.tsx:16 | "123-" strips to "123" |
| Sos.SecurityNumberDialled | src/pages/SOS.tsx:16 | School Security's "(555) 123-0001" is dialled as 5551230001 |
| Sos.EmergencyNumberDialled | src/pages/SOS.tsx:15 | 911 is dialled as `tel:911` |
| Sos.QuickMessage | src/pages/SOS.tsx:150-157 | a canned text exists iff the category is one of the four, and it is that category's text |
| Sos.QuickMessageCategories | src/pages/SOS.tsx:150-155 | exactly medical, fire, security and weather have texts; an unknown category has none |
| Sos.QuickAlertTitle | src/pages/SOS.tsx:171 | the title is the siren and a space, the category upper-cased, then " ALERT SENT" |
| Sos.FireAlertTitle | src/pages/SOS.tsx:171 | the fire message's title is "🚨 FIRE ALERT SENT" |
| Sos.SosPage.constructor | src/pages/SOS.tsx:9-11 | the panel mounts inactive with no timers and an empty log |
| Sos.SosPage.LocationResolved | src/pages/SOS.tsx:25-30 | the fields follow the locate step |
| Sos.SosPage.ActivateSos | src/pages/SOS.tsx:39-52 | the fields follow the activate step, and the new timer's id is returned |
| Sos.SosPage.CancelSos | src/pages/SOS.tsx:67-79 | the fields follow the cancel as written |
| Sos.SosPage.CancelSosAndClear | src/pages/SOS.tsx:67-79 | a loop clears every timer, giving the corrected cancel |
| Sos.SosPage.SendSosAlert | src/pages/SOS.tsx:81-118 | the fields follow the send step |
| Sos.SosPage.NotifyContacts | src/pages/SOS.tsx:97-100 | the loop appends one line per contact, in order, and changes nothing else |
| Sos.SosPage.FireInterval | src/pages/SOS.tsx:43-52 | the fields follow one timer callback |
| Sos.SosPage.SendQuickMessage | src/pages/SOS.tsx:149-168 | the fields follow the quick-message step |
| Register.Apply | src/pages/Register.tsx:24-29 | the named field takes the value and every other field keeps its own |
| Register.LastInputWins | src/pages/Register.tsx:24-29 | a later value for the same field replaces the earlier one |
| Register.DistinctInputsCommute | src/pages/Register.tsx:24-29 | inputs to different fields can arrive in either order |
| Register.Record | src/pages/Register.tsx:77-82 | the stored record is name, email and role only; no password and no dates |
| Register.Validate | src/pages/Register.tsx:35-82 | accepted iff all five fields are non-empty, the passwords match, the password has ≥ 6 characters and the terms are accepted; each error is reported iff the earlier checks pass and its own fails; acceptance yields the record |
| Register.EmptyFieldIsReportedFirst | src/pages/Register.tsx:35-42 | any empty field gives the missing-fields error whatever the other fields hold |
| Register.RecordIgnoresPassword | src/pages/Register.tsx:77-82 | any other accepted password gives the same record |
| Register.PasswordLengthBoundary | src/pages/Register.tsx:53-60 | six characters pass the length check and five do not |
| Register.RegisterPage.constructor | src/pages/Register.tsx:15-22 | the form starts empty with the terms unchecked |
| Register.RegisterPage.HandleInputChange | src/pages/Register.tsx:24-29 | the form follows the field update |
| Register.RegisterPage.HandleSubmit | src/pages/Register.tsx:31-85 | the outcome is the validation result; only an accepted form writes its record; the form is unchanged |
| Login.Apply | src/pages/Login.tsx:19-24 | only the named field changes |
| Login.Validate | src/pages/Login.tsx:30-50 | rejected iff the email or the password is empty; otherwise the record is "John Doe", the email as entered, and "student" |
| Login.RecordIgnoresPassword | src/pages/Login.tsx:46-50 | any non-empty password gives the same record |
| Login.ForgotPassword | src/pages/Login.tsx:55-69 | the email is required iff it is empty |
| Login.DemoForm | src/pages/Login.tsx:78-82 | the form gets the demo email and "demo123", keeps remember-me, and passes the submit check iff the email is non-empty |
| Login.DemoRecord | src/pages/Login.tsx:91-95 | the name is "Demo " then the role, the email is kept, and the role is lower-cased |
| Login.DemoAccountRoles | src/pages/Login.tsx:71-75 | three demo accounts: Student, Teacher, Admin |
| Login.StudentDemoRole | src/pages/Login.tsx:72 | the student demo is stored with role "student" |
| Login.TeacherDemoRole | src/pages/Login.tsx:73 | the teacher demo is stored with role "teacher" |
| Login.AdminDemoRole | src/pages/Login.tsx:74 | the admin demo is stored as "Demo Admin" with role "admin" |
| Login.LoginPage.constructor | src/pages/Login.tsx:13-17 | the form starts empty with no pending demo write |
| Login.LoginPage.HandleInputChange | src/pages/Login.tsx:19-24 | the form follows the field update |
| Login.LoginPage.HandleSubmit | src/pages/Login.tsx:26-53 | the outcome is the validation result; only an accepted form writes its record |
| Login.LoginPage.HandleForgotPassword | src/pages/Login.tsx:55-69 | reports the reset outcome and changes no state |
| Login.LoginPage.LoginWithDemo | src/pages/Login.tsx:77-98 | the form follows the demo fill and the demo record is queued for the delayed write |
| Login.LoginPage.DemoTimeout | src/pages/Login.tsx:90-97 | the oldest pending demo record is written to storage; the form is untouched |
| Contact.Apply | src/pages/Contact.tsx:67-72 | the named field takes the value and every other field keeps its own |
| Contact.ApplyOwnValue | src/pages/Contact.tsx:67-72 | writing a field's own value back changes nothing |
| Contact.Check | src/pages/Contact.tsx:77-84 | sent iff name, email and message are all non-empty |
| Contact.AfterSubmit | src/pages/Contact.tsx:77-98 | a rejected submit leaves the form unchanged; a sent one empties every field |
| Contact.OptionalFieldsIgnored | src/pages/Contact.tsx:77 | organisation and inquiry type never decide the outcome |
| Contact.ResendIsRejected | src/pages/Contact.tsx:92-98 | after sending, the form is the initial one and a second submit is rejected |
| Contact.ContactPage.constructor | src/pages/Contact.tsx:13-19 | the form starts with all five fields empty |
| Contact.ContactPage.HandleInputChange | src/pages/Contact.tsx:67-72 | the form follows the field update |
| Contact.ContactPage.HandleSubmit | src/pages/Contact.tsx:74-99 | reports the check and leaves the form as the submit step says |
| Profile.Merge | src/pages/Profile.tsx:30-41 | name, email and role come from the stored record; the dates are kept |
| Profile.ToStored | src/pages/Profile.tsx:74 | the stored record is the whole edit form, dates included |
| Profile.SaveThenLoad | src/pages/Profile.tsx:25-43 | a saved profile comes back on a fresh page iff its dates are the defaults, because loading ignores stored dates |
| Profile.MergeIdempotent | src/pages/Profile.tsx:25-43 | loading the same record twice is loading it once |
| Profile.AfterLoad | src/pages/Profile.tsx:25-43 | with no record nothing changes; otherwise user and edit form are both merged, and the editing flag is kept |
| Profile.AfterEdit | src/pages/Profile.tsx:68-70 | only the editing flag is set |
| Profile.AfterSave | src/pages/Profile.tsx:72-80 | the user becomes the edit form and editing ends |
| Profile.AfterCancel | src/pages/Profile.tsx:82-85 | the edit form becomes the user, the user is unchanged, and editing ends |
| Profile.AfterEditField | src/pages/Profile.tsx:170-183 | one identity field of the edit form takes the value; the user, the dates and the other fields are unchanged |
| Profile.InitialSynced | src/pages/Profile.tsx:15-23 | the mounted edit form mirrors the user |
| Profile.StepsPreserveSynced | src/pages/Profile.tsx:25-85 | outside editing the edit form equals the user, under every handler (the edit inputs exist only while editing) |
| Profile.CancelDiscardsEdit | src/pages/Profile.tsx:82-85 | edit, change a field, cancel: back to the state before |
| Profile.SaveCommitsEdit | src/pages/Profile.tsx:72-80 | an edited name is shown after saving and the role is kept |
| Profile.CancelAfterSave | src/pages/Profile.tsx:82-85 | cancelling after a save changes nothing more |
| Profile.RoleTables | src/pages/Profile.tsx:102-124 | both tables cover exactly the six roles |
| Profile.RoleIcon | src/pages/Profile.tsx:102-112 | a known role gets its icon and any other string gets 👤 |
| Profile.RoleLabel | src/pages/Profile.tsx:114-124 | a known role gets its label and any other string is shown as is |
| Profile.FallbackIconIffUnknown | src/pages/Profile.tsx:102-112 | the fallback icon appears iff the role is unknown |
| Profile.LabelIsRoleIffUnknown | src/pages/Profile.tsx:114-124 | the label equals the role iff the role is unknown |
| Profile.RegisterRolesAreKnown | src/pages/Register.tsx:87-94 | every role the registration page offers is known to the profile page, with the same label and icon |
| Profile.SignedInRolesAreKnown | src/pages/Login.tsx:46-95 | every role the sign-in page stores is known to the profile page |
| Profile.Earned | src/pages/Profile.tsx:100 | the filtered list holds only earned entries of the input, contains every earned one, and is no longer than the input; a single entry is kept iff it is earned |
| Profile.EarnedAppend | src/pages/Profile.tsx:100 | filtering a concatenation concatenates the filtered parts, which with the single-entry case fixes order and multiplicity |
| Profile.EarnedCount | src/pages/Profile.tsx:100 | the count is at most the number of achievements |
| Profile.AllEarnedIffFullCount | src/pages/Profile.tsx:100 | the count is the full length iff every achievement is earned |
| Profile.NoneEarnedIffZero | src/pages/Profile.tsx:100 | the count is 0 iff no achievement is earned |
| Profile.EarnedCountAppend | src/pages/Profile.tsx:100 | counts add over concatenated lists |
| Profile.ShownEarnedCount | src/pages/Profile.tsx:52-59 | the page's six achievements count 3 earned |
| Profile.OverallProgress | src/pages/Profile.tsx:96-98 | none iff the list is empty; otherwise r − ½ ≤ mean < r + ½, which is `Math.round` of the mean |
| Profile.ProgressIsPercentage | src/pages/Profile.tsx:96-98 | the rounded mean of percentages is within [0, 100] |
| Profile.SumBounds | src/pages/Profile.tsx:97 | the sum of n percentages is within [0, 100·n] |
| Profile.ShownOverallProgress | src/pages/Profile.tsx:45-50 | the page's four modules give 72 |
| Profile.ProfilePage.constructor | src/pages/Profile.tsx:14-23 | the page mounts with the default user in both copies, not editing |
| Profile.ProfilePage.Load | src/pages/Profile.tsx:25-43 | the fields follow the load step for the stored record |
| Profile.ProfilePage.HandleEdit | src/pages/Profile.tsx:68-70 | the fields follow the edit step |
| Profile.ProfilePage.HandleSave | src/pages/Profile.tsx:72-80 | the fields follow the save step, and storage holds the whole edit form |
| Profile.ProfilePage.HandleCancel | src/pages/Profile.tsx:82-85 | the fields follow the cancel step |
| Profile.ProfilePage.EditField | src/pages/Profile.tsx:170-183 | the fields follow one edit input |
| Profile.ProfilePage.HandleLogout | src/pages/Profile.tsx:87-94 | the stored user is removed |

## Left out

- Rendering, styling, icons as components, badges, toasts, navigation,
  `speechSynthesis`, `navigator.vibrate`, the clipboard fallback and the
  user-agent test in `callEmergency`. They are presentation or foreign
  browser calls. `Sos.DialUri` gives the link both dial branches open.
- Timer latency and ordering against user events. Each callback is an
  explicit step (`Quiz.AfterTick`, `Sos.AfterFire`, `Login.LoginPage.DemoTimeout`),
  and any interleaving of steps can be built from them.
- `JSON.stringify`/`JSON.parse` and `localStorage` as a string store. The
  storage stands for one optional record; a malformed stored value is not
  modelled.
- The geolocation error callback (src/pages/SOS.tsx:31-33). It only writes a
  console line and changes no state; the log has no entry for it.
- Timestamps, `navigator.userAgent` and `toLocaleString` in the alert and
  message payloads. They come from the clock and the browser. Locations are
  reals, not floats.
- React StrictMode running state updaters twice, and stale-closure effects
  other than the location captured by each SOS timer, which is modelled.
- Training progress as a percentage bar, and the quiz progress bar. Both are
  floating-point displays only.
- The HTML `required` attribute on the Register, Login and Contact inputs. The
  browser enforces it before the submit handler runs; the model follows the
  handler's own checks.
- Radix checkboxes may report "indeterminate". The terms and remember-me
  boxes are modelled as booleans.
- Text.ToUpper: maps ASCII letters only, where JavaScript's toUpperCase maps
  all of Unicode.
- Text.ToLower: maps ASCII letters only, where JavaScript's toLowerCase maps
  all of Unicode.
- Register.Validate: measures the password in code points, where JavaScript's
  `length` counts UTF-16 units. They differ only outside the Basic
  Multilingual Plane.
- Sos.QuickAlertTitle: its length counts code points, where JavaScript counts
  UTF-16 units.
- Quiz.FormatTime: takes a non-negative number only. The clock never goes
  below 0 (`Quiz.AfterTick`).
- Profile.OverallProgress: returns None for an empty list, where JavaScript
  gives NaN. The page's list is never empty.
- Profile.RoleIcon: does not model keys inherited from `Object.prototype`
  such as "constructor". In JavaScript those return a function instead of
  the fallback.
- Profile.RoleLabel: does not model keys inherited from `Object.prototype`
  either.
- Sos.QuickMessage: does not model keys inherited from `Object.prototype`
  either.
- Quiz.AfterNext and Quiz.AfterSubmit follow the handlers, which do not
  check that the current question is answered. The page disables the Next
  and Submit buttons until it is (src/pages/Quiz.tsx:364, 372), so it never
  skips a question; `Quiz.CanAdvance` states that guard and
  `Quiz.GuardedStepsKeepNoSkips` what it ensures.
- Activating the SOS panel while it is active: `activateSOS` itself has no
  guard, and only the UI hides the button (src/pages/SOS.tsx:198-205).
  `Sos.AfterActivate` follows the handler.
- Sos.AfterCancel is the cancel as written, which does not stop the timer.
  Under "Findings" below, `Sos.AfterCancelAndClear` is the corrected cancel.
  The cancel handler's own message, "Emergency alert has been cancelled"
  (src/pages/SOS.tsx:75-78), promises that nothing is sent.
- The contact-info and FAQ lists of the contact page, and the recent-activity
  list of the profile page. They are static display data.

## Findings

| source | as written | input that shows it | evidently intended | confidence | as-written member | corrected member |
|---|---|---|---|---|---|---|
| src/pages/SOS.tsx:67-79 | `cancelSOS` resets the flag and the counter but never calls `clearInterval`; the live timer's next callback sees a count of 0 ≤ 1 and sends the alert | activate, then cancel before the tenth second, then one more timer tick | a cancel stops the countdown and no alert is sent | not executed | Sos.CancelThenTickSendsAlert | Sos.NoAlertAfterClearingCancel |
