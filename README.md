# Teacher portal front end: a Dafny model

This project models the decision logic of the attendance portal's React front end. It has four parts:

- **Route guarding** (`Routes`).
  - The `ProtectedRoute` and `RedirectAuthenticatedUser` wrappers.
  - The boot gate that shows a preloader while the auth check runs.
  - The static route table with its catch-all.
  - The auth store is given to the model as a plain record `{isAuthenticated, user, isCheckingAuth}`.
  - In the code, both guards read `user.isVerified` once `isAuthenticated` is true. A null user there throws a TypeError, and the model gives that case its own screen, `NullUserError`.
- **Profile form** (`Decimal`, `TimeSlots`, `Profile`).
  - The `timeRanges` loop that builds ten 40-minute lesson slots, with its `formatTime` helper.
  - The `handleChange` and `handleToggleDay` record updates.
  - The validator and the submit handler.
- **Notice board** (`Notices`, with `Common` for the order-preserving filter).
  - A class holding the notice list, the six posting-form inputs and the `noticeBoardData` storage slot.
  - Mounting, the save-on-change effect, posting, deleting, clearing and expiry cleanup.
  - The visibility window and the hidden-notice count.
- **Sign-up form** (`SignUp`).
  - A class holding the four inputs, the form error, and logs of the `signup` calls and navigations the handler makes.

Inputs from outside the code:

- Instants are integers.
- `new Date(text)` applied to the form's date and time text is the parameter `toInstant`.
- `Date.now()` ids are ordinary integer arguments.
- The `confirm` dialog answer is a boolean input.
- The outcome of the awaited `signup` call is a boolean input: it completes or it throws.
- The storage slot is `Option<seq<Notice>>`: absent, or the list last written to it.

One stored-state quirk is modelled as the code behaves:

- The save effect writes only non-empty lists.
- So a cleanup that expires every notice empties the list but leaves the old list in storage.
- `Notices.NoticeBoard.Cleanup` states this.
- The invariant that always holds is `Valid()`: a non-empty list is what storage holds.

## Model

| member | source | states |
|---|---|---|
| Common.Filter | src/components/NoticeBoard.jsx:151 | `Array.prototype.filter`: the result is no longer than the input, holds exactly the elements that pass, and keeps each passing element's multiplicity and the original order. |
| Common.SubsequenceLength | src/components/NoticeBoard.jsx:325-327 | An order-preserving sub-list is no longer than its list, and equals it when the lengths agree, so total minus visible is never negative. |
| Common.FilterKeepsAll | src/components/NoticeBoard.jsx:72-74 | A filter keeps the whole list exactly when every element passes, and the length stays the same only in that case. |
| Common.FilterFilter | src/components/NoticeBoard.jsx:65-75 | Filtering first by a weaker predicate and then by a stronger one gives the same result as the stronger filter alone. |
| Routes.ProtectedRoute | src/App.jsx:15-27 | Signed out: always `/login`, whatever the user record is. Signed in but unverified: `/verify-email`. The children are rendered iff signed in with a verified user. |
| Routes.RedirectAuthenticatedUser | src/App.jsx:31-39 | Redirects to `/` iff signed in with a verified user. Renders the children iff signed out or unverified. |
| Routes.GuardsIgnoreUserWhenSignedOut | src/App.jsx:18-20 | While signed out, replacing the user record changes neither guard: ProtectedRoute sends to `/login` and RedirectAuthenticatedUser renders. |
| Routes.GuardsComplementary | src/App.jsx:15-39 | For every consistent auth state exactly one of the two guards renders its children, and ProtectedRoute renders exactly for a verified session. |
| Routes.Resolve | src/App.jsx:56-99 | `/` is protected. `/signup`, `/login`, `/forgot-password` and `/reset-password/:token` use RedirectAuthenticatedUser. `/verify-email` is the only unguarded route. Every unlisted path takes the catch-all to `/`. |
| Routes.App | src/App.jsx:50 | The preloader is shown exactly while the auth check runs. |
| Routes.Follow | src/App.jsx:15-99 | Definition: render the current path and follow each `<Navigate replace>` it produces (App.jsx:19, 23, 35, 99) for at most `hops` redirects. Its properties are stated by RedirectsSettle, TargetsSettleInOneHop and BootGateHoldsRedirects. |
| Routes.RedirectsSettle | src/App.jsx:15-99 | From any path in any auth state, following redirects ends within two hops and extra hops change nothing. For a settled, consistent state the result is the rendered landing page. |
| Routes.TargetsSettleInOneHop | src/App.jsx:18-24 | The redirect targets settle: `/login` within one hop, `/verify-email` at once. A verified user sent to `/login` ends on the dashboard. |
| Routes.BootGateHoldsRedirects | src/App.jsx:50 | While the auth check runs, every path and any number of hops yields only the preloader, so no guard fires. |
| Decimal.NatToString | src/components/profile.jsx:26 | `Number.prototype.toString` on a natural number: a non-empty string of digits, one digit long exactly below 10. |
| Decimal.ParseNatToString | src/components/profile.jsx:26 | The decimal text reads back as the number. |
| Decimal.PadStart2 | src/components/profile.jsx:26 | `padStart(2, '0')`: a one-character string gains a single leading `0`, and longer strings are kept. |
| Decimal.TwoDigits | src/components/profile.jsx:26 | For minutes 0..99 the padded text is exactly two digits and reads back as the minute. |
| Decimal.LeadingZeroPadding | src/components/profile.jsx:26 | The padded minute starts with `0` exactly when the minute is below 10. |
| TimeSlots.FormatTime | src/components/profile.jsx:23-27 | Definition of `formatTime`: the hour less 12 above 12, a colon, the minute padded to two digits, a space and AM or PM. Its properties are stated by ParseFormatTime (round trip), SuffixOf, HourField and MinuteField. |
| TimeSlots.RangeLabel | src/components/profile.jsx:29 | Definition of one pushed range: the start's label, " - " and the end's label. ParseRangeLabel shows it reads back as both clocks. |
| TimeSlots.Schedule | src/components/profile.jsx:5-33 | The intended slot list: one label per slot, label k running from 7:30 plus 40k minutes to 40 minutes later. |
| TimeSlots.TimeRanges | src/components/profile.jsx:5-33 | The loop terminates and produces exactly the slot list: 10 ranges, the first "7:30 AM - 8:10 AM" and the last "1:30 PM - 2:10 PM". |
| TimeSlots.CarryStep | src/components/profile.jsx:14-18 | After the minute carry, the end clock is the valid clock 40 minutes after the start, and both clocks are slot k's. |
| TimeSlots.ParseFormatTime | src/components/profile.jsx:23-27 | `formatTime` loses nothing on a 24-hour clock: its label reads back as the same hour and minute. |
| TimeSlots.ParseRangeLabel | src/components/profile.jsx:29 | A range label reads back as its start and end clocks. |
| TimeSlots.SlotClocksValid | src/components/profile.jsx:14-21 | Every slot's start and end are valid clocks with minutes in 0..59, the end 40 minutes after the start, and each end equal to the next slot's start. |
| TimeSlots.ScheduleShape | src/components/profile.jsx:11-29 | Each produced label parses to its slot's start and end, which are valid clocks 40 minutes apart; consecutive slots are contiguous. |
| TimeSlots.ScheduleDistinct | src/components/profile.jsx:5-33 | No two ranges share a label. |
| TimeSlots.FirstAndLastLabels | src/components/profile.jsx:10 | The loop condition admits 10 starts: the first label is "7:30 AM - 8:10 AM" and the last "1:30 PM - 2:10 PM". |
| TimeSlots.MorningLabel | src/components/profile.jsx:23-29 | The first range renders as "7:30 AM - 8:10 AM". |
| TimeSlots.AfternoonLabel | src/components/profile.jsx:23-29 | The last range renders as "1:30 PM - 2:10 PM": 13 and 14 are printed as 1 and 2 with PM. |
| TimeSlots.MinuteField | src/components/profile.jsx:26 | The minute field is exactly two digits, zero-padded exactly below 10, and reads back as the minute. |
| TimeSlots.SuffixOf | src/components/profile.jsx:24 | The label ends in "PM" iff the hour is 12 or more. |
| TimeSlots.HourField | src/components/profile.jsx:25 | The label starts with the hour less 12 above 12, or with the hour itself up to 12 (so 12 stays "12"), followed by `:`. |
| Profile.DayNamed | src/components/profile.jsx:64 | The `name in formData.time` test: it finds the weekday carrying that key, or reports that no weekday has it. |
| Profile.InitialForm | src/components/profile.jsx:36-56 | The initial form has all five weekday keys, every time empty, no day selected and the robot box unticked. |
| Profile.EveryDay | src/components/profile.jsx:41-54 | An object with all five weekday keys mapped to one value. |
| Profile.HandleChange | src/components/profile.jsx:62-75 | A change keeps every weekday key of `time` and `weekdays`. |
| Profile.ChangeOnDay | src/components/profile.jsx:64-68 | A weekday name sets only that day's time; every other time, the top-level fields and the weekday flags are unchanged. |
| Profile.ChangeOnField | src/components/profile.jsx:69-74 | Any other name sets only that top-level field, to `checked` for a checkbox and to `value` otherwise; times and flags are unchanged. |
| Profile.ToggleDay | src/components/profile.jsx:77-85 | A toggle keeps every weekday key. |
| Profile.ToggleFlipsOnlyDay | src/components/profile.jsx:77-85 | A toggle flips the chosen day's flag and leaves every other flag, the fields and the times unchanged. |
| Profile.ToggleTwice | src/components/profile.jsx:77-85 | Toggling the same day twice restores the form. |
| Profile.WeekdayValues | src/components/profile.jsx:95 | `Object.values(formData.weekdays)`: the five flags in key order. |
| Profile.Truthy | src/components/profile.jsx:89-93 | Definition of JavaScript truthiness on a form field: a missing field is falsy, text is truthy iff non-empty, a flag is its value. `Complete` and the validator's field checks are stated in its terms. |
| Profile.SelectedDays | src/components/profile.jsx:95 | `.filter(Boolean)` on the flags: at most five entries, all of them set. NoneSelected shows it is empty iff no day is selected. |
| Profile.NoneSelected | src/components/profile.jsx:95-98 | The selected list is empty exactly when no weekday flag is set. |
| Profile.DayIndex | src/components/profile.jsx:41-47 | Each weekday's position in the key order the `for...in` loop visits. |
| Profile.NextDay | src/components/profile.jsx:100 | Each loop step adds exactly that step's day to the days already visited. |
| Profile.KeyNamesApart | src/components/profile.jsx:89-102 | Distinct error keys are distinct property names, so no error overwrites another. |
| Profile.CheckRequired | src/components/profile.jsx:89-93 | Each of nic, name, gender, subject and robot gets an error iff the field is falsy, with that field's message. No other key is produced. |
| Profile.CheckTimes | src/components/profile.jsx:100-104 | Adds a time error for a day iff that day is selected and has no time, keyed by the day with "Please select time for <day>". Every other entry is unchanged. |
| Profile.Validate | src/components/profile.jsx:87-107 | One error per falsy required field; a `weekdays` error iff no day is selected. A time error appears iff the day is selected and untimed, so an unselected day never gets one. Each message matches the code's text. The result is empty iff the form is complete. |
| Profile.NoErrorsIffComplete | src/components/profile.jsx:87-107 | Errors keyed as the validator keys them are empty exactly when all five fields are truthy, a day is selected and every selected day has a time. |
| Profile.HandleSubmit | src/components/profile.jsx:109-117 | Success iff there are no validation errors, iff the form is complete. Time errors are exactly the selected, untimed days. |
| Profile.CompleteWhenTyped | src/components/profile.jsx:36-56 | On a form with the widgets' value kinds, complete means: four non-empty texts, the robot box ticked, a day chosen and every chosen day timed. |
| Profile.InitialFormIncomplete | src/components/profile.jsx:36-56 | The blank form has the widgets' value kinds and does not pass validation. |
| Notices.IsNoticeVisible | src/components/NoticeBoard.jsx:90-96 | Definition of `isNoticeVisible` on instants: scheduled at or before now and expiring strictly after it. VisibilityWindow states the half-open window. |
| Notices.VisibleNotices | src/components/NoticeBoard.jsx:151 | The visible list holds exactly the visible notices and is an order-preserving sub-list of the notices. |
| Notices.ActiveNotices | src/components/NoticeBoard.jsx:67-70 | The cleanup filter holds exactly the notices expiring after now, in their original order. |
| Notices.WithoutId | src/components/NoticeBoard.jsx:139 | The delete filter holds exactly the notices with another id, in their original order. |
| Notices.VisibilityWindow | src/components/NoticeBoard.jsx:90-96 | Visible iff `scheduledFor <= now < expiresAt`: hidden at the exact expiry instant and before the schedule. |
| Notices.VisibleIsSublist | src/components/NoticeBoard.jsx:151 | The visible list is an order-preserving sub-list of the notices. It holds exactly the visible ones and is never longer. |
| Notices.CleanupKeepsActive | src/components/NoticeBoard.jsx:65-75 | Cleanup keeps exactly the unexpired notices, in order. The lengths agree exactly when none expired, and then the list is the same. |
| Notices.CleanupKeepsDisplay | src/components/NoticeBoard.jsx:65-96 | Removing the expired notices never changes the list on display. |
| Notices.CleanupLater | src/components/NoticeBoard.jsx:54-75 | A later cleanup after an earlier one leaves what the later one alone would leave. |
| Notices.DeleteRemovesId | src/components/NoticeBoard.jsx:139 | Delete keeps exactly the notices with other ids, in order. It changes nothing iff no notice has the id. |
| Notices.StripEmpty | src/components/NoticeBoard.jsx:102 | Stripping a character class leaves nothing exactly when every character is in the class. |
| Notices.StripSettled | src/components/NoticeBoard.jsx:102 | A stripped string has no class character at either end, and a second strip changes nothing. |
| Notices.Trim | src/components/NoticeBoard.jsx:102 | `trim()`: the result is empty, so the guard is falsy, exactly when the text is all ECMAScript whitespace and line terminators; otherwise it neither starts nor ends with one. |
| Notices.TrimTrimmed | src/components/NoticeBoard.jsx:102 | Trimming again changes nothing. |
| Notices.ScheduleInstant | src/components/NoticeBoard.jsx:103-109 | With no schedule date the notice is scheduled now. Otherwise it is the date at the given time, or at 00:00 when none is given. |
| Notices.ExpiryInstant | src/components/NoticeBoard.jsx:112 | The expiry is the expiry date at the given time, or at 23:59 when none is given. |
| Notices.DemoNotices | src/components/NoticeBoard.jsx:21-40 | The demonstration data is two notices with ids 1 and 2. |
| Notices.NoticeBoard.constructor | src/components/NoticeBoard.jsx:5-44 | A present storage slot is loaded as the list, even an empty one. An absent slot loads the two demonstration notices and writes them to storage. The form starts empty. |
| Notices.NoticeBoard.SaveOnChange | src/components/NoticeBoard.jsx:47-51 | Storage is written with the list only when the list is non-empty, and left alone otherwise. |
| Notices.NoticeBoard.Visible | src/components/NoticeBoard.jsx:151 | The displayed list is an order-preserving sub-list holding exactly the notices visible at `now`. |
| Notices.NoticeBoard.HiddenCount | src/components/NoticeBoard.jsx:287 | The hidden count is total minus visible, is a natural number, and is zero exactly when every notice is on display. |
| Notices.NoticeBoard.Edit | src/components/NoticeBoard.jsx:185-268 | Each input's onChange sets only its own field; the list and storage are unchanged. |
| Notices.NoticeBoard.Submit | src/components/NoticeBoard.jsx:99-135 | Accepted iff the trimmed content and title are non-empty and an expiry date is given. An accepted post prepends exactly one notice by "You", created now, with the defaulted instants, ahead of the old list in order. It then clears all six inputs and saves. A rejected post changes nothing. |
| Notices.NoticeBoard.Delete | src/components/NoticeBoard.jsx:138-147 | The list loses every notice with the id and keeps the rest in order. The slot is removed when the result is empty and overwritten with it otherwise. |
| Notices.NoticeBoard.ClearAll | src/components/NoticeBoard.jsx:154-158 | A confirmed clear empties the list and removes the slot. An unconfirmed one changes nothing. |
| Notices.NoticeBoard.Cleanup | src/components/NoticeBoard.jsx:65-75 | The list becomes its unexpired notices in order, and non-empty lists are saved. When every notice expired, storage keeps the old list. |
| SignUp.CheckForm | src/components/signin.jsx:26-35 | Fields missing iff any of the four is empty. Mismatch iff all are filled and the passwords differ. Ready iff all are filled and the passwords agree. |
| SignUp.VerdictMessage | src/components/signin.jsx:27-38 | The form error is empty exactly when the checks pass. |
| SignUp.EmptyFieldFirst | src/components/signin.jsx:26-35 | An empty field is reported as "Please fill out all fields." even when the passwords also differ. |
| SignUp.SignUpForm.constructor | src/components/signin.jsx:11-16 | All four inputs and the form error start empty, with nothing called or navigated. |
| SignUp.SignUpForm.Edit | src/components/signin.jsx:81-114 | Editing an input sets only that input and clears the form error. |
| SignUp.SignUpForm.HandleSignUp | src/components/signin.jsx:23-46 | The form error is the first failed check's message, or empty. A failed check means no `signup` call and no navigation. Otherwise `signup` is called exactly once with (email, password, name). `/verify-email` is navigated to only when the call completes. |
| SignUp.SignUpForm.Submit | src/components/signin.jsx:132 | While loading, the disabled button changes nothing. Otherwise it behaves as handleSignUp. |

## Left out

- The auth store (`useAuthStore`: `checkAuth`, `signup`, `isLoading`, the `error` text) and the server's auth routes are not part of this model. Their effect is an input record or a completes/throws outcome.
- The server-side account and token lifecycle is not part of this model: issuing, verifying and expiring tokens, and session cookies. Only the client guards that consume its result are modelled.
- `Dashboard.jsx`, `navbar.jsx` and `Input.jsx` are left out as presentational. They hold floating-point attendance percentages, a clock timer, a logging search stub and a string-equality active link.
- `backend/utils/emails.js` and `backend/utils/mail.utils.js` are left out as nodemailer I/O. Their parameter shapes disagree: `sendWelcomeEmail` passes `from`/`to`/`template_uuid` (backend/utils/emails.js:32-40), while `sendEmail` destructures `sender`/`recipients`/`subject`/`message` (backend/utils/mail.utils.js:28).
- `backend/index.js` (Express wiring, `listen`, database connection) and `backend/eslint.config.js` are left out as infrastructure.
- Rendering is left out: React markup, animations, the order in which effects run, and the minute timer (NoticeBoard.jsx:54-62), which only calls the cleanup and refreshes the clock.
- Parsing dates, `toISOString` and Invalid Date are the abstract `toInstant` parameter. Stored notices therefore carry instants, not ISO strings, and an unparsable date is not distinguished.
- Notices.NoticeBoard.Submit: in the code, a date or time text that does not parse makes `toISOString()` throw a RangeError (NoticeBoard.jsx:119-121), which abandons the post: the list stays as it was and the form is not cleared. The model has no invalid instant, so it accepts such a post like any other. The date and time widgets deliver well-formed text, so the case needs hand-edited input.
- `formatDateTime` and `toLocaleString` (NoticeBoard.jsx:78-87) are display formatting and are left out.
- JSON encoding of the storage slot is left out: the slot holds the list itself, and a stored empty string is not modelled.
- React Router matching details are left out: case-insensitive paths, trailing slashes, and query strings. The table is matched on exact text, and a reset token is one non-empty path segment.
- `Date.now()` ids are arbitrary integers. The code does not make them unique, and the model does not assume they are.
- Concurrency is left out: interleavings of the awaited `signup` with other events, and state updates after unmount.
- `alert`, `confirm`'s text and `console.log` are left out. `confirm`'s answer is a boolean input.
- `PasswordStrengthMeter` and the other imported components are not part of this model.
- Profile.HandleChange: an event named `time` or `weekdays` would replace the nested object in the code. The model keeps those two objects apart from the top-level fields, so such a name sets a top-level field instead. Names inherited from `Object.prototype` (`constructor`, `toString`, `valueOf`, `hasOwnProperty` and the rest) are also not modelled: the code treats them as day keys, adds them to `time`, and the validator's loop then reports "Please select time for <name>" when the value is empty; the model treats them as top-level fields. Every `onChange={handleChange}` input in profile.jsx carries one of the five field names or a weekday name, so only a hand-made event reaches either case.
- Profile.DayNamed: `name in formData.time` is true for the five weekday keys and for every name inherited from `Object.prototype`; the model finds only the five weekday keys.
- Profile.ChangeOnField: for a name inherited from `Object.prototype`, the code updates `time` rather than a top-level field, so for those names this lemma does not describe the code.
- Profile.Validate: the errors object is an unordered map keyed by `ErrorKey`. The JavaScript insertion order of its keys is not modelled. `KeyName` gives each key's property name, and `Profile.KeyNamesApart` shows that none collide.
- TimeSlots.ScheduleShape: contiguity is stated as equality of clocks (slot k's end is slot k+1's start), not as equality of the printed texts.
