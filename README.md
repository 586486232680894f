# Divo patient portal: a verified model of its state and form logic

Divo is a Next.js demo of a healthcare portal built on mocked data. This project models its core in Dafny:

- **The two Redux slices.** The appointment store and the auth store are classes. Each reducer is a method that updates the state in place and names, in a field-granular `modifies` clause, every field it touches.
- **The two hooks' query logic.**
  - `useAppointments`: the mock generator, with its loops, the create, update and cancel results, and the upcoming and past views.
  - `useAuth`: credential lookup, sign-up, password stripping and the profile merge, plus the hook's own `loading`/`error` state.
- **The page logic.**
  - The three-step registration wizard and the sign-in form: their validators, change handlers and submit guards.
  - The appointment list's search filter, status colours, details toggle and type label.
- **The notification hook's getters and defaults.**

Time and randomness are inputs:

- One `Math.random()` result is a `Random`, a real in [0, 1).
- `Date.now()` is a natural number.
- Every ISO date the code would compute is a string parameter.

Plain JavaScript objects are `map<string, Value>`:

- a spread is a map union in which the right operand wins;
- a destructured-away key is a map difference;
- an absent key reads as `undefined`.

`localeCompare` is read as ordinal comparison of strings. That is sound for the zero-padded `YYYY-MM-DD` and `HH:MM` texts the views sort.

Module layout:

| file | contents |
|---|---|
| `wrappers.dfy` | `Option`, `Result` and `Outcome` |
| `text.dfy` | the string built-ins: `trim`, whitespace, case mapping, `includes`, ordinal order, `String(n)`, `padStart` |
| `js.dfy` | objects, truthiness, spread and omit |
| `seqs.dfy` | `filter` and order-preserving subsequences |
| `sorting.dfy` | a stable comparator sort |
| `email.dfy` | the `\S+@\S+\.\S+` test |
| `appointments.dfy` | the appointment record and the first-match lookups |
| `appointment_slice.dfy`, `auth_slice.dfy` | the two stores |
| `use_appointments.dfy`, `use_auth.dfy`, `use_notifications.dfy` | the three hooks |
| `forms.dfy` | what the two forms share |
| `register_page.dfy`, `login_page.dfy`, `appointments_page.dfy` | the three pages |

## Model

| member | source | states |
|---|---|---|
| Text.TrimShape | src/pages/register.jsx:86 | `trim()` leaves an empty text exactly when the input is all whitespace; otherwise the text has no whitespace at either end |
| Text.TrimOccurs | src/pages/register.jsx:86 | the trimmed text occurs in the input, starting where the leading whitespace ends |
| Text.TrimStartShape | src/pages/register.jsx:86 | `trimStart` drops exactly the leading whitespace; what is left is a suffix of the input |
| Text.TrimEndShape | src/pages/register.jsx:86 | `trimEnd` drops exactly the trailing whitespace; what is left is a prefix of the input |
| Text.ToLower | src/pages/appointments.jsx:47-51 | `toLowerCase` keeps the length and maps each character independently |
| Text.IncludesCorrect | src/pages/appointments.jsx:49-51 | `includes` by trying each offset is true exactly when the term occurs at some offset |
| Text.Compare | src/hooks/useAppointments.js:222 | `localeCompare`, read ordinally, is negative, zero or positive exactly when the first string is less than, equal to or greater than the second |
| Text.StrLtTrichotomy | src/hooks/useAppointments.js:221-225 | the ordinal order is total and asymmetric |
| Text.StrLtTransitive | src/hooks/useAppointments.js:221-225 | the ordinal order is transitive |
| Text.NatToString | src/hooks/useAppointments.js:69 | `toString` of a natural number gives one or more digits, and a single digit exactly below 10 |
| Text.ParseNatToString | src/hooks/useAppointments.js:103 | reading back the decimal text of `n` gives `n` |
| Text.PrefixedNumbersDistinct | src/hooks/useAppointments.js:103 | `app-${m}` and `app-${n}` differ whenever `m` and `n` differ |
| Text.Utf16Length | src/pages/register.jsx:100-104 | `.length` counts UTF-16 code units: at least the number of characters and at most twice it |
| Text.Utf16LengthBmp | src/pages/register.jsx:100-104 | the length is zero only for "", and equals the character count when every character is in the Basic Multilingual Plane |
| Text.Utf16LengthEmoji | src/pages/register.jsx:100-104 | six letters and an emoji have length 8 though they are 7 characters |
| Text.PadStart | src/hooks/useAppointments.js:69 | `padStart(2, '0')` reaches the width, or keeps a longer text as it is |
| Text.PadStartShape | src/hooks/useAppointments.js:69 | the padded text ends with the original and is filled with the pad character before it |
| Js.Spread | src/hooks/useAuth.js:143 | `{...a, ...b}` has the keys of both, and `b`'s values win |
| Js.Omit | src/hooks/useAuth.js:71 | `const {k, ...rest} = o` leaves every key but `k`, with its value |
| Js.SpreadAbsorbs | src/hooks/useAuth.js:143-150 | spreading the same object twice is spreading it once |
| Seqs.Filter | src/hooks/useNotifications.js:114 | `filter` keeps exactly the elements that satisfy the predicate |
| Seqs.FilterIsSubsequence | src/pages/appointments.jsx:48 | `filter` keeps its survivors in their original order |
| Seqs.FilterPartition | src/hooks/useAppointments.js:218-232 | a predicate and its negation split a list, multiplicities included |
| Seqs.FilterComplement | src/hooks/useAppointments.js:218-232 | any predicate that negates another splits a list together with it |
| Seqs.FilterLength | src/hooks/useNotifications.js:62 | the length of a filtered list is the count of the elements that satisfy the predicate |
| Sorting.SortBy | src/hooks/useAppointments.js:219 | `sort` returns a permutation of its input |
| Sorting.SortBySorted | src/hooks/useAppointments.js:219-226 | for a consistent comparator, the sorted list is ordered by that comparator |
| Sorting.InsertByStable | src/hooks/useAppointments.js:219-226 | inserting into a sorted list places the new element after every element it ties with |
| Sorting.SortByStable | src/hooks/useAppointments.js:219-226 | the sort is stable: for every value, the elements the comparator ties with it come out in their input order |
| EmailPattern.EmailPatternTestCorrect | src/pages/register.jsx:96 | the scanner returns true exactly when `\S+@\S+\.\S+` matches somewhere in the text, as the unanchored `test` does |
| EmailPattern.EmailPatternExamples | src/pages/login.jsx:54 | `a@b.c` matches; `a@b` and `a @b.c` do not |
| Appointments.FindIndex | src/store/slices/appointmentSlice.js:46 | `findIndex` gives the first position with the id, or -1 (`None`) exactly when no record has it |
| Appointments.FindById | src/store/slices/appointmentSlice.js:56 | `find` gives the first record with the id, or `null` exactly when none has it |
| AppointmentSlice.AppointmentStore.constructor | src/store/slices/appointmentSlice.js:4-10 | the initial state is empty, idle and error-free |
| AppointmentSlice.AppointmentStore.FetchAppointmentsRequest | src/store/slices/appointmentSlice.js:18-21 | sets `loading` and clears `error`, nothing else |
| AppointmentSlice.AppointmentStore.FetchAppointmentsSuccess | src/store/slices/appointmentSlice.js:24-28 | replaces the list wholesale with the payload; not loading, no error |
| AppointmentSlice.AppointmentStore.CreateAppointmentRequest | src/store/slices/appointmentSlice.js:31-34 | sets `loading` and clears `error`, nothing else |
| AppointmentSlice.AppointmentStore.CreateAppointmentSuccess | src/store/slices/appointmentSlice.js:37-41 | appends the payload and keeps the old list as a prefix, with no duplicate-id check |
| AppointmentSlice.AppointmentStore.UpdateAppointmentStatus | src/store/slices/appointmentSlice.js:44-52 | the first record with the id takes the new status and `updatedAt = now`; every other record is unchanged, the length is kept, and the flags are reset even for an unknown id |
| AppointmentSlice.StatusUpdateFrame | src/store/slices/appointmentSlice.js:46-50 | the first record with the id takes the new status and `updatedAt`; no other record changes, the changed one differs only in those two fields, and an absent id changes nothing |
| AppointmentSlice.AppointmentStore.SelectAppointment | src/store/slices/appointmentSlice.js:55-57 | the selection is the first record with the id, or `null` |
| AppointmentSlice.AppointmentStore.FetchDoctorAvailabilityRequest | src/store/slices/appointmentSlice.js:60-63 | sets `loading` and clears `error`, nothing else |
| AppointmentSlice.AppointmentStore.FetchDoctorAvailabilitySuccess | src/store/slices/appointmentSlice.js:66-70 | replaces the availability; not loading, no error |
| AppointmentSlice.AppointmentStore.AppointmentFailure | src/store/slices/appointmentSlice.js:73-76 | records the payload as the error and stops loading; the list and the selection stay |
| AppointmentSlice.AppointmentStore.ClearSelectedAppointment | src/store/slices/appointmentSlice.js:79-81 | only the selection is cleared |
| AppointmentSlice.AppointmentStore.FetchAppointments | src/store/slices/appointmentSlice.js:84-86 | replaces the list and leaves `loading` and `error` untouched |
| UseAppointments.Pick | src/hooks/useAppointments.js:84 | `Math.floor(Math.random() * n)` is an index below `n` |
| UseAppointments.RandomTimeFormat | src/hooks/useAppointments.js:66-70 | `getRandomTime` gives a zero-padded `HH:MM` with the hour in 09..16 and the minutes `00` or `30` |
| UseAppointments.Dedup | src/hooks/useAppointments.js:95-100 | pushing only names not yet present yields a duplicate-free list with the same names, no longer than the draws |
| UseAppointments.CollectSymptoms | src/hooks/useAppointments.js:93-100 | the inner loop computes exactly the deduplicated draws |
| UseAppointments.BuildAppointment | src/hooks/useAppointments.js:83-114 | one outer iteration pushes exactly `MockAppointment` of its draws |
| UseAppointments.GenerateMockAppointments | src/hooks/useAppointments.js:73-118 | exactly `count` records; record `i` is built from draw `i`; the ids are pairwise distinct |
| UseAppointments.MockAppointments | src/hooks/useAppointments.js:82-115 | the record list, built in loop order, has one record per draw |
| UseAppointments.MockAppointmentsIndex | src/hooks/useAppointments.js:82-115 | the record at position `i` is the one built from draw `i` |
| UseAppointments.MockIdsDistinct | src/hooks/useAppointments.js:103 | the ids `app-1`, `app-2`, ... are pairwise distinct |
| UseAppointments.MockAppointmentShape | src/hooks/useAppointments.js:83-114 | the record has the id `app-(i+1)` and the given patient; its doctor is a mock doctor and `doctorId` is that doctor's id; a future record is `scheduled` with the future date; a past record has the past date and one of the four statuses; the notes are absent or the fixed text |
| UseAppointments.MockAppointmentTime | src/hooks/useAppointments.js:108 | every generated time is a valid slot |
| UseAppointments.MockAppointmentSymptoms | src/hooks/useAppointments.js:93-112 | a present symptom list has one to three distinct catalogue names; an empty one is stored as `undefined` |
| UseAppointments.MergeLaws | src/hooks/useAppointments.js:180-183 | `{...existing, ...data}`: no data keeps the record, full data replaces it, merging twice is merging once, and two merges combine with the later keys winning |
| UseAppointments.Stamp | src/hooks/useAppointments.js:153-157 | the new record has `id = app-${now}` and the given `createdAt`, and every other key is as the caller gave it |
| UseAppointments.StampProperties | src/hooks/useAppointments.js:153-157 | the caller's `id` and `createdAt` make no difference, and creations at different instants get different ids |
| UseAppointments.CreateAppointment | src/hooks/useAppointments.js:147-160 | creation always succeeds; the record has `id = app-${now}` and `createdAt = nowIso`, and every other key is the caller's |
| UseAppointments.UpdateAppointmentById | src/hooks/useAppointments.js:168-186 | fails with "Appointment not found" exactly when no record has the id; otherwise returns the first such record with the supplied keys merged over it |
| UseAppointments.CancelAppointmentById | src/hooks/useAppointments.js:194-207 | fails with "Appointment not found" exactly when no record has the id; otherwise succeeds with no payload |
| UseAppointments.CreateAppointmentAsWritten | src/hooks/useAppointments.js:147-163 | as written, creation always fails |
| UseAppointments.UpdateAppointmentByIdAsWritten | src/hooks/useAppointments.js:168-189 | as written, an update always fails |
| UseAppointments.CancelAppointmentByIdAsWritten | src/hooks/useAppointments.js:194-210 | as written, a cancellation always fails |
| UseAppointments.AsWrittenNeverSucceeds | src/hooks/useAppointments.js:3-10 | with the record present, the intended create, update and cancel succeed, while the code as written returns the `TypeError` |
| UseAppointments.UpcomingOrderMeaning | src/hooks/useAppointments.js:219-240 | the upcoming comparator orders lexicographically by (date, time), and the past comparator is its reverse |
| UseAppointments.UpcomingOrderIsComparator | src/hooks/useAppointments.js:219-226 | the upcoming comparator is consistent |
| UseAppointments.PastOrderIsComparator | src/hooks/useAppointments.js:233-240 | the past comparator is consistent |
| UseAppointments.UpcomingSpec | src/hooks/useAppointments.js:215-227 | upcoming holds exactly the `scheduled` records dated today or later, with their multiplicities, ascending by (date, time) |
| UseAppointments.PastSpec | src/hooks/useAppointments.js:229-241 | past holds exactly the other records, with their multiplicities, descending by (date, time) |
| UseAppointments.ViewsPartition | src/hooks/useAppointments.js:215-241 | together the two views hold every record exactly as often as the list does, and no record is in both |
| AuthSlice.MergeUser | src/store/slices/authSlice.js:73 | `{...user, ...payload}` with a `null` user: the keys of both, and the payload's values win |
| AuthSlice.MergeUserLaws | src/store/slices/authSlice.js:72-74 | merging the same payload again changes nothing; merging into no user yields a copy of the payload |
| AuthSlice.AuthStore.constructor | src/store/slices/authSlice.js:4-10 | the initial state is signed out, idle and error-free |
| AuthSlice.AuthStore.LoginRequest | src/store/slices/authSlice.js:18-21 | sets `loading` and clears `error`, nothing else |
| AuthSlice.AuthStore.RegisterRequest | src/store/slices/authSlice.js:22-25 | sets `loading` and clears `error`, nothing else |
| AuthSlice.AuthStore.LoginSuccess | src/store/slices/authSlice.js:28-34 | signed in with the payload's user and token; not loading, no error |
| AuthSlice.AuthStore.RegisterSuccess | src/store/slices/authSlice.js:35-41 | the same transition as `loginSuccess` |
| AuthSlice.AuthStore.AuthFailure | src/store/slices/authSlice.js:44-47 | records the error and stops loading; the user, the token and `isAuthenticated` stay |
| AuthSlice.AuthStore.Logout | src/store/slices/authSlice.js:50-55 | clears the user, the token, `isAuthenticated` and the error, and leaves `loading` untouched |
| AuthSlice.AuthStore.UpdateUserProfile | src/store/slices/authSlice.js:58-62 | does nothing without a user; otherwise merges with the payload winning |
| AuthSlice.AuthStore.Login | src/store/slices/authSlice.js:65-69 | signed in with the payload as the user and no error; the token is untouched |
| AuthSlice.AuthStore.UpdateUser | src/store/slices/authSlice.js:72-74 | merges unconditionally, so with no user the result is a copy of the payload |
| UseAuth.FindUser | src/hooks/useAuth.js:67 | `find` gives `None` exactly when no user has both credentials; otherwise it gives the first user that has them |
| UseAuth.SignInSpec | src/hooks/useAuth.js:67-85 | sign-in succeeds exactly when some user has exactly the email and the password; the user returned is that user minus `password`; a failure is "Invalid email or password" |
| UseAuth.MockSignInPatient | src/hooks/useAuth.js:7-33 | the demo patient signs in with `password123` |
| UseAuth.MockSignInAdmin | src/hooks/useAuth.js:7-33 | the demo administrator signs in with `admin123` |
| UseAuth.MockSignInWrongPassword | src/hooks/useAuth.js:7-33 | the administrator's email with another account's password is refused with the credentials error |
| UseAuth.RoleOf | src/hooks/useAuth.js:111 | `userData.role || 'patient'` |
| UseAuth.SignUpOutcome | src/hooks/useAuth.js:101-118 | sign-up fails with "User with this email already exists" exactly when the email is taken; otherwise it returns the new user |
| UseAuth.NewUserFixedFields | src/hooks/useAuth.js:108-116 | the new user has no password; its role is the caller's role or `patient`; its picture is the fixed one; its id is the caller's if given, else the default |
| UseAuth.NewUserKeepsFields | src/hooks/useAuth.js:108-116 | every other field of the caller's data is kept as given, and nothing else is added |
| UseAuth.MockSignUps | src/hooks/useAuth.js:101-109 | a demo account's email is rejected; a fresh email succeeds with default id `"4"` |
| UseAuth.AuthHook.constructor | src/hooks/useAuth.js:38-39 | the hook starts idle and error-free |
| UseAuth.AuthHook.SignIn | src/hooks/useAuth.js:59-89 | returns the sign-in result and ends not loading; on success the store holds the stripped user and no error; on failure only the hook's error changes |
| UseAuth.AuthHook.SignUp | src/hooks/useAuth.js:92-125 | returns the sign-up result and ends not loading; only the hook's own state changes, so the same fresh email can sign up again |
| UseAuth.AuthHook.SignOut | src/hooks/useAuth.js:128-132 | the store is signed out |
| UseAuth.AuthHook.UpdateProfile | src/hooks/useAuth.js:135-158 | returns the current user merged with the profile data, which wins; the store ends holding exactly that user; ends not loading |
| Forms.ApplyChange | src/pages/register.jsx:57-72 | only the named field changes: checked for a checkbox, the value otherwise |
| Forms.ClearError | src/pages/login.jsx:41-46 | a truthy error on the field is reset to `''`; otherwise the map is unchanged |
| Forms.ClearErrorEffect | src/pages/register.jsx:75-80 | after a change no error shows on the field, every other field keeps its error, and clearing is idempotent |
| Forms.ApplyChangeKeepsText | src/pages/register.jsx:61-72 | a change keeps the text fields strings, as long as a checkbox does not name one of them |
| Forms.EmailMessage | src/pages/login.jsx:52-56 | "Email is required" exactly for a blank trimmed email; "Email is invalid" exactly for a non-blank email the pattern rejects; otherwise no message |
| Forms.Entry | src/pages/login.jsx:53 | `newErrors[key] = message` adds that key only when a check produced a message |
| Forms.AddError | src/pages/register.jsx:86-88 | one step of a validator adds the check's message, if there is one, under its key |
| Forms.EntryUnionEmpty | src/pages/register.jsx:113 | an error map built entry by entry is empty exactly when no check produced a message |
| RegisterPage.Step1Valid | src/pages/register.jsx:83-114 | step 1 passes exactly when both trimmed names are non-empty, the trimmed email is non-empty and the email matches, the password is at least 8 UTF-16 code units long (JavaScript's `.length`), and the confirmation equals it |
| RegisterPage.Step1EmailMessage | src/pages/register.jsx:94-98 | a blank email gets only "Email is required"; a malformed one gets only "Email is invalid" |
| RegisterPage.Step1PasswordMessage | src/pages/register.jsx:100-104 | an empty password is "required"; a non-empty one under 8 UTF-16 code units gets only the length message |
| RegisterPage.Step1ConfirmMessage | src/pages/register.jsx:106-110 | an empty confirmation is "required"; a differing one is "do not match" |
| RegisterPage.Step1Keys | src/pages/register.jsx:83-110 | step 1 reports only on its five fields |
| RegisterPage.Step2Valid | src/pages/register.jsx:116-133 | step 2 passes exactly when `dateOfBirth` and `gender` are non-empty (untrimmed) and the trimmed phone number is non-empty |
| RegisterPage.Step3Valid | src/pages/register.jsx:135-144 | step 3 passes exactly when `agreeToTerms` is truthy |
| RegisterPage.RunStaysInRange | src/pages/register.jsx:146-158 | from any step in 1..3, every sequence of next and back clicks stays in 1..3 |
| RegisterPage.StepMoves | src/pages/register.jsx:146-158 | one click moves at most one step; step 3 never advances; reaching step 2 needs a valid step 1 |
| RegisterPage.Register.constructor | src/pages/register.jsx:10-28 | the wizard starts at step 1 with the empty form and no errors |
| RegisterPage.Register.HandleChange | src/pages/register.jsx:57-81 | the form becomes `ApplyChange` of it; the errors become `ClearError` of them |
| RegisterPage.Register.ValidateStep1 | src/pages/register.jsx:83-114 | replaces the error map with the step-1 map and returns whether that map is empty |
| RegisterPage.Register.ValidateStep2 | src/pages/register.jsx:116-133 | replaces the error map with the step-2 map and returns whether that map is empty |
| RegisterPage.Register.ValidateStep3 | src/pages/register.jsx:135-144 | replaces the error map with the step-3 map and returns whether that map is empty |
| RegisterPage.Register.HandleNextStep | src/pages/register.jsx:146-152 | advances 1 to 2 only for a valid step 1, and 2 to 3 only for a valid step 2; step 3 keeps the errors |
| RegisterPage.Register.HandlePrevStep | src/pages/register.jsx:154-158 | goes back only from above step 1 |
| RegisterPage.Register.HandleSubmit | src/pages/register.jsx:160-163 | submission goes ahead exactly at step 3 with the terms accepted; the step-3 check runs only at step 3 |
| RegisterPage.Register.SubmitFailed | src/pages/register.jsx:172-177 | a failed submission replaces the errors with the single form-level message |
| LoginPage.PasswordMessage | src/pages/login.jsx:58-60 | the password gets "Password is required" exactly when it is empty, with no length rule |
| LoginPage.LoginValid | src/pages/login.jsx:49-64 | the form passes exactly when the trimmed email is non-empty, the email matches, and the password is non-empty |
| LoginPage.LoginMessages | src/pages/login.jsx:52-60 | only `email` and `password` get messages, each the first check that fails |
| LoginPage.Login.constructor | src/pages/login.jsx:12-19 | the form starts empty, with `rememberMe` unset, no errors and the banner off |
| LoginPage.Login.RegisteredEffect | src/pages/login.jsx:21-23 | the banner is switched on by exactly `registered=true` and otherwise keeps its state |
| LoginPage.Login.BannerTimeout | src/pages/login.jsx:24-26 | the banner's timer switches it off |
| LoginPage.Login.HandleChange | src/pages/login.jsx:32-47 | the form becomes `ApplyChange` of it; the errors become `ClearError` of them |
| LoginPage.Login.Validate | src/pages/login.jsx:49-64 | replaces the error map with the login map and returns whether that map is empty |
| LoginPage.Login.HandleSubmit | src/pages/login.jsx:66-69 | sign-in goes ahead exactly when the form validates |
| LoginPage.Login.SubmitFailed | src/pages/login.jsx:78-82 | a failed sign-in replaces the errors with the single form-level message |
| AppointmentsPage.SearchHitMeaning | src/pages/appointments.jsx:48-52 | the search test holds exactly when the term occurs in the lower-cased doctor, specialty or present location |
| AppointmentsPage.FilterNoData | src/pages/appointments.jsx:42 | missing data gives the empty list |
| AppointmentsPage.FilterIdentity | src/pages/appointments.jsx:46-58 | an all-whitespace term with the `all` filter returns the input unchanged |
| AppointmentsPage.FilterMembership | src/pages/appointments.jsx:41-61 | a record is listed exactly when it is in the input, mentions the lower-cased untrimmed term (unless the term is blank), and has the selected type (unless the filter is `all`) |
| AppointmentsPage.FilterKeepsOrder | src/pages/appointments.jsx:48-58 | the output is an order-preserving subsequence of the input |
| AppointmentsPage.FilterKind | src/pages/appointments.jsx:56-58 | with a type selected, every listed record has that type |
| AppointmentsPage.StatusColorCases | src/pages/appointments.jsx:151-164 | the four known statuses get their fixed classes, pairwise distinct; the blue default is given exactly to every other status |
| AppointmentsPage.ToggleDetails | src/pages/appointments.jsx:381 | clicking the shown record closes it; clicking any other record opens that one |
| AppointmentsPage.ToggleTwice | src/pages/appointments.jsx:381 | two clicks on the same record reopen a record that was open and close anything else |
| AppointmentsPage.CapitalizeShape | src/pages/appointments.jsx:365 | the label changes only the first character, which ends up not a lower-case letter; it is idempotent and equal to the type when case is ignored |
| AppointmentsPage.TypeLabels | src/pages/appointments.jsx:365 | `video` reads `Video`, and `in-person` reads `In-person` |
| UseNotifications.UnreadCountMeaning | src/hooks/useNotifications.js:62 | the unread count equals the number of notifications whose `read` is falsy, and the length of the unread list |
| UseNotifications.GetUnreadSpec | src/hooks/useNotifications.js:118-120 | the unread list holds exactly the unread notifications, in order |
| UseNotifications.GetByTypeSpec | src/hooks/useNotifications.js:113-115 | the list for a type holds exactly the notifications with `type === t`, in order |
| UseNotifications.UnreadSplits | src/hooks/useNotifications.js:118-120 | the unread list and the read notifications together make up the whole list |
| UseNotifications.CreateNotificationFields | src/hooks/useNotifications.js:100-106 | caller fields win, `id` and `read` included; the id, `read: false` and the date fill only the keys the caller left out |
| UseNotifications.CreateNotificationUnread | src/hooks/useNotifications.js:101-106 | a new notification is unread unless the caller set a truthy `read` |
| UseNotifications.ToggleNotifications | src/hooks/useNotifications.js:75-77 | the toggle flips the panel state |
| UseNotifications.ToggleTwice | src/hooks/useNotifications.js:75-77 | toggling twice restores the original state |
| UseNotifications.InitialUnread | src/hooks/useNotifications.js:13-54 | three of the five sample notifications start unread |

## Left out

- Rendering is not modelled: JSX, CSS classes other than the status badges, animation variants, the tabs, and the mock cards of the appointments page (`src/pages/appointments.jsx:64-146`).
- `src/components/common/Card.jsx`, `src/pages/_app.jsx` and `next.config.js` are layout and configuration and are not part of this model.
- Timers, `async`/`await` and the submit delays are not modelled: each operation is one synchronous step. So the `isLoading` flags of the pages, which are only true during the delay, are left out.
- Browser and library calls are left out: `localStorage` (the stored-user restore in `src/hooks/useAuth.js:45-56`, the `remember` flag, the profile write-back), `router.push`, `console.error`, and the React and Redux hooks. State is explicit fields instead.
- Randomness and the clock are inputs:
  - `getRandomPastDate`, `getRandomFutureDate` and `createdAt` in `src/hooks/useAppointments.js` become date strings supplied with each draw;
  - `Date.now()` and `toISOString()` become parameters;
  - `getRecentNotifications` (`src/hooks/useNotifications.js:123-131`) depends on date arithmetic and is left out.
- The hook's `fetchAppointments` (`src/hooks/useAppointments.js:126-145`) and `getDoctors` are left out. `getDoctors` returns the constant `MockDoctors`. `fetchAppointments` as written always rejects: its first line calls `fetchAppointmentsStart`, which the slice does not export (`src/store/slices/appointmentSlice.js:91-103`), so it throws a `TypeError`; the `catch` then calls `fetchAppointmentsFailure`, which is not exported either, so the error escapes the `catch` and the returned promise rejects. The generator it would have stored is modelled on its own (`GenerateMockAppointments`).
- The reducers of `notificationSlice.js` are not part of this model. That includes the hook's callbacks that only dispatch them, and the fetch-when-empty effect.
- Doctor ratings are floating-point data and are not modelled.
- Whitespace and case:
  - `trim` and `\s` use the full ECMAScript whitespace and line-terminator table, which is what the JavaScript built-ins use;
  - `toLowerCase`/`toUpperCase` map ASCII letters only, so non-ASCII case mapping is not modelled.
- `localeCompare` is ordinal. Locale collation is not modelled.
- Strings are sequences of Unicode characters, while JavaScript strings are sequences of UTF-16 code units. `.length` is modelled in code units (`Text.Utf16Length`), so the password rule of `src/pages/register.jsx:102` counts as JavaScript does.
- Text.StrLt and Text.Compare order strings by character code, while JavaScript's `<` orders UTF-16 code units. The two orders differ only when a character above U+FFFF meets one in U+E000–U+FFFF. The strings the core compares are ISO dates and `HH:MM` times, which are ASCII.
- AppointmentsPage.Capitalize upper-cases the first character, where `charAt(0)` takes the first UTF-16 code unit. With ASCII-only case mapping the results agree: a first character above U+FFFF is left unchanged either way.
- AppointmentSlice.AppointmentStore.UpdateAppointmentStatus cannot store a status outside the four the core uses, because `Status` is an enumeration; the reducer (`src/store/slices/appointmentSlice.js:47`) stores whatever the payload holds.
- UseAppointments.CreateAppointment and UseAppointments.UpdateAppointmentById cannot carry keys a caller adds beyond the twelve fields of an appointment record, because the record is a closed datatype; `{...appointmentData}` and `{...existingAppointment, ...appointmentData}` (`src/hooks/useAppointments.js:153-157`, `src/hooks/useAppointments.js:180-183`) copy any keys.
- RegisterPage.Register.HandleChange and LoginPage.Login.HandleChange require that a checkbox event does not name a text field. The page's only checkboxes are `agreeToTerms` and `rememberMe`, so this holds of the page as rendered. It is not enforced by the handler's code.
- UseAppointments.CreateAppointment, UseAppointments.UpdateAppointmentById and UseAppointments.CancelAppointmentById model the results the code evidently intends, not the code as written; see Findings. The slice is not claimed to apply their results.

## Findings

| source | as written | input that shows it | evidently intended | confidence | as-written member | corrected member |
|---|---|---|---|---|---|---|
| src/hooks/useAppointments.js:3-10 | the hook imports `addAppointment`, `updateAppointment` and `cancelAppointment`, which `src/store/slices/appointmentSlice.js:91-103` does not export. Each is `undefined`, so the dispatch line throws a `TypeError` inside the `try`, and the `catch` returns `{success: false}` | any call: `createAppointment(data)`; `updateAppointmentById(id, data)` or `cancelAppointmentById(id)` with `id` in the list | creation always succeeds with the stamped record; update and cancel succeed for a present id | not executed | UseAppointments.CreateAppointmentAsWritten, UseAppointments.UpdateAppointmentByIdAsWritten, UseAppointments.CancelAppointmentByIdAsWritten, UseAppointments.AsWrittenNeverSucceeds | UseAppointments.CreateAppointment, UseAppointments.UpdateAppointmentById, UseAppointments.CancelAppointmentById |
