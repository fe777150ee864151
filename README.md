# RentEase front-end core, modelled in Dafny

RentEase is a flat-rental web client. Its logic lives in the browser. Visitors browse flats, mark favourites and message owners. Members register, sign in, reset a forgotten password, edit their profile and publish, edit and delete their own flats. Administrators list, filter, sort, promote and delete users.

This project models the part of that client that decides things. Network replies, the clock, cookies and the browser's number and date parsing enter as parameters.

- **Field validator** (`FieldValidation`, `Text`, `UtcDate`). `validateField` checks one named field and returns a message, or `''` when the value is acceptable. The model covers every rule: names, email shape and availability, password strength, confirmation, birth date, the flat fields, the availability-date window, image and message. Each rule is proved equivalent to a plain statement of what it accepts.
- **Form pipelines** (`ErrorBag`, `Login`, `Register`, `ResetPassword`, `ForgotPassword`, `UserEdit`, `MyProfile`, `EditUser`, `NewFlat`, `EditFlat`, `Messages`).
  - Each route action validates its fields, drops the empty messages, and sends its request only when nothing is left.
  - It then maps the server's reply to an outcome.
  - Each page is a class whose methods are its change, blur and submit handlers over the page's state.
- **Session-expiry interceptor** (`Interceptor`). A 401 reply carrying one of five messages clears the token, alerts the user and sends them to `/login`. Every error is passed on to the caller.
- **List pages** (`AllUsers`, `Home`, `Favorites`, `MyFlats`, `FlatCards`, `Lists`).
  - The modelled operations are loaders that enrich the server's lists, filters, sorts, and role and favourite toggles.
  - Each one is proved to be a filter, a permutation or a point update, with everything else left unchanged.
- **Route guards** (`RouteGuards`). `ProtectedRoute` and `GuestRoute` choose between the spinner, a redirect, the error page and the page itself.

The date rule for editing a flat follows the code at src/utils/validateField.ts:116. If the original availability date lies after today, the new date may start from today. Otherwise it may start from the original date. The model follows the code: see `FieldValidation.FutureOriginalAcceptsToday` and `FieldValidation.LapsedOriginalMayStay`.

## Model

| member | source | states |
|---|---|---|
| `Common.MessageOr` | src/components/Auth/Login.tsx:40 | the server's message when it sent a non-empty one, otherwise the fallback; never empty when the fallback is not |
| `ErrorBag.NothingLeftIffNoErrors` | src/components/Auth/Login.tsx:26-32 | after the cleanup the error object is empty exactly when no entry held a message |
| `ErrorBag.DropFalsy` | src/components/Auth/Login.tsx:26-28 | the cleanup loop keeps exactly the keys with a message, each with its message |
| `Interceptor.IsAuthExpired` | src/api/axiosConfig.ts:17-20 | expired exactly for status 401 with one of the five listed messages |
| `Interceptor.Browser.constructor` | src/api/axiosConfig.ts:4-10 | a browser with the given cookie and address and no alerts |
| `Interceptor.Browser.Intercept` | src/api/axiosConfig.ts:13-32 | every outcome is handed on unchanged; an expired-session failure clears the token cookie, appends the alert and moves to `/login`; anything else changes nothing |
| `Interceptor.OnlyListedUnauthorizedExpires` | src/api/axiosConfig.ts:20 | a non-401 failure, and a 401 with no message or with one outside the listed expiry messages, does not end the session; a 401 "Token expired!" does |
| `RouteGuards.ProtectedRoute` | src/components/Shared/ProtectedRoute/ProtectedRoute.tsx:12-27 | spinner while loading; a replacing redirect to `/login` exactly when settled without a session or user; the error page exactly for a non-admin on an admin page; the page otherwise |
| `RouteGuards.AdminOnlyIsStricter` | src/components/Shared/ProtectedRoute/ProtectedRoute.tsx:12-24 | whoever passes an admin-only guard passes the default one, which admits exactly the signed-in users |
| `RouteGuards.GuestRoute` | src/components/Shared/GuestRoute/GuestRoute.tsx:10-25 | spinner and no navigation while loading; the page exactly for a settled signed-out visitor; navigation to `redirectTo` exactly for a settled signed-in user, rendering nothing |
| `RouteGuards.GuardsAreExclusive` | src/components/Shared/GuestRoute/GuestRoute.tsx:10-25 | no session state opens both a guest page and a protected page; a settled signed-out visitor goes from a protected page to `/login` and sees guest pages |
| `FieldValidation.FieldNamed` | src/utils/validateField.ts:17-19 | each field name the `switch` lists selects its own case, and every other name falls to `default` |
| `FieldValidation.Truncate` | src/utils/validateField.ts:58 | a number given as a date is rounded toward zero, within one of the original on the side of zero |
| `FieldValidation.TimeOf` | src/utils/validateField.ts:58 | a number beyond ±8.64e15 ms is an invalid date, one within that range is a valid time in the same range |
| `FieldValidation.NameTooShort` | src/utils/validateField.ts:21 | the "at least 2 characters" message; it starts with the field's label, First or Last |
| `FieldValidation.NameTooLong` | src/utils/validateField.ts:23 | the "at most 50 characters" message; it starts with the field's label and differs from the too-short message |
| `FieldValidation.NameBadChars` | src/utils/validateField.ts:25 | the "letters and spaces" message; it starts with the field's label and differs from both other name messages |
| `FieldValidation.NameAccepted` | src/utils/validateField.ts:20-26 | an accepted name is a string that is not blank and has at most 50 characters |
| `FieldValidation.NameError` | src/utils/validateField.ts:18-27 | no message exactly for a string of 2+ code units once trimmed, at most 50, all letters/diacritics/space/hyphen; each message exactly when its check is the first to fail |
| `FieldValidation.EmailError` | src/utils/validateField.ts:28-42 | no message exactly for a truthy value of the `x@y.z` shape whose availability request, when made, answers "free"; the format, taken and request-failed messages each exactly in their case |
| `FieldValidation.EmailLookupUnused` | src/utils/validateField.ts:31 | when the request is not made (no `checkEmail`, or the original address) its outcome cannot change the message |
| `FieldValidation.PasswordError` | src/utils/validateField.ts:43-51 | an empty password passes only with `allowEmptyPassword`; otherwise fewer than 6 code units draws the length message and a missing letter, digit or special character the strength message |
| `FieldValidation.ConfirmPasswordError` | src/utils/validateField.ts:52-56 | the confirmation passes exactly when it is strictly equal to the context's password (`undefined` matches only a missing one) |
| `FieldValidation.BirthDateError` | src/utils/validateField.ts:57-66 | required-message exactly for a falsy value or an invalid date; passes exactly for a valid date with age in 18..120; a valid date with an age outside 18..120 gets the age-range message |
| `FieldValidation.AdTitleError` | src/utils/validateField.ts:67-71 | passes exactly for a truthy value whose string length is 5..60 |
| `FieldValidation.MinLengthError` | src/utils/validateField.ts:72-81 | `city` and `streetName` pass exactly for a truthy value of 2+ code units, each with its own message |
| `FieldValidation.StreetNumberError` | src/utils/validateField.ts:82-86 | passes exactly for a truthy value converting to a number of at least 1 |
| `FieldValidation.PositiveError` | src/utils/validateField.ts:87-91 | `areaSize` and `rentPrice` pass exactly for a truthy value converting to a positive number, each with its own message |
| `FieldValidation.YearBuiltError` | src/utils/validateField.ts:92-98 | passes exactly for a truthy value converting to a number between 1900 and the current year |
| `FieldValidation.LowerBound` | src/utils/validateField.ts:115-116 | the earliest accepted date: today for a new flat; for an edit the earlier of today and the original date |
| `FieldValidation.DateError` | src/utils/validateField.ts:104-127 | required-message exactly for a falsy value; passes exactly when the selected day lies between the lower bound and one year from today (an unreadable selection compares false and passes); any other selection gets the range message built from the original date |
| `FieldValidation.SelectedUtc` | src/utils/validateField.ts:111 | a number is used as it is and NaN stays NaN; any other value becomes a whole number of milliseconds, or NaN |
| `FieldValidation.OriginalUtc` | src/utils/validateField.ts:112 | without a truthy original date, today; otherwise a whole number of milliseconds, or NaN |
| `FieldValidation.OutOfRange` | src/utils/validateField.ts:115-116 | the nested conditional says out of range exactly when the selection lies outside the window from the lower bound to one year from today |
| `FieldValidation.DateInWindow` | src/utils/validateField.ts:115-116 | a NaN selection is inside the window; a selection inside it is not after one year from today, and for a new flat not before today |
| `FieldValidation.DateRangeMessage` | src/utils/validateField.ts:119-123 | the start is labelled "today" exactly when the original date is not before today, otherwise "the original date" (also for NaN); the start date shown is the lower bound of an edit, the earlier of today and the original date; the end date is one year from today |
| `FieldValidation.ImageError` | src/utils/validateField.ts:128-132 | passes exactly for a truthy value |
| `FieldValidation.MessageContentError` | src/utils/validateField.ts:133-139 | passes exactly for a truthy value that, as a string, is not blank and has at most 1000 code units; the empty message exactly for a falsy or blank value; a non-blank string over 1000 code units gets the too-long message |
| `FieldValidation.Validate` | src/utils/validateField.ts:14-145 | an unknown field name always passes |
| `FieldValidation.ValidateAccepts` | src/utils/validateField.ts:14-145 | for every field, no message exactly when the value meets that field's acceptance rule |
| `FieldValidation.Accepts` | src/utils/validateField.ts:14-145 | an unlisted field accepts any value; every listed field except the two password fields refuses a falsy value |
| `FieldValidation.NameRule` | src/utils/validateField.ts:18-27 | a typed name passes exactly when it is accepted |
| `FieldValidation.EmailRule` | src/utils/validateField.ts:28-42 | a typed address passes exactly when it is accepted under the context and lookup |
| `FieldValidation.EmailValidation` | src/utils/validateField.ts:28-42 | the `email` case is the email rule |
| `FieldValidation.PasswordRule` | src/utils/validateField.ts:43-51 | a typed password passes exactly when it is accepted under the context |
| `FieldValidation.ConfirmRule` | src/utils/validateField.ts:52-56 | a typed confirmation passes exactly when it equals the context's password |
| `FieldValidation.BirthDateRule` | src/utils/validateField.ts:57-66 | a typed birth date passes exactly when non-empty, parseable and giving an age of 18..120 |
| `FieldValidation.MessageRule` | src/utils/validateField.ts:133-139 | a typed message passes exactly when not blank and at most 1000 code units |
| `FieldValidation.MessageTextRule` | src/utils/validateField.ts:134-137 | the message rule on strings: an empty string is blank and fails |
| `FieldValidation.LookupMattersOnlyForEmail` | src/utils/validateField.ts:31-41 | no field's message depends on the availability request except an email whose request is made |
| `FieldValidation.FutureOriginalAcceptsToday` | src/utils/validateField.ts:116 | editing a flat whose original date lies after today, today itself is accepted |
| `FieldValidation.LapsedOriginalMayStay` | src/utils/validateField.ts:116 | editing a flat whose original date has passed, that date is accepted, while a new flat refuses it |
| `Login.LoginBag` | src/components/Auth/Login.tsx:22-24 | the error object of the two checks holds no message exactly when neither check produced one |
| `Login.LoginChecksPass` | src/components/Auth/Login.tsx:22-24 | the checks pass exactly for a well-formed address and a strong password |
| `Login.LoginAction` | src/components/Auth/Login.tsx:17-43 | the credentials are posted exactly when the checks pass; otherwise the non-empty field errors come back; a success hands on `userDB` and the token; a failure gives the server's message or the fallback under `general` |
| `Login.LoginPage.constructor` | src/components/Auth/Login.tsx:49-51 | empty fields, no errors, no banner, no session |
| `Login.LoginPage.ShowOutcome` | src/components/Auth/Login.tsx:53-64 | the session starts, and the page moves to `/`, exactly for a success carrying a user and a non-empty token; a truthy `general` error becomes the banner; nothing else changes |
| `Login.LoginPage.HandleBlur` | src/components/Auth/Login.tsx:66-70 | the field's message becomes the validator's answer with the default context; nothing else changes |
| `Login.LoginPage.HandleChange` | src/components/Auth/Login.tsx:72-77 | the value is stored and that field's message and the banner are cleared |
| `Register.RegisterBag` | src/components/Auth/Register.tsx:32-40 | the error object of the six checks holds no message exactly when none of the six produced one |
| `Register.RegisterFieldsAccepted` | src/components/Auth/Register.tsx:35-40 | the form is accepted exactly when each of the six calls (email with `checkEmail`, confirmation against the submitted password) returns no message |
| `Register.RegisterChecksPass` | src/components/Auth/Register.tsx:35-50 | the cleaned error object is empty exactly for an accepted form |
| `Register.RegisterAction` | src/components/Auth/Register.tsx:21-71 | the register request goes out exactly for an accepted form and carries the five fields without the confirmation; otherwise the non-empty field errors come back; a failure gives the server's message or "Registration failed. Please try again." |
| `Register.RegisterPage.constructor` | src/components/Auth/Register.tsx:78-89 | six empty inputs, no messages, no banner, no check in flight |
| `Register.RegisterPage.IsFormValid` | src/components/Auth/Register.tsx:144-146 | valid exactly when the cleanup would leave no message, every input keeps a character after trimming, and no email check is in flight |
| `Register.RegisterPage.HandleChange` | src/components/Auth/Register.tsx:135-141 | the value is stored, its message and the banner cleared; a blank value makes the form invalid |
| `Register.RegisterPage.BlurField` | src/components/Auth/Register.tsx:127-131 | any other input gets the validator's message with the current password as context; nothing else changes |
| `Register.RegisterPage.BlurEmail` | src/components/Auth/Register.tsx:106-115 | a malformed address gets the format message and no check starts; a well-formed one starts the check and the form cannot be submitted meanwhile |
| `Register.RegisterPage.EmailCheckSettled` | src/components/Auth/Register.tsx:117-126 | available gives no message, unavailable "Email address not available.", a failed request the retry message; the check is over in every case |
| `ResetPassword.ResetBag` | src/components/Auth/ResetPassword.tsx:17-24 | the error object holds no message exactly when both checks pass and the token is present; `general` is set exactly without a token |
| `ResetPassword.ResetChecksPass` | src/components/Auth/ResetPassword.tsx:20-24 | the checks pass exactly for a strong password, typed twice alike, with a token in the link |
| `ResetPassword.ResetPasswordAction` | src/components/Auth/ResetPassword.tsx:11-45 | the reset request goes out exactly when the checks pass and carries the token and the password; a missing token always rejects with "Invalid or missing token."; a failure gives the server's message or "Failed to reset password" |
| `ResetPassword.ResetPasswordPage.constructor` | src/components/Auth/ResetPassword.tsx:51-54 | empty inputs, no messages, untouched, so the form cannot be submitted |
| `ResetPassword.ResetPasswordPage.IsFormValid` | src/components/Auth/ResetPassword.tsx:101 | valid exactly when touched, both inputs keep a character after trimming, and the cleanup would leave no message |
| `ResetPassword.ResetPasswordPage.HandleChange` | src/components/Auth/ResetPassword.tsx:86-91 | the value is stored, its message cleared and the form marked touched; a blank value makes the form invalid |
| `ResetPassword.ResetPasswordPage.HandleBlur` | src/components/Auth/ResetPassword.tsx:94-98 | the field's message becomes the validator's answer with the typed password as context |
| `ForgotPassword.ForgotPasswordAction` | src/components/Auth/ForgotPassword.tsx:9-27 | the error object stays empty, so the address is always sent; a success carries the server's message, a failure the server's message or "Failed to send reset email" |
| `ForgotPassword.ForgotPasswordPage.constructor` | src/components/Auth/ForgotPassword.tsx:34-37 | empty address, no messages, nothing submitted |
| `ForgotPassword.ForgotPasswordPage.SubmitDisabled` | src/components/Auth/ForgotPassword.tsx:86 | disabled exactly when submitting, when the address is empty, or when an email message would survive the cleanup |
| `ForgotPassword.ForgotPasswordPage.ShowOutcome` | src/components/Auth/ForgotPassword.tsx:39-52 | a success empties the address and the messages and shows the confirmation; a rejection shows its errors and its `general` message |
| `ForgotPassword.ForgotPasswordPage.HandleBlur` | src/components/Auth/ForgotPassword.tsx:54-62 | an empty address gets "Email is required", a malformed one the format message, a well-formed one no message; the button is then enabled exactly for a non-empty well-formed address |
| `ForgotPassword.ForgotPasswordPage.HandleChange` | src/components/Auth/ForgotPassword.tsx:64-69 | the address is stored, the confirmation, the address message and the banner cleared |
| `UserEdit.UserEditBag` | src/components/User/MyProfile/MyProfile.tsx:59-78 | the error object holds no message exactly when none of the checks made produced one; the password messages are present exactly when the password changed; the email message is always present |
| `UserEdit.UserEditChecksPass` | src/components/User/MyProfile/MyProfile.tsx:59-78 | the checks pass exactly for valid names, an accepted address, an adult's birth date and, only when a new password is typed, a strong password confirmed |
| `UserEdit.CheckUserEdit` | src/components/User/MyProfile/MyProfile.tsx:59-86 | the cleaned error object is empty exactly when the checks pass; the payload carries the four fields, and `newPassword` exactly when the password field is not blank |
| `UserEdit.UnchangedEmailIsRefused` | src/components/User/MyProfile/MyProfile.tsx:62 | as written, keeping one's own well-formed address is refused with the availability message when the server reports it registered |
| `UserEdit.UnchangedEmailNeedsNoLookup` | src/components/User/MyProfile/MyProfile.tsx:62 | with the loaded address as `originalEmail`, the messages and the decision to send are the same whatever the server answers |
| `UserEdit.ChecksIgnoreLookup` | src/utils/validateField.ts:31 | with the address itself as `originalEmail`, no check's message depends on the availability answer |
| `UserEdit.EmailCheckIgnoresLookup` | src/utils/validateField.ts:31 | with the address itself as `originalEmail`, its message does not depend on the availability answer |
| `UserEdit.PersonalChecksIgnoreLookup` | src/utils/validateField.ts:18-66 | the name and birth-date messages do not depend on the availability answer |
| `UserEdit.PasswordChecksIgnoreLookup` | src/utils/validateField.ts:43-56 | the two password messages do not depend on the availability answer |
| `UserEdit.LoadedBirthDate` | src/components/User/MyProfile/MyProfile.tsx:134 | the stored birth date's part before `T` (a prefix holding no `T`), or `''` without one |
| `UserEdit.UserEditPage.constructor` | src/components/User/MyProfile/MyProfile.tsx:126-137 | the form starts from the loaded user with empty password fields and no messages, so it cannot be saved before something changes |
| `UserEdit.LoadedEntries` | src/components/User/MyProfile/MyProfile.tsx:126-137 | the loaded user fills exactly the form's fields |
| `UserEdit.UserEditPage.HasChanges` | src/components/User/MyProfile/MyProfile.tsx:207-214 | the form as loaded has no change; a password with a non-space character is a change |
| `UserEdit.UserEditPage.IsFormValid` | src/components/User/MyProfile/MyProfile.tsx:205-216 | valid exactly when the cleanup would leave no message, something changed and no email check is in flight; never for the form as loaded |
| `UserEdit.UserEditPage.BlurEmail` | src/components/User/MyProfile/MyProfile.tsx:170-183 | the loaded address gets no message and no request; another one gets no message when available, "This email is already taken. Please use another." when not, the retry message on failure; the check is over afterwards |
| `UserEdit.UserEditPage.BlurField` | src/components/User/MyProfile/MyProfile.tsx:184-191 | any other field gets the validator's message with the typed password as context and an empty password allowed |
| `UserEdit.UserEditPage.HandleChange` | src/components/User/MyProfile/MyProfile.tsx:199-203 | the value is stored and its message cleared |
| `UserEdit.BlankPasswordAllowedOnBlur` | src/components/User/MyProfile/MyProfile.tsx:185-188 | on blur a blank password passes, while a typed weak one does not |
| `MyProfile.MyProfileAction` | src/components/User/MyProfile/MyProfile.tsx:44-105 | without a session, a redirect to `/login`; otherwise the update goes out exactly when the checks pass, carrying the payload; a success asks for a new sign-in exactly when the password changed; a failure gives the server's message or "Failed to update profile." |
| `EditUser.EditUserLoader` | src/components/Pages/Admin/EditUser/EditUser.tsx:23-35 | without a session, a redirect to `/login`; a failed fetch, a redirect to `/admin/all-users`; otherwise exactly the fetched user |
| `EditUser.EditUserAction` | src/components/Pages/Admin/EditUser/EditUser.tsx:37-90 | without a session, a redirect to `/login`; otherwise the update for that user goes out exactly when the checks pass; a success is always a plain success; a failure gives the server's message or "Failed to update user." |
| `NewFlat.DateValue` | src/components/Pages/Flats/NewFlat/NewFlat.tsx:26-28 | the value checked is `NaN` exactly when the input does not give a time value, otherwise that number |
| `NewFlat.DateRule` | src/components/Pages/Flats/NewFlat/NewFlat.tsx:38 | the typed date passes exactly when it gives a non-zero time value from today to one year from today |
| `NewFlat.ImageCheck` | src/components/Pages/Flats/NewFlat/NewFlat.tsx:39 | no message exactly for a file with a non-empty name; otherwise "Image is required" |
| `NewFlat.NewFlatBag` | src/components/Pages/Flats/NewFlat/NewFlat.tsx:30-39 | the error object holds no message exactly when none of the nine checks produced one |
| `NewFlat.TextRules` | src/components/Pages/Flats/NewFlat/NewFlat.tsx:31-33 | title, city and street pass exactly under their length rules |
| `NewFlat.NumberRules` | src/components/Pages/Flats/NewFlat/NewFlat.tsx:34-37 | street number, area, year and rent pass exactly under their number rules |
| `NewFlat.NewFlatChecksPass` | src/components/Pages/Flats/NewFlat/NewFlat.tsx:30-47 | the nine checks pass exactly for an accepted flat |
| `NewFlat.NewFlatAction` | src/components/Pages/Flats/NewFlat/NewFlat.tsx:10-74 | without a session only "Not authenticated" and nothing posted; otherwise the flat is posted exactly when accepted, with `hasAC` as `"true"`/`"false"`, the date's time value and the file; a failure always gives "Failed to add flat. Please try again." |
| `NewFlat.NewFlatPage.constructor` | src/components/Pages/Flats/NewFlat/NewFlat.tsx:81-94 | empty text fields, no file, the box unchecked, no messages, so the form cannot be submitted |
| `NewFlat.NewFlatPage.IsFormValid` | src/components/Pages/Flats/NewFlat/NewFlat.tsx:127-130 | valid exactly when the cleanup would leave no message and every entry is filled |
| `NewFlat.NewFlatPage.HandleChange` | src/components/Pages/Flats/NewFlat/NewFlat.tsx:117-125 | the entry is stored, its message and the banner cleared; an emptied text field or file makes the form invalid |
| `NewFlat.NewFlatPage.HandleBlur` | src/components/Pages/Flats/NewFlat/NewFlat.tsx:109-115 | the field's message becomes the validator's answer on the typed text or the file's name |
| `NewFlat.UncheckedBoxIsFilled` | src/components/Pages/Flats/NewFlat/NewFlat.tsx:127-130 | an unchecked box counts as filled, an empty text or a missing file does not |
| `EditFlat.OwnerIdOf` | src/components/Pages/Flats/EditFlat/EditFlat.tsx:27 | a populated owner with a non-empty `_id` gives that id; a bare owner id gives itself; no owner, or a populated owner without an `_id`, gives none |
| `EditFlat.ViewOf` | src/components/Pages/Flats/EditFlat/EditFlat.tsx:35-43 | the loaded flat keeps `_id` as its id, its date cut before `T`, and its image's URL when it has one |
| `EditFlat.EditFlatLoader` | src/components/Pages/Flats/EditFlat/EditFlat.tsx:11-48 | without a session, a redirect to `/login`; the flat is loaded exactly when both fetches succeed and the owner's id is the current user's; every other case ends in the 403 "Access denied or flat not found." |
| `EditFlat.EditFlatAction` | src/components/Pages/Flats/EditFlat/EditFlat.tsx:50-108 | without a session, a redirect to `/login`; no field is validated; the update goes out exactly when the date converts, with the numbers through `Number` and the file only when it has a positive size; a success goes to `/myFlats`; a failure gives the server's message or the fallback, overridden by the server's field errors |
| `EditFlat.ServerErrorsWin` | src/components/Pages/Flats/EditFlat/EditFlat.tsx:101-106 | a field error sent by the server replaces the entry of the same key, `general` included |
| `EditFlat.BlurField` | src/components/Pages/Flats/EditFlat/EditFlat.tsx:140 | the date is checked as an edited date; every other name keeps its own rule |
| `EditFlat.EditFlatPage.constructor` | src/components/Pages/Flats/EditFlat/EditFlat.tsx:114-124 | the form starts as the loaded flat, with no messages, so nothing has changed and it cannot be saved |
| `EditFlat.InitialEntries` | src/components/Pages/Flats/EditFlat/EditFlat.tsx:114-124 | the loaded flat fills exactly the form's fields |
| `EditFlat.EditFlatPage.HasChanges` | src/components/Pages/Flats/EditFlat/EditFlat.tsx:158-169 | the form as loaded has no change; a chosen file or a toggled box is a change |
| `EditFlat.EditFlatPage.IsFormValid` | src/components/Pages/Flats/EditFlat/EditFlat.tsx:156-171 | valid exactly when the cleanup would leave no message and something changed; never for the form as loaded |
| `EditFlat.EditFlatPage.HandleChange` | src/components/Pages/Flats/EditFlat/EditFlat.tsx:146-154 | the entry is stored, its message and the banner cleared |
| `EditFlat.EditFlatPage.HandleBlur` | src/components/Pages/Flats/EditFlat/EditFlat.tsx:136-144 | the field's message becomes the validator's answer under the blur's field name, with the loaded date as the original date |
| `EditFlat.NewFileIsAChange` | src/components/Pages/Flats/EditFlat/EditFlat.tsx:156-172 | a newly chosen file counts as a change by itself |
| `Messages.ToMessages` | src/components/Pages/Flats/Messages/Messages.tsx:51-61 | one message per document, in the order received, each tagged with the flat |
| `Messages.ToMessage` | src/components/Pages/Flats/Messages/Messages.tsx:52-61 | a document becomes a message of the flat with its own id, sender, text, name and email, and its creation time as the clock shows it |
| `Messages.MessagesLoader` | src/components/Pages/Flats/Messages/Messages.tsx:34-80 | without a session, `/login`; without a flat id, `/`; on success exactly the received messages (as a multiset), ordered ascending by creation time, with the two flags defaulting to false; a 401 goes to `/login`, a 403 gives an empty conversation that may be joined, anything else the 500 error |
| `Messages.FailureStatus` | src/components/Pages/Flats/Messages/Messages.tsx:40-68 | the status of the user check when that failed; otherwise that of the list request, which then failed |
| `Messages.LoadedMessagesBelongToFlat` | src/components/Pages/Flats/Messages/Messages.tsx:51-62 | every loaded message carries the route's flat id |
| `Messages.MessagesAction` | src/components/Pages/Flats/Messages/Messages.tsx:82-115 | without a session, "Not authenticated"; the post goes out exactly with a session, a flat id and non-blank text, and otherwise the empty-content message; a success returns the created message, stamped now when the server gave no time; a failure the retry message |
| `Messages.LongMessageIsPosted` | src/components/Pages/Flats/Messages/Messages.tsx:90 | text over 1000 code units is still posted by the action, though the page's own rule refuses it |
| `Messages.AppendedMessage` | src/components/Pages/Flats/Messages/Messages.tsx:145-153 | the appended message keeps the posted id and text, belongs to the page's flat, is stamped now when it had no time, and is signed with the user's name or "You" |
| `Messages.MessagesPage.constructor` | src/components/Pages/Flats/Messages/Messages.tsx:119-124 | the loaded messages and flags, empty input, no error, no user yet, so sending is disabled |
| `Messages.MessagesPage.ShowsForm` | src/components/Pages/Flats/Messages/Messages.tsx:201 | the form shows exactly for a user who is not the owner and may message |
| `Messages.MessagesPage.SendDisabled` | src/components/Pages/Flats/Messages/Messages.tsx:217 | sending is disabled exactly when the trimmed text is empty |
| `Messages.MessagesPage.FetchUser` | src/components/Pages/Flats/Messages/Messages.tsx:127-140 | requests `/users/me` exactly when a token is present; on success the page keeps the reply's user, which later signs appended messages; otherwise the user stays; messages, input and error stay |
| `Messages.MessagesPage.ShowActionData` | src/components/Pages/Flats/Messages/Messages.tsx:143-160 | a posted message is appended after every earlier one and the input and error are cleared; a non-empty error is shown; nothing else changes |
| `Messages.MessagesPage.HandleInputChange` | src/components/Pages/Flats/Messages/Messages.tsx:162-171 | the text is stored; blank text clears the error without checking; other text gets the message rule, passing exactly at up to 1000 code units |
| `Messages.MessagesPage.HandleBlur` | src/components/Pages/Flats/Messages/Messages.tsx:173-176 | the error becomes the message rule's answer on the current text |
| `Messages.MessagesPage.Submit` | src/components/Pages/Flats/Messages/Messages.tsx:204-211 | the text is submitted exactly when it is not blank; blank text gets "Message content can’t be an empty string." |
| `AllUsers.AllUsersLoader` | src/components/Pages/Admin/AllUsers/AllUsers.tsx:21-44 | without a session, `/login`; a failed request, `/`; otherwise one user per document in the order received, with its fields copied, the id taken from `_id`, admin exactly when the role is `admin`, the age computed from the birth date (0 without one) and the flat count the length of the flat list (0 without one) |
| `AllUsers.AgeOf` | src/components/Pages/Admin/AllUsers/AllUsers.tsx:33 | 0 without a birth date; a readable birth date gets the age calculated from its day; one that cannot be read is aged as an invalid date |
| `AllUsers.Augment` | src/components/Pages/Admin/AllUsers/AllUsers.tsx:30-36 | a listed user keeps the id, names, email and birth date, and adds the age, the flat count (0 without a list) and the admin flag (exactly for role `admin`) |
| `AllUsers.Narrow` | src/components/Pages/Admin/AllUsers/AllUsers.tsx:120-126 | filtering twice in a row is filtering once by the conjunction |
| `AllUsers.NarrowIf` | src/components/Pages/Admin/AllUsers/AllUsers.tsx:123-126 | a guarded filter step keeps exactly the users selected so far that also pass the step's test when it applies |
| `AllUsers.SelectUsers` | src/components/Pages/Admin/AllUsers/AllUsers.tsx:113-127 | the step-by-step narrowing leaves exactly the users every active filter selects (role, age bounds, flat-count bounds; an unparsable bound is ignored), in their original order |
| `AllUsers.Selects` | src/components/Pages/Admin/AllUsers/AllUsers.tsx:113-125 | a selected user matches the role choice and lies within every age and flat-count bound that parses; with every filter empty and the empty string unparsable, everyone is selected |
| `AllUsers.OnPreorder` | src/components/Pages/Admin/AllUsers/AllUsers.tsx:134-145 | comparing users by a name under the collation, in either direction, is a total preorder, so the sort is well defined |
| `AllUsers.SortUsers` | src/components/Pages/Admin/AllUsers/AllUsers.tsx:131-154 | a permutation of the list, ordered by the chosen field and direction; an unknown option leaves the order as it was |
| `AllUsers.SetAdmin` | src/components/Pages/Admin/AllUsers/AllUsers.tsx:74-75 | same length; the users with that id get the new flag and every other user is untouched |
| `AllUsers.ToggleBackRestores` | src/components/Pages/Admin/AllUsers/AllUsers.tsx:62-79 | granting the opposite role and then the original one gives back the original list |
| `AllUsers.DeleteRemovesExactly` | src/components/Pages/Admin/AllUsers/AllUsers.tsx:93 | after the delete, no user with that id is left and every other user occurs as often as before |
| `AllUsers.AllUsersPage.constructor` | src/components/Pages/Admin/AllUsers/AllUsers.tsx:49-60 | both lists are the loaded users, filters empty, no sort, no confirmation open |
| `AllUsers.AllUsersPage.HandleAdminToggle` | src/components/Pages/Admin/AllUsers/AllUsers.tsx:62-79 | asks for the opposite role; on success both lists flip that user's flag, on failure nothing changes |
| `AllUsers.AllUsersPage.ConfirmDeleteUser` | src/components/Pages/Admin/AllUsers/AllUsers.tsx:81-84 | records the target and opens the confirmation with its question; the lists are untouched |
| `AllUsers.AllUsersPage.HandleDeleteUser` | src/components/Pages/Admin/AllUsers/AllUsers.tsx:86-101 | no target, no request; on success both lists become the master list without that user and the confirmation closes; on failure nothing changes |
| `AllUsers.AllUsersPage.CancelDelete` | src/components/Pages/Admin/AllUsers/AllUsers.tsx:103-106 | closes the confirmation and forgets the target, lists untouched |
| `AllUsers.AllUsersPage.HandleFilterChange` | src/components/Pages/Admin/AllUsers/AllUsers.tsx:108-111 | only the named filter changes; the lists, the sort and the modal state stay |
| `AllUsers.AllUsersPage.ApplyFilters` | src/components/Pages/Admin/AllUsers/AllUsers.tsx:113-129 | the shown list is the master list's selected users, sorted by the current option; a user is shown exactly when it is in the master list and passes every filter; the master list, filters, sort and modal state stay |
| `AllUsers.AllUsersPage.ResetFilters` | src/components/Pages/Admin/AllUsers/AllUsers.tsx:156-161 | empty filters, no sort, the master list shown; the master list and the modal state stay |
| `AllUsers.AllUsersPage.HandleSortChange` | src/components/Pages/Admin/AllUsers/AllUsers.tsx:163-167 | records the option and re-sorts the shown list without filtering again; the master list, filters and modal state stay |
| `AllUsers.ResetIsEmptyApply` | src/components/Pages/Admin/AllUsers/AllUsers.tsx:156-161 | the state after a reset is what applying the empty filters with no sort would show: every user, in master order |
| `Home.EnrichAll` | src/components/Pages/Flats/Home/Home.tsx:28-33 | one flat per document in the order received, keeping id, city, price, area and image, marked a favourite exactly when its id is among the favourites |
| `Home.Enrich` | src/components/Pages/Flats/Home/Home.tsx:28-33 | a listed flat keeps the id, image, city, price and area, and is a favourite exactly when its id is among the favourites |
| `Home.HomeLoader` | src/components/Pages/Flats/Home/Home.tsx:9-36 | no session or a failed `/users/me`: an empty list and no user; a failed flat request is not caught; otherwise every flat, marked against the user's favourites, with the user's id |
| `Home.MapSortToQuery` | src/components/Pages/Flats/Home/Home.tsx:60-77 | exactly the six options name a sort field; the descending ones, and only they, carry a leading '-'; the field is city exactly for cityAsc and cityDesc, rentPrice exactly for priceAsc and priceDesc, areaSize exactly for areaAsc and areaDesc |
| `Home.DescendingIsReversedAscending` | src/components/Pages/Flats/Home/Home.tsx:60-77 | each descending option is its ascending partner's field prefixed with '-' |
| `Home.RangeSplits` | src/components/Pages/Flats/Home/Home.tsx:84-85 | a range parameter splits at '-' back into its lower and upper bound, an empty bound replaced by its default (0, or the top) |
| `Home.RangeParam` | src/components/Pages/Flats/Home/Home.tsx:84-85 | the lower bound (0 when empty) comes first, then '-', and the upper bound (the top when empty) ends the parameter |
| `Home.BuildParams` | src/components/Pages/Flats/Home/Home.tsx:82-86 | the query holds the city exactly when set, a price or area range exactly when either of its bounds is set (defaults 0 and 10000 or 1000), and the mapped sort exactly when an option is chosen; nothing else |
| `Home.SetFavorite` | src/components/Pages/Flats/Home/Home.tsx:155 | same length; the flats with that id get the new mark and every other flat is untouched |
| `Home.FavoriteBackRestores` | src/components/Pages/Flats/Home/Home.tsx:135-159 | marking a flat and unmarking it gives back the original list |
| `Home.HomePage.constructor` | src/components/Pages/Flats/Home/Home.tsx:39-57 | the loaded flats and user, empty applied and pending filters, no sort, no validation errors, loading |
| `Home.HomePage.ValidatePending` | src/components/Pages/Flats/Home/Home.tsx:116-129 | a price (area) error exactly when both pending bounds are filled in and the lower exceeds the upper as numbers, with its message; Apply is disabled exactly when one exists |
| `Home.Exceeds` | src/components/Pages/Flats/Home/Home.tsx:118-126 | NaN on either side never exceeds anything; when one bound exceeds the other, the other does not exceed it |
| `Home.HomePage.ApplyDisabled` | src/components/Pages/Flats/Home/Home.tsx:200 | Apply is disabled exactly when some validation error is present |
| `Home.HomePage.HandleFavorite` | src/components/Pages/Flats/Home/Home.tsx:135-159 | without a user, a redirect to `/login` and no request; otherwise a remove request for a favourite and an add request for any other flat, and on success only that flat's mark flips |
| `Home.HomePage.HandleFilterChange` | src/components/Pages/Flats/Home/Home.tsx:161-164 | only the named pending filter changes; the flats, applied filters, sort, validation errors and loading flag stay |
| `Home.HomePage.HandleSortChange` | src/components/Pages/Flats/Home/Home.tsx:166-168 | records the sort option; the flats, both filter sets, validation errors and loading flag stay |
| `Home.HomePage.ApplyFilters` | src/components/Pages/Flats/Home/Home.tsx:170-172 | the pending filters become the applied ones; the flats, sort, validation errors and loading flag stay |
| `Home.HomePage.ResetFilters` | src/components/Pages/Flats/Home/Home.tsx:174-179 | both filter sets empty and the sort cleared; the flats, validation errors and loading flag stay |
| `Home.HomePage.FetchFlats` | src/components/Pages/Flats/Home/Home.tsx:79-114 | the query holds the applied city exactly when it is set, a price or area range exactly when one of its applied bounds is set (defaults 0 and 10000 or 1000), and the mapped sort exactly when an option is chosen, and nothing else; on success the list is the received flats marked against the user's favourites (none without a session or when that lookup fails); a failure keeps the list; loading ends either way; the applied and pending filters, the sort and the validation errors stay |
| `FlatCards.ListedAll` | src/components/User/MyFlats/MyFlats.tsx:18-22 | one card per document, in order, carrying the document's id, fields and image url |
| `Favorites.FavoritesLoader` | src/components/User/Favorites/Favorites.tsx:9-38 | without a session, or when either request fails, `/login`; otherwise the cards of exactly the fetched flats whose id is a favourite (as a multiset), newest first |
| `Favorites.FavoritesAreExactlyTheListed` | src/components/User/Favorites/Favorites.tsx:24-30 | every loaded card is a fetched flat whose id is a favourite, and every such flat has its card |
| `MyFlats.MyFlatsLoader` | src/components/User/MyFlats/MyFlats.tsx:9-29 | without a session, or on a failed request, `/login`; otherwise one card per received flat, in order, with its id and image |
| `MyFlats.DeleteRemovesExactly` | src/components/User/MyFlats/MyFlats.tsx:43 | after the delete no card of that id is left and every other card occurs as often as before |
| `MyFlats.DeleteAbsentIsNoChange` | src/components/User/MyFlats/MyFlats.tsx:43 | deleting an id no card carries leaves the list unchanged |
| `MyFlats.MyFlatsPage.constructor` | src/components/User/MyFlats/MyFlats.tsx:32-33 | the list is the loaded flats |
| `MyFlats.MyFlatsPage.HandleDeleteFlat` | src/components/User/MyFlats/MyFlats.tsx:36-47 | on success the list loses exactly the cards of that id, the rest in order; on failure nothing changes |
| `Lists.Filter` | src/components/Pages/Admin/AllUsers/AllUsers.tsx:120-126 | `Array.filter`: a subsequence holding exactly the elements that pass, no more than the input |
| `Lists.FilterAppend` | src/components/User/MyFlats/MyFlats.tsx:43 | filtering a concatenation is concatenating the filtered parts |
| `Lists.FilterCount` | src/components/User/MyFlats/MyFlats.tsx:43 | a passing element occurs in the result as often as in the input, a failing one not at all |
| `Lists.FilterFilter` | src/components/Pages/Admin/AllUsers/AllUsers.tsx:120-126 | two filters in a row are one filter by the conjunction |
| `Lists.FilterExt` | src/components/Pages/Admin/AllUsers/AllUsers.tsx:120-126 | filters by tests that agree everywhere give the same result |
| `Lists.FilterAll` | src/components/User/MyFlats/MyFlats.tsx:43 | a filter every element passes leaves the list as it is |
| `Lists.Insert` | src/components/User/Favorites/Favorites.tsx:31 | the sort's insertion step adds exactly the one element |
| `Lists.InsertSorted` | src/components/User/Favorites/Favorites.tsx:31 | inserting into a sorted list keeps it sorted |
| `Lists.SortBy` | src/components/Pages/Admin/AllUsers/AllUsers.tsx:131-154 | `Array.sort` under a consistent comparator: a permutation of the input that is sorted |
| `Lists.ReversePreorder` | src/components/Pages/Admin/AllUsers/AllUsers.tsx:137-139 | swapping a comparator's arguments keeps it a total preorder |
| `Lists.ByKeyPreorder` | src/components/Pages/Admin/AllUsers/AllUsers.tsx:146-148 | comparing numeric keys is a total preorder |
| `Lists.SortByKeyAscending` | src/components/Pages/Flats/Messages/Messages.tsx:62 | sorting by a numeric key leaves the keys non-decreasing |
| `Lists.SortByKeyDescending` | src/components/User/Favorites/Favorites.tsx:31 | sorting by a numeric key with the arguments swapped leaves the keys non-increasing |
| `Text.LeadingSpaces` | src/utils/validateField.ts:20 | the length of the white-space prefix: all white space, and the next character is not |
| `Text.TrailingSpaces` | src/utils/validateField.ts:20 | the length of the white-space suffix: all white space, and the character before it is not |
| `Text.Trim` | src/utils/validateField.ts:134 | `String.trim`: a contiguous slice of the input with only white space cut on either side, empty exactly when the input is all white space, neither end white space |
| `Text.Utf16Length` | src/utils/validateField.ts:136 | `.length` counts UTF-16 code units: between one and two per character |
| `Text.Utf16LengthAppend` | src/utils/validateField.ts:22 | the length of a concatenation is the sum of the lengths |
| `Text.Utf16LengthOfBmp` | src/utils/validateField.ts:22 | on characters of the Basic Multilingual Plane the length is the character count |
| `Text.Split` | src/components/Pages/Flats/EditFlat/EditFlat.tsx:35 | `String.split` on one character: at least one part, none holding the separator |
| `Text.IndexOf` | src/components/Pages/Flats/EditFlat/EditFlat.tsx:35 | the position of the first occurrence |
| `Text.JoinSplit` | src/components/Pages/Flats/Home/Home.tsx:84-85 | joining the parts of a split with the separator gives back the string |
| `Text.SplitJoin` | src/components/Pages/Flats/Home/Home.tsx:84-85 | splitting a join of separator-free parts gives back the parts |
| `Text.Before` | src/components/User/MyProfile/MyProfile.tsx:134 | the prefix before the first occurrence of the character, the whole string when there is none |
| `Text.BeforeIsFirstPart` | src/components/Pages/Flats/EditFlat/EditFlat.tsx:35 | `s.split(c)[0]` is that prefix |
| `Text.EmailShapeIsPattern` | src/utils/validateField.ts:29 | the position-based email test holds exactly when the string matches the email regular expression |
| `Text.EmailShapeGivesPattern` | src/utils/validateField.ts:29 | a string with the shape splits into the regular expression's three non-empty parts |
| `Text.PatternGivesEmailShape` | src/utils/validateField.ts:29 | three non-empty parts joined by '@' and '.' have the shape |
| `Text.EmailShapeHasOneAt` | src/utils/validateField.ts:29 | an accepted address has no white space and exactly one '@' |
| `UtcDate.DaysInMonth` | src/components/Pages/Flats/NewFlat/NewFlat.tsx:28 | every month has between 28 and 31 days |
| `UtcDate.FullYear` | src/components/Pages/Flats/NewFlat/NewFlat.tsx:28 | a year whose integral part is 0 to 99 is read as 1900 plus it; any other year is its integral part |
| `UtcDate.DateUtc` | src/components/Pages/Flats/NewFlat/NewFlat.tsx:28 | `Date.UTC`: NaN when any argument is; otherwise a whole number of days in milliseconds, within TimeClip's range |
| `UtcDate.EpochYear` | src/components/Pages/Flats/NewFlat/NewFlat.tsx:28 | 1970 starts at day 0 and is not a leap year |
| `UtcDate.DateUtcOfIntegers` | src/components/Pages/Flats/NewFlat/NewFlat.tsx:28 | on whole numbers, the year outside 0..99 and within range, the time is that day's number times the milliseconds in a day |
| `UtcDate.DayFromYearStep` | src/components/Pages/Flats/NewFlat/NewFlat.tsx:28 | consecutive years start exactly one year's length apart |
| `UtcDate.DayFromYearBounds` | src/components/Pages/Flats/NewFlat/NewFlat.tsx:28 | January 1st of a year lies 365 to 366 days per year from 1970, after it for later years and before it for earlier ones |
| `UtcDate.MakeDayInYear` | src/components/Pages/Flats/NewFlat/NewFlat.tsx:28 | a day number is the start of its year, plus the start of its month, plus the day less one |
| `UtcDate.DayFromYearGrows` | src/components/Pages/Flats/NewFlat/NewFlat.tsx:28 | later years start later, at least 365 days per year |
| `UtcDate.MonthStartStep` | src/components/Pages/Flats/NewFlat/NewFlat.tsx:28 | consecutive months start one month's length apart and December ends the year |
| `UtcDate.MonthsInOrder` | src/components/Pages/Flats/NewFlat/NewFlat.tsx:28 | a later month of the same year starts after an earlier one ends |
| `UtcDate.MonthsCarryIntoYears` | src/components/Pages/Flats/NewFlat/NewFlat.tsx:28 | month 12 of a year is month 0 of the next |
| `UtcDate.MonthsNormalize` | src/components/Pages/Flats/NewFlat/NewFlat.tsx:28 | MakeDay: any month number, negative or past 11, names the same day as its remainder in the year its quotient carries to |
| `UtcDate.DaysCarryIntoMonths` | src/components/Pages/Flats/NewFlat/NewFlat.tsx:28 | the day after the last day of a month is the first of the next month (or year) |
| `UtcDate.WithinYear` | src/components/Pages/Flats/NewFlat/NewFlat.tsx:28 | a calendar date's day number lies within its year |
| `UtcDate.CalendarOrder` | src/components/Pages/Flats/NewFlat/NewFlat.tsx:28 | on calendar dates, day numbers are ordered exactly as the dates are, and equal exactly when the dates are |
| `UtcDate.EarlierDateEarlierDay` | src/components/Pages/Flats/NewFlat/NewFlat.tsx:28 | an earlier calendar date has a smaller day number |
| `UtcDate.TwoDigitYears` | src/components/Pages/Flats/NewFlat/NewFlat.tsx:28 | a year from 0 to 99 gives the same time as 1900 plus that year |
| `UtcDate.MinusOne` | src/components/Pages/Flats/NewFlat/NewFlat.tsx:28 | `m - 1`: NaN exactly when `m` is, otherwise one less |
| `UtcDate.InputIsUtcMidnight` | src/components/Pages/Flats/NewFlat/NewFlat.tsx:26-28 | an input whose three parts read as a calendar date gives that date's UTC midnight |
| `UtcDate.InputDateUtc` | src/components/Pages/Flats/NewFlat/NewFlat.tsx:26-28 | a readable input has at least three parts and gives a whole day's UTC midnight, in milliseconds, within TimeClip's range |
| `UtcDate.InputParts` | src/components/Pages/Flats/EditFlat/EditFlat.tsx:59-60 | the input's time is `Date.UTC` of its three parts, the month less one |
| `UtcDate.ShortInputIsNaN` | src/components/Pages/Flats/NewFlat/NewFlat.tsx:27-28 | an input with fewer than three parts gives NaN |

## Left out

- **Requests and reloads.** HTTP requests, cookies, `window.location`, `alert`, `console` and full-page reloads are not performed. A request's outcome is a parameter (`Reply`, `EmailLookup`). A side effect is a returned value or a field of the page's state.
- **React machinery.** Hooks, effects, rendering and JSX are not modelled. Each handler is a method on a class holding the page's `useState` values. An effect is modelled as the method it calls.
- **Unseen helpers.** `calculateAge`, `normalizeDateUTC`, `getOneYearFromToday`, `handleRemoveUser`, `useTranslate` and `AuthContext` are not part of this model. Their results enter through the `Env` record or as parameters. The session lifecycle (login, logout, rehydration) is therefore not modelled.
- **JavaScript parsing and formatting.** `Number`, `parseInt`, `parseFloat`, `Date` parsing, `toISOString`, `toLocaleDateString` and `localeCompare` are oracles:
  - the `Env` fields and the `parseInt`, `parseFloat` and `collate` parameters;
  - `collate` is assumed to be a total preorder.
  - `Date.UTC` itself is modelled exactly, after section 21.4.1 of ECMA-262.
- **Floating point.** Numbers are exact reals without infinities. A text that JavaScript reads as ±Infinity (`"Infinity"`, `"1e400"`) reads as NaN here. The year-built rule, `Date.UTC` and the edit form's change test treat both alike; the members below do not.
- FieldValidation.StreetNumberError: refuses a street number that reads as +Infinity. The source accepts it, since `Number(value) < 1` is false there.
- FieldValidation.PositiveError: refuses an area size or rent price that reads as +Infinity. The source accepts it, since `Number(value) <= 0` is false there.
- Home.HomePage.ValidatePending: a lower bound that `parseFloat` reads as +Infinity, or an upper bound read as -Infinity, raises the range error in the source but none here.
- Messages.MessagesLoader: a creation time that `Date.parse` cannot read sorts as time 0. In JavaScript the comparator returns NaN there, and the resulting order is implementation-defined.
- Favorites.FavoritesLoader: the same simplification applies to an unreadable `createdAt`.
- Lists.SortBy: `Array.prototype.sort` is modelled as a stable insertion sort. The contracts state only what any correct sort guarantees: a permutation, ordered by the comparator.
- Home.RangeSplits: holds only for bounds without a '-'. A negative bound such as "-5" makes the price or area parameter ambiguous; the model builds the parameter as written but proves the round trip only for bounds without '-'.
- **Concurrency.** Overlapping email checks, concurrent 401 replies and stale responses are not modelled. Each handler runs to completion before the next.
- **Timers and event wiring.** The password-reset countdown and its redirect, the Enter-key listener on the users page, and the success effects that navigate after Register, NewFlat and EditFlat are not modelled. These are timers, key events and navigation.
- **Other page behaviour.** The following are not part of this model:
  - the profile page's loader and its action-data effect;
  - the delete-account and delete-user modals, beyond the users page's confirmation state;
  - the favourites page's remove handler, which only reloads the page.
- **Multipart encoding.** The exact `FormData` bytes are not modelled. The model records which fields are sent and whether the image goes as a file.
- **Display-only components.** The chat bot, nav bar, footer, error page, flat viewer, image-hover helper and router configuration are not modelled.

## Findings

| source | as written | input that shows it | evidently intended | confidence | as-written member | corrected member |
|---|---|---|---|---|---|---|
| src/components/User/MyProfile/MyProfile.tsx:62 | the profile action (and the admin's edit action, src/components/Pages/Admin/EditUser/EditUser.tsx:54) passes `{ checkEmail: true }` without `originalEmail`, so saving runs the availability check on the address the account already holds | a signed-in user changes only their first name and saves; the server reports their own address as registered, and the save is refused with the availability message | the unchanged address is not looked up, as the page's own email blur handler already does (src/components/User/MyProfile/MyProfile.tsx:170-183) | medium, not executed | `UserEdit.UnchangedEmailIsRefused` | `UserEdit.UnchangedEmailNeedsNoLookup` |
