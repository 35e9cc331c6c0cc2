# Bezmiâlem Vakıf Kart — a Dafny model of the app's logic

The app is a mobile client for a hospital's healthcare card. These parts of it are modelled:

- The login form validates a Turkish identity number (T.C. Kimlik No) by its two check digits, then hands off to a one-time-password (OTP) screen. Verifying the code there logs the user in.
- A persisted login flag and an in-memory copy of it pick between the logged-out routes and the tab routes. Every tab page sits behind a guard.
- The OTP module keeps one persisted context slot and one in-memory code. It also builds the request body for OTP-protected endpoints.
- The HTTP client retries failed requests with geometric back-off and unwraps `{success, message, data}` envelopes.
- The pages parse and filter their input, run the submit handlers' validation ladders, and walk two-step change flows. One list grows in windows of five.

Each page is a `class` whose fields are the page's React state. Each handler is a `method` on that class. A handler whose logic is more than a field update is specified by a pure function, which the lemmas talk about.

`localStorage` is one `LocalStorage` object shared by the OTP module, the app shell and the logout code. So when one of them removes a key, the others see the change. Every server reply, storage failure and network answer is a parameter. Handlers run to completion in one step.

Modules:

| file | module | what it holds |
|---|---|---|
| wrappers.dfy | Wrappers | `Option`, `Result` |
| seqs.dfy | Seqs | the subsequence relation |
| js_values.dfy | JsValues | JavaScript values, truthiness, truncating `%`, `\s`, `replace(/\D/g,'')`, `slice`, `includes`, `String(n)` |
| history.dfy | History | `history.push` / `history.replace` |
| browser_storage.dfy | BrowserStorage | `localStorage` |
| otp_context.dfy | OtpContext | src/services/otpContext.ts |
| api.dfy | Api | src/services/api.ts |
| auth.dfy | Auth | src/services/auth.ts |
| app.dfy | App | src/App.tsx |
| login_page.dfy | LoginPage | src/pages/LoginPage.tsx |
| basvuru_kontrolu_page.dfy | BasvuruKontroluPage | src/pages/BasvuruKontroluPage.tsx |
| otp_digits.dfy | OtpDigits | the six code boxes shared by OtpPage and ProfilPage |
| otp_page.dfy | OtpPage | src/pages/OtpPage.tsx |
| email_pattern.dfy | EmailPattern | ProfilPage's e-mail regular expression |
| profil_page.dfy | ProfilPage | src/pages/ProfilPage.tsx |
| phone_input.dfy | PhoneInput | src/components/PhoneInput.tsx |
| islemler_page.dfy | IslemlerPage | src/pages/IslemlerPage.tsx |

Behaviours of the code worth noting:

- **The negative-difference case.** A negative tenth-digit difference does not *always* fail. With JavaScript's `%`, `-10 % 10` is `-0`, and `-0 === 0`. So a negative difference that is a multiple of ten passes when the tenth digit is 0 (`LoginPage.NegativeMultipleOfTenAccepted`). A negative difference with a nonzero remainder fails even where a Euclidean modulo would accept it (`LoginPage.NegativeDifferenceRejected`). `LoginPage.TcRule` states the exact rule.
- **Whitespace in the number.** `Number(' ')` is 0, so the validator on its own accepts a leading space (`LoginPage.LeadingSpaceAccepted`). The input handlers strip non-digits, so the forms never submit such a value.
- **The placeholder number.** The familiar placeholder `12345678901` does not satisfy the check digits (`LoginPage.PlaceholderNumberRejected`).
- **What the OTP request carries.** The login form hands `{tcKimlik, telefon}` to the OTP screen without a `loginType`. The verification request therefore carries the phone and neither identity number (`OtpPage.LoginHandoffSendsNoIdentity`).
- **The code after logout.** `logout` clears storage only and leaves the in-memory OTP code alone. Every protected payload built afterwards still fails with "OTP context missing" (`Auth.LogoutThenBuild`).
- **The unused password handler.** `handlePasswordChange` exists, but nothing on the profile page renders the password modal or sets its fields. It is modelled as written.

## Model

| member | source | states |
|---|---|---|
| JsValues.TruncRem10 | src/pages/LoginPage.tsx:34 | JavaScript `%` by 10: the result lies strictly between -10 and 10 and differs from the operand by a multiple of 10. It agrees with the mathematical remainder for non-negative operands. For negative operands it is at most 0, so it is -((-x) mod 10), and zero exactly when the operand is a multiple of 10 |
| JsValues.DigitsOnly | src/pages/LoginPage.tsx:99 | `replace(/\D/g,'')`: the result is made only of ASCII digits and is no longer than the input |
| JsValues.DigitsOnlyAppend | src/pages/LoginPage.tsx:113 | the digit filter distributes over concatenation |
| JsValues.DigitsOnlyKeepsDigitStrings | src/pages/OtpPage.tsx:38 | a string of digits passes the filter unchanged |
| JsValues.DigitsOnlyIdempotent | src/pages/ProfilPage.tsx:430 | filtering twice equals filtering once |
| JsValues.DigitsOnlyIsSubsequence | src/components/PhoneInput.tsx:65 | the kept digits appear in the input in the same order |
| JsValues.Slice0 | src/components/PhoneInput.tsx:65 | `slice(0, n)` is a prefix whose length is min(n, length) for n ≥ 0, and which drops -n elements from the end for n < 0 |
| JsValues.Includes | src/components/PhoneInput.tsx:50-51 | `includes` is true exactly when the needle occurs at some index |
| JsValues.NatToDecimal | src/pages/IslemlerPage.tsx:139 | the decimal text of a natural number is non-empty and all digits |
| JsValues.IntToDecimal | src/pages/IslemlerPage.tsx:139 | `String(id)` is non-empty and starts with '-' exactly for a negative number. The rest is all digits and reads back as the number's magnitude |
| JsValues.DecimalRoundTrip | src/pages/IslemlerPage.tsx:139 | reading the printed digits back gives the number |
| BrowserStorage.LocalStorage.constructor | src/services/otpContext.ts:15 | storage starts with the given contents |
| BrowserStorage.LocalStorage.GetItem | src/services/otpContext.ts:23 | `getItem` is null exactly for a missing key, and otherwise returns the stored value |
| BrowserStorage.LocalStorage.SetItem | src/services/otpContext.ts:15 | `setItem` overwrites one key and nothing else |
| BrowserStorage.LocalStorage.RemoveItem | src/services/otpContext.ts:33 | `removeItem` deletes one key and nothing else |
| BrowserStorage.LocalStorage.Clear | src/services/auth.ts:6 | `clear` empties storage |
| OtpContext.LoadFrom | src/services/otpContext.ts:21-29 | `loadOtpContext` yields a context exactly when one was stored under `OTP_CONTEXT`. Nothing stored, or text that does not parse, gives null |
| OtpContext.BuildProtectedPayload | src/services/otpContext.ts:47-73 | fails with a missing context first and with a missing or empty code second; succeeds exactly when both are present. The key set is the base keys plus the body keys, and the body wins on every shared key. The identity fields, phone, cipher and code come from the session. `id` and `patient_id` appear exactly when truthy |
| OtpContext.OtpSession.constructor | src/services/otpContext.ts:11 | the in-memory code starts as null |
| OtpContext.OtpSession.Save | src/services/otpContext.ts:13-19 | a save that does not fail overwrites only the context slot, and a later load returns the saved context. A failed save changes nothing |
| OtpContext.OtpSession.Clear | src/services/otpContext.ts:31-37 | the code becomes null even when the removal throws, and the exception is reported. Otherwise only the context slot is removed, and a load then finds nothing |
| OtpContext.OtpSession.Load | src/services/otpContext.ts:21-29 | `loadOtpContext()` on the shared storage finds a context exactly when one is stored under the context key, and returns that one |
| OtpContext.OtpSession.BuildPayload | src/services/otpContext.ts:47-73 | `buildProtectedPayload(body)` on the session fails with a missing context when none is stored, succeeds exactly when a context and a non-empty code are held, and then carries the held code unless the body overrides it |
| OtpContext.OtpSession.SetCurrentOtp | src/services/otpContext.ts:39-41 | the code becomes the given value |
| OtpContext.SaveThenBuild | src/services/otpContext.ts:13-73 | after saving a context and setting a non-empty code, the payload succeeds with exactly the base keys and carries that phone, cipher and code |
| Api.RequestConfig.constructor | src/services/api.ts:46 | a request starts with retry counter 0 |
| Api.OnResponseError | src/services/api.ts:34-62 | an error without a config is rejected. Otherwise, when the counter is below the maximum and the status is absent, 0 or listed, the counter rises by one and the wait is `retryDelayMs·2^(counter-1)`. In every other case the counter is untouched and the error rejected |
| Api.Dispatch | src/services/api.ts:52-57 | re-issuing the request from the interceptor produces exactly the trace `Run` describes, and the counter rises once per retry |
| Api.RunBounded | src/services/api.ts:46-56 | the number of retries never exceeds `maxRetry` minus the starting counter, so a request is sent at most `maxRetry + 1` times. The final reply is the one to the last attempt |
| Api.RunDelaysGeometric | src/services/api.ts:44 | the k-th wait of a request is `retryDelayMs·2^(count+k)`, so the n-th retry waits `base·2^(n-1)` |
| Api.RunAttempts | src/services/api.ts:48-50 | when attempts fail retryably up to a first non-retryable reply or success, the request retries min(failures, retries left) times |
| Api.NoRetryByDefault | src/services/api.ts:43 | without `retryMeta.retry` a request is sent once and its outcome returned as is |
| Api.DefaultStatusList | src/services/api.ts:45 | with the default list 401 and 404 are never retried, while 503 and transport errors are retried when a retry is configured |
| Api.UnwrapResponse | src/services/api.ts:64-79 | a body that is not an object with `success` is returned unchanged. `success === false` raises an error carrying `message` (or 'Request failed' when it is falsy) and the whole body. Any other `success` yields `data` when present and the whole body otherwise |
| Api.UnwrapEnvelope | src/services/api.ts:66-75 | unwrapping inverts wrapping: a successful envelope gives back its data, and a failed one gives its message, or 'Request failed' when the message is absent or empty |
| Api.Request | src/services/api.ts:81-94 | a call is the retried request followed by unwrapping. A final HTTP error is a transport failure, and a failed envelope is a rejection |
| Api.FailureText | src/pages/OtpPage.tsx:81 | `err?.response?.data?.message \|\| fallback` shows the server's message, as text, whenever it is truthy, and the fallback otherwise |
| Auth.ClearSession | src/services/auth.ts:4-8 | storage is emptied, and a failure is swallowed |
| Auth.Logout | src/services/auth.ts:10-22 | storage is cleared whatever the server answers, no error reaches the caller, and the location becomes `/login` exactly when `redirect` holds |
| Auth.LogoutThenBuild | src/services/auth.ts:6 | logout leaves the in-memory code as it was, and the next protected payload fails with a missing context |
| Auth.EmptyStorageHasNoContext | src/services/otpContext.ts:48-49 | with nothing stored, every payload fails with "OTP context missing", whatever the code |
| App.AppState.constructor | src/App.tsx:53-62 | the login flag starts true exactly when the stored flag is the text "true", and the first effect run writes it back |
| App.AppState.SetLoggedIn | src/App.tsx:59-62 | storage is written only when the value changes, and afterwards storage mirrors the flag |
| App.AppState.HandleLogin | src/App.tsx:64-66 | the app ends logged in with the flag persisted, and a second call changes nothing |
| App.AppState.HandleLogout | src/App.tsx:68-72 | the flag goes false, its key is removed, and the OTP context and code are cleared. When the app was logged in, the effect writes "false" back under the removed key |
| App.Route | src/App.tsx:78-128 | logged out, no protected page is routed. A protected page is routed only when the stored flag is "true", and logged in, `/` leads to `/dashboard` |
| App.PrivateRoute | src/App.tsx:42-50 | the page is shown exactly when the stored flag is "true", and otherwise the route redirects to `/login` |
| App.LoggedOutRoutes | src/App.tsx:78-92 | logged out, exactly `/login`, `/otp`, `/basvuru-kontrolu` and `/` are routed, `/` leads to `/login`, and no protected page is reachable |
| App.ProtectedNeedsBothFlags | src/App.tsx:94-128 | a protected page needs both the in-memory and the stored flag. Logged in, `/` leads to `/dashboard`, and with the stored flag gone every routed page redirects to `/login` |
| App.DetailPathRoutes | src/App.tsx:106-110 | `/islemler/` followed by `String(id)` routes to the detail page for that id |
| App.VerifyOnOtpRoute | src/App.tsx:83-85 | a successful verification on the OTP route logs the app in, replaces the location with `/dashboard`, and that route then shows the dashboard |
| LoginPage.CharToNumber | src/pages/LoginPage.tsx:28 | `Number(ch)` is a number exactly for a digit or whitespace. Then it lies in 0..9, and a digit gives its value |
| LoginPage.ValidateTcKimlik | src/pages/LoginPage.tsx:25-37 | an accepted number has 11 characters and no leading '0' |
| LoginPage.ValidateMatchesRule | src/pages/LoginPage.tsx:25-37 | the validator, with NaN, truncating `%` and strict equality written out, accepts exactly the strings satisfying the arithmetic check-digit rule `TcRule` |
| LoginPage.NegativeDifferenceRejected | src/pages/LoginPage.tsx:34 | a number whose tenth-digit difference is -29 is rejected, though its digits satisfy the Euclidean form of the rule |
| LoginPage.NegativeMultipleOfTenAccepted | src/pages/LoginPage.tsx:34 | a difference of -10 with tenth digit 0 is accepted |
| LoginPage.LeadingSpaceAccepted | src/pages/LoginPage.tsx:26-28 | a leading space passes the leading-zero test and counts as 0, while a leading '0' is refused |
| LoginPage.ValidExample | src/pages/LoginPage.tsx:29-34 | 10000000146 is accepted |
| LoginPage.PlaceholderNumberRejected | src/pages/LoginPage.tsx:30 | 12345678901 is rejected |
| LoginPage.SumLeftOfValues | src/pages/LoginPage.tsx:29 | the left `reduce` over numbers none of which is NaN is the sum of their values |
| LoginPage.SumLeftNaN | src/pages/LoginPage.tsx:28-29 | one NaN makes the whole `reduce` NaN |
| LoginPage.FirstError | src/pages/LoginPage.tsx:42-64 | no error exactly when both fields are filled, the number has 11 characters and passes the validator, and the phone has 10 characters. The missing-field message comes exactly when a field is empty |
| LoginPage.FirstErrorIsEarliestFailure | src/pages/LoginPage.tsx:42-64 | no error is reported exactly when every check passes, and the error reported is exactly the earliest failing check |
| LoginPage.AcceptedInput | src/pages/LoginPage.tsx:42-69 | accepted input has a number of 11 characters, each a digit or whitespace, satisfying the rule, and a 10-character phone |
| LoginPage.LoginForm.constructor | src/pages/LoginPage.tsx:19-22 | the form starts empty with no toast |
| LoginPage.LoginForm.TcInput | src/pages/LoginPage.tsx:99 | the number field keeps only the digits typed |
| LoginPage.LoginForm.PhoneInput | src/pages/LoginPage.tsx:113 | the phone field keeps only the digits typed |
| LoginPage.LoginForm.Submit | src/pages/LoginPage.tsx:39-70 | the first failing check shows its message and nothing is navigated. Otherwise the form pushes `/otp` with `{tcKimlik, telefon}` and leaves the toast as it was. The fields are never changed |
| LoginPage.LoginForm.DismissError | src/pages/LoginPage.tsx:143 | dismissing hides the toast |
| BasvuruKontroluPage.DurumClass | src/pages/BasvuruKontroluPage.tsx:102-109 | 'onaylandi' gets 'status-approved', 'beklemede' 'status-pending' and 'reddedildi' 'status-rejected'. The class is 'status-notfound' exactly for an unknown status, and always one of the four classes |
| BasvuruKontroluPage.DurumText | src/pages/BasvuruKontroluPage.tsx:111-118 | 'onaylandi' reads 'Onaylandı', 'beklemede' 'Beklemede' and 'reddedildi' 'Reddedildi'. The label is 'Bulunamadı' exactly for an unknown status, and always one of the four labels |
| BasvuruKontroluPage.BadgeClassAndTextAgree | src/pages/BasvuruKontroluPage.tsx:102-118 | two statuses share a class exactly when they share a label |
| BasvuruKontroluPage.BasvuruForm.constructor | src/pages/BasvuruKontroluPage.tsx:29-34 | the form starts empty, not loading and without a result |
| BasvuruKontroluPage.BasvuruForm.TcInput | src/pages/BasvuruKontroluPage.tsx:140 | the number field keeps the digits of the entry, and '' for none |
| BasvuruKontroluPage.BasvuruForm.PhoneInput | src/pages/BasvuruKontroluPage.tsx:152 | the phone field keeps the digits of the entry, and '' for none |
| BasvuruKontroluPage.BasvuruForm.Submit | src/pages/BasvuruKontroluPage.tsx:50-78 | the same ladder and messages as the login form apply. On failure the loading flag and the previous result are untouched. The lookup starts exactly when all checks pass, with the result cleared and loading raised |
| BasvuruKontroluPage.BasvuruForm.CompleteLookup | src/pages/BasvuruKontroluPage.tsx:80-99 | loading ends false in every outcome. Success shows the fixed result, and failure raises the lookup error and keeps the old result |
| BasvuruKontroluPage.BasvuruForm.DismissError | src/pages/BasvuruKontroluPage.tsx:206 | dismissing hides the toast |
| OtpDigits.SlotValue | src/pages/OtpPage.tsx:38 | a box takes at most one character: the first digit typed, or '' exactly when nothing typed is a digit |
| OtpDigits.WriteSlot | src/pages/OtpPage.tsx:39-41 | writing one box leaves the other boxes and the box count unchanged, and keeps the boxes valid |
| OtpDigits.JoinShort | src/pages/OtpPage.tsx:57 | one-character boxes join to at most as many characters as there are boxes, and to exactly that many only when all are filled |
| OtpDigits.FullCodeMeansAllBoxes | src/pages/OtpPage.tsx:57-58 | the length-6 check on the joined code passes exactly when all six boxes are filled, and the code is then the boxes' digits in order |
| OtpDigits.JoinOfSingles | src/pages/ProfilPage.tsx:178 | joining single-character boxes keeps them in order |
| OtpDigits.EmptySlotsValid | src/pages/OtpPage.tsx:27 | six empty boxes are valid and join to '' |
| OtpPage.VerifyPayload | src/pages/OtpPage.tsx:67-73 | the request has the code and the phone from the navigation state. `tc_identity_no` is set only under `loginType` 'tc' and `identity_no` only under 'identity', each taken from its field |
| OtpPage.IdentityFieldsExclusive | src/pages/OtpPage.tsx:71-72 | the two identity numbers are never both sent |
| OtpPage.LoginHandoffSendsNoIdentity | src/pages/LoginPage.tsx:69 | started from the login form's state, the request carries the phone and neither identity number |
| OtpPage.OtpForm.constructor | src/pages/OtpPage.tsx:27-30 | six empty boxes, no toast, not verifying |
| OtpPage.OtpForm.HandleChange | src/pages/OtpPage.tsx:37-46 | one box takes the first digit typed while the others keep theirs, and the boxes stay valid |
| OtpPage.OtpForm.HandleVerify | src/pages/OtpPage.tsx:55-87 | nothing happens while a verification runs. An incomplete code raises the length message and sends nothing. Otherwise the request is sent and a truthy token is stored. Success reports `onVerified` and replaces the location with `/dashboard`; failure shows the server message or the fallback. The flag ends false |
| OtpPage.OtpForm.DismissError | src/pages/OtpPage.tsx:127 | dismissing hides the toast |
| EmailPattern.IsValidEmail | src/pages/ProfilPage.tsx:217-218 | an accepted address has at least five characters, exactly one `@` and no whitespace |
| EmailPattern.EmailCheckMatchesRegex | src/pages/ProfilPage.tsx:217-218 | the one-pass check accepts exactly the strings the pattern `^[^\s@]+@[^\s@]+\.[^\s@]+$` matches |
| EmailPattern.AcceptedEmail | src/pages/ProfilPage.tsx:217 | an ordinary address is accepted |
| EmailPattern.RejectedEmails | src/pages/ProfilPage.tsx:217 | a missing top-level part, an empty local part and a space are refused |
| ProfilPage.Raise | src/pages/ProfilPage.tsx:57-59 | raising a notice opens the toast with its message and color, and no notice leaves the toast as it was |
| ProfilPage.PasswordCheck | src/pages/ProfilPage.tsx:80-99 | no error exactly when all fields are filled, the new passwords agree and are at least 6 long. Otherwise the message of the first failing check comes back, in order: missing field, mismatch, too short |
| ProfilPage.ContinueWith | src/pages/ProfilPage.tsx:209-240 | a running submission swallows the call. A failed check raises its message and sends nothing. The request is sent exactly when no check fails, the flow moves to the code step exactly on success, and the flag is always released |
| ProfilPage.PhoneCheck | src/pages/ProfilPage.tsx:122-133 | the number passes exactly when present with ten digits after stripping, and each failure has its message |
| ProfilPage.EmailCheck | src/pages/ProfilPage.tsx:211-223 | the address passes exactly when present and matching the pattern, and each failure has its message |
| ProfilPage.PhoneContinueAsWritten | src/pages/ProfilPage.tsx:120-152 | it sends, moves and notifies as the corrected handler does, but its flag ends set after a failed request |
| ProfilPage.PhoneContinue | src/pages/ProfilPage.tsx:120-152 | `{phone}` is sent exactly when not submitting and the number passes. The code step follows exactly on success, and the flag is always released |
| ProfilPage.EmailContinue | src/pages/ProfilPage.tsx:209-240 | `{email}` is sent exactly when not submitting and the address matches. The code step follows exactly on success, and the flag is always released |
| ProfilPage.PhoneRetryBlockedAsWritten | src/pages/ProfilPage.tsx:141-151 | as written, after one failed request every later continue is swallowed: nothing is sent and the code step is never reached |
| ProfilPage.PhoneRetryAfterFailure | src/pages/ProfilPage.tsx:120-152 | with the flag released, a failed number can be sent again, and a successful retry reaches the code step |
| ProfilPage.VerifyWith | src/pages/ProfilPage.tsx:176-201 | a running verification swallows the call. A code shorter than 6 raises the length message. The request `{key, code}` is sent exactly when the code has six characters, and the change completes exactly on success. The flag is always released |
| ProfilPage.ProfilForm.constructor | src/pages/ProfilPage.tsx:38-64 | all modals closed, fields empty, both flows at the first step with six empty boxes, no flag set |
| ProfilPage.ProfilForm.LoadProfile | src/pages/ProfilPage.tsx:66-76 | the profile is fetched with at most one retry, and its phone and e-mail, or '', become current. A failure changes nothing |
| ProfilPage.ProfilForm.HandlePasswordChange | src/pages/ProfilPage.tsx:78-118 | the first failing check shows its message and sends nothing. On success the toast confirms, the modal closes and all three fields are cleared. On any failure the fields are kept. The flag ends released |
| ProfilPage.ProfilForm.OpenPhoneModal | src/pages/ProfilPage.tsx:384 | opens the phone modal |
| ProfilPage.ProfilForm.PhoneInput | src/pages/ProfilPage.tsx:430 | the number field keeps only digits |
| ProfilPage.ProfilForm.HandlePhoneContinue | src/pages/ProfilPage.tsx:120-152 | state moves exactly as `PhoneContinue` says, covering the request, flag, toast and step |
| ProfilPage.ProfilForm.HandleOtpInputChange | src/pages/ProfilPage.tsx:154-162 | one box takes the first digit typed while the others keep theirs |
| ProfilPage.ProfilForm.ResetPhoneModalState | src/pages/ProfilPage.tsx:203-207 | back to the number step with empty boxes and no number, and the flags untouched |
| ProfilPage.ProfilForm.ClosePhoneModal | src/pages/ProfilPage.tsx:411-414 | closing resets the flow |
| ProfilPage.ProfilForm.HandleVerifyPhone | src/pages/ProfilPage.tsx:176-201 | state moves as `VerifyWith` says. On success the new number becomes current, the modal closes and the flow resets. Otherwise the flow is untouched |
| ProfilPage.ProfilForm.OpenEmailModal | src/pages/ProfilPage.tsx:388 | opens the e-mail modal |
| ProfilPage.ProfilForm.EmailInput | src/pages/ProfilPage.tsx:497 | the address field holds the entry as typed |
| ProfilPage.ProfilForm.HandleEmailContinue | src/pages/ProfilPage.tsx:209-240 | state moves exactly as `EmailContinue` says |
| ProfilPage.ProfilForm.HandleEmailOtpInputChange | src/pages/ProfilPage.tsx:242-250 | one box takes the first digit typed while the others keep theirs |
| ProfilPage.ProfilForm.ResetEmailModalState | src/pages/ProfilPage.tsx:291-295 | back to the address step with empty boxes and no address |
| ProfilPage.ProfilForm.CloseEmailModal | src/pages/ProfilPage.tsx:479-482 | closing resets the flow |
| ProfilPage.ProfilForm.HandleVerifyEmail | src/pages/ProfilPage.tsx:264-289 | state moves as `VerifyWith` says. On success the new address becomes current, the modal closes and the flow resets |
| ProfilPage.ProfilForm.DismissToast | src/pages/ProfilPage.tsx:546 | dismissing closes the toast and keeps its text |
| ProfilPage.HandleLogout | src/pages/ProfilPage.tsx:297-300 | the logout button sends the browser to `/login` and leaves the app logged out with no code. When the wipe succeeds, only the login flag "false" remains in storage |
| PhoneInput.PhoneChange | src/components/PhoneInput.tsx:64-66 | the emitted value is a prefix of the entry's digits, of length min(maxLength, digit count) |
| PhoneInput.PhoneChangeStable | src/components/PhoneInput.tsx:65 | filtering an emitted value again changes nothing |
| PhoneInput.Filter | src/components/PhoneInput.tsx:47-53 | exactly the countries whose lower-cased name, or whose code, contains the lower-cased query are kept |
| PhoneInput.FilterAppend | src/components/PhoneInput.tsx:47-53 | filtering a concatenation is the concatenation of the filtered parts, so each entry is kept once per occurrence |
| PhoneInput.FilterIsSubsequence | src/components/PhoneInput.tsx:49 | the filter keeps the table's order |
| PhoneInput.Search | src/components/PhoneInput.tsx:42-55 | a blank or whitespace-only query restores the whole table, and any other query keeps exactly the matching countries |
| PhoneInput.SearchIsSubsequence | src/components/PhoneInput.tsx:42-55 | whatever the query, the list shown is an ordered selection of the table |
| PhoneInput.SubsequenceReflexive | src/components/PhoneInput.tsx:45 | the whole table is a selection of itself |
| PhoneInput.FindByCode | src/components/PhoneInput.tsx:29 | the selected country is the first entry of the table with the given code, and it is null exactly when no entry has it |
| PhoneInput.CountryPicker.constructor | src/components/PhoneInput.tsx:25-27 | the dropdown starts closed, showing the whole table with an empty search |
| PhoneInput.CountryPicker.ToggleDropdown | src/components/PhoneInput.tsx:78 | the button flips the dropdown |
| PhoneInput.CountryPicker.ClickOutside | src/components/PhoneInput.tsx:32-36 | a click outside closes it |
| PhoneInput.CountryPicker.HandleCountrySearch | src/components/PhoneInput.tsx:42-55 | the search text is stored, and the list becomes the search result, an ordered selection of the table |
| PhoneInput.CountryPicker.HandleSelectCountry | src/components/PhoneInput.tsx:57-62 | the chosen code is emitted, the dropdown closes, and the search and list reset |
| IslemlerPage.StatusLabel | src/pages/IslemlerPage.tsx:183 | the badge reads 'Tamamlandı' exactly for 'tamamlandi', and 'Beklemede' otherwise |
| IslemlerPage.DetailPath | src/pages/IslemlerPage.tsx:139 | the card's path starts with `/islemler/`, and for a non-negative id the rest is all digits and reads back as the id |
| IslemlerPage.WindowIsPrefix | src/pages/IslemlerPage.tsx:124 | the window is a prefix of the data of length min(count, n), and the whole data exactly when count ≥ n |
| IslemlerPage.WindowGrows | src/pages/IslemlerPage.tsx:131-133 | raising the count only extends the window |
| IslemlerPage.IslemlerList.constructor | src/pages/IslemlerPage.tsx:117-119 | the list starts empty and loading, with count 5 |
| IslemlerPage.IslemlerList.InitialLoad | src/pages/IslemlerPage.tsx:121-127 | the first load shows the first min(5, n) items and ends loading |
| IslemlerPage.IslemlerList.LoadMore | src/pages/IslemlerPage.tsx:129-136 | the count rises by exactly 5, the list becomes the new window, and the old list is a prefix of it |
| IslemlerPage.IslemlerList.ScrollDisabled | src/pages/IslemlerPage.tsx:193 | infinite scroll is disabled exactly when the window covers the whole data |
| IslemlerPage.IslemlerList.HandleCardClick | src/pages/IslemlerPage.tsx:138-140 | pushes `/islemler/{id}` with the item as state, and that path routes to the item's detail page |

## Left out

- Waiting is not modelled: the `setTimeout` waits, the 15-second timeout and the mock delays. The retry delay is returned as a value, and each mock lookup's outcome is a parameter.
- The server is not modelled. Every reply is a parameter, either the reply to each attempt (`net`) or a handler's final outcome.
- No second click can land while a handler awaits: handlers run to completion in one step. The busy-flag guards are modelled, and they matter across calls.
- JSON serialisation of the OTP context is not modelled. Storage holds context values. Text under the context key stands for any content that does not parse.
- JavaScript numbers are integers here; floating point is not modelled. `Number(ch)` is exact for digits and whitespace, and gives NaN otherwise.
- `toLowerCase` is a parameter of the country search, because its Unicode case mapping is not modelled. `String.length` counts characters rather than UTF-16 code units.
- The `maxlength`/`maxLength` attributes of the input elements are not modelled. They are browser limits, not code.
- Focus management is not modelled: the OTP box focus moves, `handleKeyDown` and `useEffectOnce`.
- The request-logging interceptor is left out. It only writes to the console.
- `typeof window !== 'undefined'` is taken as true: the app runs in a browser.
- Route matching is literal. react-router also accepts a trailing slash and ignores letter case.
- The `COUNTRY_CODES` table (src/utils/countryCodes.ts) is not part of this model, so the country list is a parameter.
- The mock transaction list is a parameter of `IslemlerList`.
- DashboardPage, IslemDetayPage, DestekPage and IletisimPage are not part of this model. Neither are the mock data files, the date formatting or the type declarations.
- ProfilPage.ProfilForm.HandlePhoneContinue: releases the submitting flag after a failed request, which the source does not; the as-written behaviour is `ProfilPage.PhoneContinueAsWritten` (see Findings).
- `OnResponseError` rejects the error unchanged and does not model the AxiosError object. `Request` reports a failed envelope as `Rejected` with its message and body.

## Findings

| source | as written | input that shows it | evidently intended | confidence | as-written member | corrected member |
|---|---|---|---|---|---|---|
| src/pages/ProfilPage.tsx:141-151 | after a failed phone-change request, the `catch` returns before `setIsPhoneSubmitting(false)`. Nothing else resets the flag, closing the modal included, so every later "continue" is swallowed by the guard at line 121 | a valid ten-digit number and a first request that fails; any second attempt then sends nothing | release the flag on every path, as the e-mail handler does at line 239 | medium, not executed | ProfilPage.PhoneContinueAsWritten | ProfilPage.PhoneContinue |

`ProfilPage.PhoneRetryBlockedAsWritten` exhibits the as-written behaviour. `ProfilPage.PhoneRetryAfterFailure` proves the corrected behaviour, which `ProfilPage.ProfilForm.HandlePhoneContinue` follows.
