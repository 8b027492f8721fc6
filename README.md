# Smart Agriculture — a verified model of the application logic

This project models the logic that sits behind the pages of the Smart-Agriculture system. Leaf images go to Keras
classifiers. The crop pages predict the crop with an SVC classifier, and estimate yield and price as the mean
per-acre ratio of the matching rows times the area. The behaviour around those computations is what is modelled
here:

- **The leaf-disease page.** Decides between "healthy", a precaution and general advice. It does this in the
  stand-alone detector (`frontend.py`) and in the bilingual Streamlit page (`app.py`). The bilingual page
  translates the answer to Kannada and builds the text that is read aloud and mailed.
- **The crop-prediction form.** Validates the location, soil and area, and selects the data rows for that
  location and soil, and tells when the estimation stage on those rows raises `ValueError`. It does this in
  `crop.py` and in the bilingual form of `app.py`.
- **The Kannada tables.** Display names, and the reverse lookup from a Kannada option back to the English name
  used in the data.
- **The chatbot.** Extracts location, soil and area from a question (`apps.py`), answers through a cached Gemini
  call on the whitespace-normalised question, and otherwise uses the keyword fallback.
- **The Flask account routes.** E-mail check, sign-up with an e-mailed four-digit code, resend, log-in and log-out,
  and password reset by a four-digit OTP.

Modules, one per file:

- **Wrappers** — `Option`.
- **Text** — the string functions of Python the code relies on: `lower`, `strip`, `split()`, `" ".join`,
  `replace` and `in` on strings.
- **Tables** — dictionaries as ordered key/value sequences. The first match wins, as in Python's insertion-ordered
  `dict`.
- **Translation** — `translations_kn` and the name lookups.
- **CropForm** — the two crop forms.
- **Advice** — the precaution tables and the diagnosis both pages share.
- **Frontend** — the detector's display loop, as a method.
- **LeafReport** — the bilingual leaf section, its loop as a method.
- **Chat** — the chatbot functions.
- **Codes** — the four-digit codes.
- **Accounts** — each account route as a transition on the application state: the users table, the two
  module-level code dictionaries and the browser session.
- **AccountProperties** — invariants and flows over those transitions.
- **AccountService** — a class whose fields are that state. Each of its methods updates the fields in place and
  is proved to match the transition of its route.

Each route's result is an outcome datatype, one constructor per flash message or redirect. Inputs that come from
outside are parameters of the operations:

- the random draw behind each code;
- the current time;
- whether the mail server accepted a message;
- what Gemini answers for a prompt;
- how `float()` parses the area.

## Model

| member | source | states |
|---|---|---|
| Text.LeadingSpaces | apps.py:605 | the count of leading characters skipped by `strip`: within the string, and the next character is not whitespace |
| Text.TrailingSpaces | apps.py:605 | the count of trailing characters skipped by `strip`: within the string, and the character before them is not whitespace |
| Text.TrimLeft | apps.py:605 | the left half of `strip`: the result is empty or starts with a non-whitespace character |
| Text.TrimRight | apps.py:605 | the right half of `strip`: the result is empty or ends with a non-whitespace character |
| Text.TrimLeftDropsSpace | apps.py:605 | every character `strip` drops on the left is whitespace |
| Text.TrimRightDropsSpace | apps.py:605 | every character `strip` drops on the right is whitespace |
| Text.TrimLeftNoop | apps.py:605 | stripping a string that starts with a non-space leaves it unchanged on the left |
| Text.TrimRightNoop | apps.py:605 | stripping a string that ends with a non-space leaves it unchanged on the right |
| Text.TrimLeftIdempotent | apps.py:605 | stripping the left twice is stripping it once |
| Text.StripIdempotent | apps.py:605 | `strip` is idempotent |
| Text.LowerSlice | apps.py:198 | lowercasing commutes with taking a slice |
| Text.WordEnd | apps.py:191 | the end of the first word: no whitespace before it, whitespace (or the end) at it |
| Text.Words | apps.py:191 | `split()` yields only non-empty words without whitespace |
| Text.WordsIgnoreLeadingSpace | apps.py:191 | `split()` ignores leading whitespace |
| Text.JoinEnds | apps.py:191 | joining words gives a non-empty string that starts with the first word's first character and ends with the last word's last character |
| Text.WordsOfWord | apps.py:191 | splitting a single word gives that word |
| Text.WordEndAt | apps.py:191 | the first word ends at the first whitespace character |
| Text.WordsStep | apps.py:191 | `split()` takes the first word and continues after it |
| Text.TrimLeftSpace | apps.py:191 | a leading space makes no difference to left-stripping |
| Text.WordThenSpace | apps.py:191 | in a word followed by a space, the first word is that word |
| Text.WordsOfCons | apps.py:191 | splitting a word, a space and the rest gives that word followed by the words of the rest |
| Text.TailWords | apps.py:191 | the remaining words of a list of words are words |
| Text.WordsOfJoin | apps.py:191 | `split()` undoes `" ".join` on a list of words (the round trip behind the normalisation) |
| Text.StripJoin | apps.py:191 | a joined list of words has nothing to strip |
| Text.NormalizeIdempotent | apps.py:191 | normalising a question twice equals normalising it once |
| Text.EndsWithConcat | app.py:550 | a text extended by a suffix ends with that suffix (the appended precaution is the end of the result text) |
| Tables.KeyIndex | app.py:147 | the index of the first entry with the key; absent exactly when no entry has it |
| Tables.ValueIndex | app.py:161-163 | the index of the first entry with the value; absent exactly when no entry has it |
| Tables.ContainedKeyIndex | frontend.py:86-87 | the first entry whose key occurs in the text; absent exactly when no key occurs |
| Tables.GetOrSpec | app.py:145-147 | `dict.get(k, d)` yields the value of the entry with key k, or d when there is none |
| Tables.FirstKeyUnique | app.py:147 | the first entry with a key is unique |
| Tables.FirstValueUnique | app.py:161-163 | the first entry with a value is unique |
| Tables.ReverseGetOr | app.py:159-164 | the reverse lookup yields the key of the first entry with that value, or the default when there is none |
| Tables.NameRoundTrip | app.py:145-164 | a name shown through the table and looked up in reverse comes back, when no earlier entry has the same value |
| Translation.CleanKeyIndex | app.py:153-156 | the first key that equals the name once both are lowercased with `_` read as a space; absent exactly when none does |
| Translation.DiseaseName | app.py:149-157 | an exact key gives its value; otherwise the first key matching after cleaning gives its value; otherwise the name with every `_` made a space |
| Translation.Translate | app.py:166-170 | English text is shown as is; Kannada text is the table value of its key, or the text itself when the table has no such key |
| Translation.TranslateIgnoresDestination | app.py:166-170 | the destination-language argument has no effect on the translation |
| Translation.OptionRoundTrip | app.py:383-390 | the options start with the placeholder, and selecting the k-th name's option gives back the English name (the mapping at app.py:407-408) |
| CropForm.Slice | crop.py:45 | the selected rows all match the location and soil, and there are no more of them than rows |
| CropForm.SliceAppend | crop.py:45 | selection distributes over concatenated data |
| CropForm.SliceCounts | crop.py:45 | every matching row is kept as often as it occurs, and no other row is kept |
| CropForm.SliceEmpty | crop.py:45-48 | the selection is empty exactly when no row matches |
| CropForm.TrainSplitEmptyIffOneRow | crop.py:76 | a 20% test split leaves no training row exactly when the slice has one row |
| CropForm.SubmitStandalone | crop.py:35-99 | each outcome of the stand-alone form as an iff of the inputs: missing selection, missing area, no data, an invalid number (the area does not parse, or the estimation stage raises `ValueError` on the non-empty matching rows), or an estimate over the matching rows with the parsed area |
| CropForm.OneRowIsInvalidNumber | crop.py:76-97 | as written, a parsed area with exactly one matching row is reported as an invalid number |
| CropForm.SubmitStandaloneFixed | crop.py:35-99 | corrected: "invalid number" exactly when the area does not parse; an estimation failure on a parsed area gets its own outcome; the other outcomes as written |
| CropForm.StandaloneFixOnlyRenames | crop.py:96-97 | the corrected form differs from the form as written only where a parsed area was reported as an invalid number |
| CropForm.SubmitBilingual | app.py:397-491 | each outcome of the bilingual form, as iffs, including the username check, the Kannada-to-English mapping of the selections and the estimation-stage `ValueError` reported as an invalid number |
| CropForm.SubmitBilingualFixed | app.py:397-491 | corrected: "invalid number" exactly when the area does not parse, and otherwise the outcome as written, with an estimation failure on a parsed area given its own outcome |
| CropForm.BilingualMatchesStandalone | app.py:397-412 | in English, with a username given, the bilingual form answers as the stand-alone form does, both as written and as corrected |
| Advice.Diagnose | frontend.py:80-93 | healthy exactly when "healthy" occurs in the lowercased class; otherwise the first precaution whose key occurs in the lowercased, underscored class; general advice exactly when no key occurs |
| Advice.DiagnoseFirstKey | frontend.py:86-91 | for an unhealthy class, the first key that occurs decides the precaution |
| Advice.WarningsAppend | frontend.py:89 | the warnings shown for two display sequences are the warnings of each, in order |
| Advice.InfosAppend | frontend.py:93 | the notes shown for two display sequences are the notes of each, in order |
| Advice.PrecautionMessages | frontend.py:88-89 | a precaution display shows exactly that precaution as its warning, and no note |
| Advice.AdviceMessages | frontend.py:92-93 | the general-advice display shows exactly the advice as its note, and no warning |
| Advice.AbsentFirstChar | frontend.py:87 | a key whose first character is absent from the text cannot occur in it |
| Advice.EarlyBlightExample | frontend.py:20-29 | example: "Tomato Early Blight" gets the early-blight precaution, the first entry of the table |
| Advice.EarlyBlightNotHealthy | frontend.py:80 | example: "Tomato Early Blight" is not judged healthy |
| Advice.EarlyBlightKey | frontend.py:87 | example: the key `early_blight` occurs in the matched form of "Tomato Early Blight" |
| Advice.HealthyExample | frontend.py:80-81 | example: "Tomato Healthy Early_Blight" is healthy although it names a disease with a precaution, for any precaution table |
| Advice.HealthyMentioned | frontend.py:80 | example: "Healthy" in "Tomato Healthy Early_Blight" is found case-insensitively |
| Frontend.ShowPrediction | frontend.py:80-93 | the displays the loop emits are those of the diagnosis |
| Frontend.HealthyShownAlone | frontend.py:80-81 | a healthy leaf shows only the success banner, with no warning and no advice |
| Frontend.FirstKeyWins | frontend.py:86-91 | an unhealthy leaf whose first matching key is i shows that precaution, once, under the precaution heading, and no advice |
| Frontend.GeneralAdviceOnce | frontend.py:92-93 | an unhealthy leaf with no matching key shows the general advice once, and no warning |
| Frontend.OneAnswer | frontend.py:80-93 | every prediction shows at most one warning or note in total |
| LeafReport.BuildReport | app.py:514-568 | the result text, precaution text and displays the section builds are those of the specification of the page |
| LeafReport.ExpectedHealthy | app.py:514-520 | a healthy leaf gets the healthy result text in its language, no precaution, and the success banner |
| LeafReport.ExpectedFirstKey | app.py:544-556 | for an unhealthy leaf, the first matching key gives the precaution in the page's language, appended to the result text |
| LeafReport.ExpectedNoKey | app.py:558-568 | for an unhealthy leaf with no matching key, the general advice in its language is the precaution, and is appended |
| LeafReport.HealthyReport | app.py:514-520 | a healthy report shows neither warnings nor notes, and its precaution text is empty |
| LeafReport.ReportFirstKeyWins | app.py:544-556 | an unhealthy report with a matching key shows exactly that precaution as its warning, and the result text ends with it |
| LeafReport.ReportGeneralAdvice | app.py:558-568 | an unhealthy report without a matching key shows the general advice as its only note, and the result text ends with it |
| LeafReport.AlignedPrecautionText | app.py:552 | when the Kannada table lists the English keys in the same order, the Kannada precaution is the Kannada entry for that key |
| LeafReport.KannadaPrecautionsAligned | app.py:56-75 | the two precaution tables of the page are aligned in that way |
| LeafReport.SameKeys | app.py:56-75 | every English precaution key appears in the Kannada table at the same position |
| LeafReport.DistinctKeys | app.py:56-64 | the English precaution keys are distinct |
| LeafReport.EnglishReportMatchesDetector | app.py:507 | in English, for a class without underscores, the page shows the same messages as the stand-alone detector |
| LeafReport.EnglishShownCases | app.py:507-568 | in English, a precaution shows the detector's three messages with the class in the heading written with spaces for `_`; a healthy leaf and general advice show exactly the detector's messages |
| LeafReport.EnglishReportSameAdvice | app.py:507-568 | in English, for every class, the page shows the detector's messages in the same order, the same warnings and the same advice; only a precaution heading differs, naming the class with each `_` made a space |
| Codes.DigitChar | apps.py:358 | a digit below ten is written as a decimal digit character |
| Codes.DecimalString | apps.py:358 | `str` of a natural number is a non-empty string of digits without a leading zero |
| Codes.DigitValue | apps.py:358 | a digit character stands for a value below ten |
| Codes.DecimalRoundTrip | apps.py:358 | reading back the decimal string of a number gives that number |
| Codes.FourDigits | apps.py:358 | numbers from 1000 to 9999 are written with four digits |
| Codes.GenerateCode | apps.py:357-358 | a code is four digits without a leading zero and reads as the draw |
| Codes.CodeInjective | apps.py:357-358 | different draws give different codes |
| Codes.DecimalValueBound | apps.py:358 | a digit string without a leading zero reads between the powers of ten fixed by its length |
| Codes.DecimalStringOfValue | apps.py:358 | writing the value of a digit string without a leading zero gives that string back |
| Codes.EveryCodeIsGenerated | apps.py:558-559 | every four-digit code is the code of some draw from 1000 to 9999 |
| Chat.AltAt | apps.py:159-160 | the first alternative, in pattern order, that matches at a position, case-insensitively; absent exactly when none matches |
| Chat.SearchFrom | apps.py:159-160 | the leftmost position from i at which some alternative matches, and that alternative; absent exactly when no position matches |
| Chat.SearchWord | apps.py:159-160 | `re.search` finds a match exactly when some position matches; the text it returns occurs at that position and equals the alternative up to case |
| Chat.SearchWordFound | apps.py:159-160 | the search succeeds exactly when some alternative matches at some position |
| Chat.DigitRunEnd | apps.py:161 | the end of a run of digits: only digits before it, and a non-digit (or the end) at it |
| Chat.NumberEnd | apps.py:161 | a number starting at a digit is non-empty |
| Chat.FirstDigit | apps.py:161 | the first digit at or after a position; absent exactly when there is none |
| Chat.SearchArea | apps.py:161 | an area is found exactly when the question has a digit; it is a numeral that starts at the first digit and is either all digits or digits, a point and digits |
| Chat.ExtractCropDetails | apps.py:158-166 | the three details are found together or not at all, exactly when the location, soil and area patterns all match |
| Chat.ExtractedNamesAreListed | apps.py:158-166 | extracted locations and soils are, up to case, names from the patterns |
| Chat.LowerPrefix | apps.py:159-160 | lowercasing commutes with taking a prefix |
| Chat.SandyLoamStartsWithSandy | apps.py:160 | wherever "Sandy Loam" matches, "Sandy" matches too |
| Chat.SandyLoamNeverChosen | apps.py:160 | at no position does the alternation choose "Sandy Loam" |
| Chat.OtherSoilLengths | apps.py:160 | every other soil name differs in length from "Sandy Loam" |
| Chat.SoilNeverSandyLoam | apps.py:160 | the extracted soil is never "Sandy Loam", whatever the question |
| Chat.FallbackResponse | apps.py:197-213 | the reply of the first keyword contained in the lowercased input, or the default reply when none is contained |
| Chat.GeminiResponse | apps.py:188-195 | an empty input gets the prompt to give input; otherwise a non-empty cached answer for the normalised question is returned, and the fallback otherwise |
| Chat.SpacingDoesNotChangeTheQuestion | apps.py:168-195 | two inputs that differ only in whitespace get the same cached answer |
| Chat.QuestionNormalizedOnce | apps.py:191-192 | normalising the question is idempotent, so the cache key is stable |
| Accounts.CheckEmail | apps.py:255-268 | the answer is "exists" exactly when the stripped e-mail is non-empty and registered |
| Accounts.Signup | apps.py:399-459 | each rejection, as an iff of the form and the users table, leaves the state unchanged; an accepted form stores a fresh code with a ten-minute expiry and parks the pending registration in the session, whether or not the mail is sent |
| Accounts.VerifyEmail | apps.py:270-336 | each of the seven outcomes as an iff: a matching code entered in time registers unless the insert conflicts (then "Registration failed"), and a mismatched code entered in time is "Invalid verification code"; an expired code is deleted; a matching code inserts the user as verified, clears the pending registration and deletes the code; otherwise nothing changes |
| Accounts.ResendVerification | apps.py:338-355 | without a pending registration nothing changes; otherwise a fresh code replaces the stored one, and "sent" exactly when the mail is sent |
| Accounts.LoginDetails | apps.py:465-481 | log-in succeeds exactly when the stripped name is registered and the password checks, and then only the session's user changes |
| Accounts.Logout | apps.py:483-487 | the session's user is cleared and nothing else changes |
| Accounts.ForgotPassword | apps.py:602-640 | each outcome as an iff; a known user gets a fresh OTP with a ten-minute expiry; only a sent mail moves the session to that user; the OTP-verified flag is left as it was |
| Accounts.ForgotPasswordFixed | apps.py:602-640 | as forgot_password, with the same outcome, but moving the session to a user also clears the OTP-verified flag |
| Accounts.VerifyOtp | apps.py:642-674 | each outcome as an iff; an expired OTP is deleted; a matching OTP sets the verified flag for the session's user; otherwise nothing changes |
| Accounts.ResetPassword | apps.py:676-716 | refused unless a reset user is in the session and the OTP is verified; missing, mismatched and too-short passwords change nothing; a reset re-hashes only that user's password and clears the reset session and token |
| AccountProperties.VerifyEmailKeepsValid | apps.py:270-336 | verifying an e-mail keeps registered e-mails unique and stored codes four-digit |
| AccountProperties.ResetPasswordKeepsValid | apps.py:676-716 | a password reset keeps the state valid |
| AccountProperties.SignupKeepsValid | apps.py:399-459 | sign-up keeps the state valid |
| AccountProperties.ResendKeepsValid | apps.py:338-355 | resending keeps the state valid |
| AccountProperties.ForgotPasswordKeepsValid | apps.py:602-640 | forgot_password keeps the state valid |
| AccountProperties.VerifyOtpKeepsValid | apps.py:642-674 | OTP verification keeps the state valid |
| AccountProperties.StepKeepsValid | apps.py:255-716 | every route keeps the state valid |
| AccountProperties.StepFixedKeepsValid | apps.py:255-716 | every route, with the corrected forgot_password, keeps the state valid |
| AccountProperties.CodeUnspaced | apps.py:357-358 | a generated code contains no whitespace |
| AccountProperties.StripUnspaced | apps.py:280 | stripping a string without whitespace leaves it unchanged, so a code typed as mailed survives the route's `strip` |
| AccountProperties.MailedCodeRegisters | apps.py:270-336 | entering the mailed code in time registers the pending user, unless the insert conflicts |
| AccountProperties.MailedOtpAccepted | apps.py:642-674 | entering the mailed OTP in time is accepted |
| AccountProperties.RegistrationFlow | apps.py:270-459 | sign-up followed by the mailed code within ten minutes registers the user with the hashed password, verified |
| AccountProperties.SignupParks | apps.py:399-459 | an accepted sign-up stores the code and parks the registration without touching the users table |
| AccountProperties.PasswordResetFlow | apps.py:602-716 | forgot_password, the mailed OTP within ten minutes and a valid new password change that user's password and nothing else in the users table |
| AccountProperties.ExpiredCodeIsGone | apps.py:270-336 | after an expired code, any retry finds no code |
| AccountProperties.ExpiredOtpIsGone | apps.py:642-674 | after an expired OTP, any retry finds no token |
| AccountProperties.CheckEmailPredictsSignup | apps.py:255-459 | the e-mail check says "exists" exactly when a complete, consistent sign-up with the same e-mail is refused for the e-mail |
| AccountProperties.InitAuthorized | apps.py:72-74 | the starting state allows no reset and satisfies the reset-authorisation invariant |
| AccountProperties.ResetOnlyForVerifiedUser | apps.py:676-716 | in a state satisfying the invariant, a reset changes only the password of the user whose OTP was verified |
| AccountProperties.StepFixedKeepsAuthorized | apps.py:602-716 | every route, with the corrected forgot_password, keeps the reset-authorisation invariant |
| AccountProperties.RunFixedKeepsAuthorized | apps.py:602-716 | any sequence of routes, with the corrected forgot_password, keeps the reset-authorisation invariant |
| AccountProperties.ExampleStartValid | apps.py:123-131 | the two-user example state is valid |
| AccountProperties.OtpIssued | apps.py:602-640 | forgot_password for a known user stores the OTP of the draw and moves the session to that user, keeping the verified flag |
| AccountProperties.OtpTyped | apps.py:642-674 | typing the stored OTP in time sets the verified flag for the session's user |
| AccountProperties.ResetTakesEffect | apps.py:676-716 | an authorised reset with a valid password re-hashes exactly the session user's password |
| AccountProperties.SwitchThenReset | apps.py:602-716 | once the OTP is verified, forgot_password for another user followed by reset_password changes that other user's password |
| AccountProperties.CrossAccountResetAsWritten | apps.py:602-716 | after user a verifies a's own OTP, forgot_password for b and reset_password change b's password without b's OTP |
| AccountProperties.CrossAccountResetFixed | apps.py:602-716 | with the corrected forgot_password, the same sequence is refused and the users table is unchanged |
| AccountProperties.CrossAccountReset | apps.py:602-716 | the concrete alice/bob instance: bob's password is changed with only alice's OTP |
| AccountProperties.CrossAccountResetRefused | apps.py:602-716 | the concrete alice/bob instance is refused with the corrected forgot_password |
| AccountService.AccountService.constructor | apps.py:72-74 | the application starts with the given users, no codes, no tokens and an empty session |
| AccountService.AccountService.CheckEmail | apps.py:255-268 | the answer equals the transition's answer, and nothing changes |
| AccountService.AccountService.Signup | apps.py:399-459 | the new fields and the outcome are those of the sign-up transition |
| AccountService.AccountService.VerifyEmail | apps.py:270-336 | the new fields and the outcome are those of the verify_email transition |
| AccountService.AccountService.ResendVerification | apps.py:338-355 | the new fields and the outcome are those of the resend transition |
| AccountService.AccountService.LoginDetails | apps.py:465-481 | the new fields and the outcome are those of the log-in transition |
| AccountService.AccountService.Logout | apps.py:483-487 | the new fields are those of the log-out transition |
| AccountService.AccountService.ForgotPassword | apps.py:602-640 | the new fields and the outcome are those of forgot_password as written |
| AccountService.AccountService.VerifyOtp | apps.py:642-674 | the new fields and the outcome are those of the verify_otp transition |
| AccountService.AccountService.ResetPassword | apps.py:676-716 | the new fields and the outcome are those of the reset_password transition |

## Left out

- Lowercasing, `\d` and `re.IGNORECASE` are modelled on ASCII letters and digits only. Python also folds and
  matches non-ASCII characters, and the Kannada text of the tables has no case.
- `float()` is an abstract parser given to the form as a parameter, so which strings parse (signs, exponents,
  `inf`, `nan`) is not modelled.
- The confidence value and its `:.2f` formatting are left out. The confidence is a string parameter of the
  leaf report.
- The Keras classifiers, image preprocessing, SVC training, label encoding, scaling and the yield and price
  estimates are left out, because they are numeric library code. An estimate carries only the selected rows and
  the parsed area.
- CropForm.SubmitStandalone, CropForm.SubmitBilingual: of the `ValueError`s the estimation stage can raise, three
  are modelled exactly: a single matching row (`train_test_split`), a single crop in the rows (`SVC.fit`) and a
  zero `Area`. The rest enter as the abstract parameter `splitFails`, because they depend on the seeded shuffle or
  on missing values in the file.
- Outside I/O is left out: SMTP, SQLite, the Gemini client, text-to-speech (gTTS, pyttsx3), audio playback,
  speech input, `st.image` and file upload. Their results enter as parameters (mail sent or not, the cached
  answer, the draw, the time) or not at all.
- `lru_cache` is modelled as a function of the normalised prompt and the language. Its eviction and its failures
  are not modelled.
- The HTML bodies of the e-mails and the `send_results_email` call of each page are left out, as is
  `get_user_email`.
- The GET views that only render templates are left out, as are `dashboard`, `launch_streamlit`, the chatbot and
  voice routes around `generate_gemini_response`, and `wheat`.
- The salt of `generate_password_hash` is left out. A hash is the password wrapped in an injective constructor,
  and `check_password_hash` compares it with that constructor.
- One browser session is modelled. Concurrent sessions and requests are not.
- An `IntegrityError` on the insert in `verify_email` is modelled as a conflict with an existing username or
  e-mail, the UNIQUE columns of the table.
- The generic `except Exception` branches of the crop forms (crop.py:98-99 and app.py:490-491) are left out,
  because they catch errors of the libraries that are not modelled.
- The state field `verifiedFor` does not exist in the application. It records whose OTP was last accepted, so that
  the intended property of the reset routes can be stated.
- The precaution and translation tables are parameters of the functions that use them (`PageTables`,
  `precautions`). The page's own tables are the constants `Page`, `PrecautionsEn`, `PrecautionsKn` and
  `TranslationsKn`.
- Seven functions have no contract of their own, because they only apply a general function that carries it:
  - `Translation.KannadaCropName` is `GetOr` on `TranslationsKn` (see `Tables.GetOrSpec`).
  - `Translation.EnglishCropName` is `ReverseGetOr` on `TranslationsKn`.
  - `Translation.KannadaDiseaseName` is `DiseaseName` on `TranslationsKn`.
  - `Translation.TranslateText` (app.py:166-170) is `Translate` on `TranslationsKn`; its unused destination
    argument is the subject of `Translation.TranslateIgnoresDestination`.
  - `Translation.Options` (app.py:383-390) and `Translation.SelectionInEnglish` (app.py:407-408) are stated
    together by `Translation.OptionRoundTrip`.
  - `LeafReport.DisplayClass` (app.py:507) is stated by `LeafReport.EnglishReportMatchesDetector` and
    `LeafReport.EnglishReportSameAdvice`, and in Kannada by `Translation.DiseaseName`.
- Times are integer seconds. `timedelta(minutes=10)` is `CodeLifetime = 600`.

## Findings

| source | as written | input that shows it | evidently intended | confidence | as-written member | corrected member |
|---|---|---|---|---|---|---|
| apps.py:602-640 | `forgot_password` sets `session['reset_username']` to the new user but leaves `session['otp_verified']` as it was. `reset_password` (apps.py:676-716) then accepts the reset. | alice asks for a reset, types her own OTP (verify_otp sets `otp_verified`), then asks for a reset for bob, and the mail to bob is sent; reset_password with any six-character password changes bob's password, and bob's OTP was never entered | a password is reset only for the user whose own OTP was verified in this session, so moving the session to another user clears the verified flag | high (not executed) | AccountProperties.CrossAccountReset | Accounts.ForgotPasswordFixed |
| crop.py:76-97 | the `except ValueError` meant for `float(area)` also catches the `ValueError` of `train_test_split` (crop.py:76) and `SVC.fit` (crop.py:85), so a well-formed area is reported as "Please enter a valid number for the Area."; app.py:433-489 does the same | area "5" with a location and soil that have exactly one row in the data file: the area parses, `train_test_split` with `test_size=0.2` leaves no training row and raises `ValueError`, and the page asks for a valid number | the invalid-number message only for an area that does not parse, with a failure of the estimation stage reported as such | high (not executed) | CropForm.OneRowIsInvalidNumber | CropForm.SubmitStandaloneFixed |
