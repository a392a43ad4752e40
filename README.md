# Reimbursement request form: a Dafny model

This project models the form-state logic of the `ReimbursementPage` component in
`app/page.tsx`, a single-page form for requesting a reimbursement. The form has five fields:

- the full name (`namaLengkap`)
- a WhatsApp number (`nomorWhatsApp`)
- the purpose of the expense (`tujuanPengeluaran`)
- the amount in rupiah (`nominalPenggantian`)
- the expense date (`tanggalPengeluaran`)

It also takes an image of the receipt (`buktiPengeluaran`). The component keeps the fields, the
chosen file, its preview, a map of error messages and a "submitted" flag. Its event handlers
update them.

The project has two modules, plus a third of client scenarios.

- `FormRules` (form_rules.dfy) holds the pure part:
  - the characters `String.prototype.trim` removes, and trim itself;
  - the regex class `\d` and the amount input's digit filter;
  - the WhatsApp pattern `^08\d{8,11}$`, decided directly and related to its reading as a language;
  - the exact value of a digit string, on which the amount's `Number(...) < 1000` test is decided;
  - the six per-field rules and the error map the validator builds from them;
  - the file type and size checks.
- `ReimbursementPage` (page.dfy) holds the state and the handlers:
  - The class `ReimbursementForm` carries the component's state fields.
  - Each handler is a method whose frame names the fields it sets.
  - Each React state setter is an immediate assignment.
  - The validator is a method that builds the error map step by step, in the order the source
    tests the fields. It is proved equal to the rule-by-rule specification `FieldErrors`.
- `PageScenarios` (also page.dfy) holds what a caller can conclude from the handlers' contracts:
  - filling the form through the handlers gives a form that passes;
  - submit followed by the reset returns to the defaults;
  - a blank name alone yields exactly one error;
  - validating twice is idempotent.

The class invariant `Valid()` records three things:

- The stored amount is always a string of digits. Only the amount handler writes it, apart from the
  empty default that the mount and the reset set, and that handler filters out every non-digit.
- A stored file passed the type and size checks.
- The error map is keyed by field names only.

The validator's numeric test (`Number(amount) < 1000`) is therefore stated on digit strings.

The model follows the code on these edge cases:

- The amount's "required" test checks the stored string, not its value.
- The value `"0"` is therefore present, and it gets the "Nominal minimal Rp 1.000" error rather
  than the "wajib diisi" (required) one.
- `"01000"` passes, because `Number` ignores leading zeros.
- The WhatsApp pattern is tested on the untrimmed value, so a valid number followed by a space is
  rejected for its format.

The timer that resets the form five seconds after a successful submit becomes an explicit
`ResetTimerFired` method. A counter of scheduled resets lets that method run only after a submit
scheduled it. The date of "today" and the result of the preview read are parameters.

## Model

| member | source | states |
|---|---|---|
| FormRules.TrimStart | app/page.tsx:67 | the result is a suffix of the input, does not start with trim-whitespace, and every character dropped is whitespace |
| FormRules.TrimEnd | app/page.tsx:67 | the result is a prefix of the input, does not end with trim-whitespace, and every character dropped is whitespace |
| FormRules.Trim | app/page.tsx:67 | `trim()` is never longer than its input and neither end of a non-empty result is whitespace; with `TrimEmptyIffBlank` it is empty exactly on blank input |
| FormRules.TrimEmptyIffBlank | app/page.tsx:67 | `trim()` gives the empty string exactly when every character is whitespace, so `!value.trim()` is the blank test the rules use |
| FormRules.DigitsOf | app/page.tsx:236 | `replace(/\D/g, "")` yields only digits and is never longer than its input |
| FormRules.DigitsOfConcat | app/page.tsx:236 | the digit filter distributes over concatenation: digits keep their order and separators anywhere are dropped |
| FormRules.DigitsOfFixedIff | app/page.tsx:236 | the filter leaves a string unchanged exactly when it is all digits |
| FormRules.DigitsOfIdempotent | app/page.tsx:236 | filtering an already filtered amount changes nothing |
| FormRules.DigitsOfSeparated | app/page.tsx:236 | a thousands separator after a run of digits is dropped and the digits kept |
| FormRules.DigitsOfFormatted | app/page.tsx:234-236 | the formatted amount "1.500.000" the input shows is stored back as "1500000" |
| FormRules.MatchesWhatsAppPattern | app/page.tsx:73 | the direct test of `^08\d{8,11}$`; `WhatsAppPatternIff` proves it equal to "08" followed by 8 to 11 digits, and `WhatsAppPatternShape` what a passing value looks like |
| FormRules.WhatsAppPatternIff | app/page.tsx:73 | the direct test of `^08\d{8,11}$` holds exactly when the value is "08" followed by 8 to 11 digits |
| FormRules.WhatsAppPatternShape | app/page.tsx:73 | a passing number is all digits, starts with "08" and has 10 to 13 characters |
| FormRules.WhatsAppBoundaries | app/page.tsx:71-75 | "08123456789" passes; "0812345", "+6281234567" and "08123456789 " get the format error; "   " gets the required error |
| FormRules.RequiredTextError | app/page.tsx:67-69 | the name and purpose rule: `RulesFollowTrim` shows it reports its message exactly when `trim()` leaves nothing, and passes otherwise |
| FormRules.WhatsAppError | app/page.tsx:71-75 | the WhatsApp rule: `RulesFollowTrim` shows "required" exactly when `trim()` leaves nothing, otherwise the format error exactly when the untrimmed value fails the pattern; `WhatsAppBoundaries` gives sample verdicts |
| FormRules.RulesFollowTrim | app/page.tsx:67-79 | the rules stated on `IsBlank` give the same verdicts as the source's `!value.trim()` tests, for the name, WhatsApp and purpose fields |
| FormRules.DecimalValue | app/page.tsx:83 | the exact value of the stored digit string; `DecimalValueBounds`, `LeadingZeroIgnored` and `StripLeadingZerosValue` give its bounds and its independence from leading zeros |
| FormRules.StripLeadingZeros | app/page.tsx:83 | the result is a suffix without a leading '0', and only '0's were dropped |
| FormRules.DecimalValueBounds | app/page.tsx:83 | the exact value of k digits is below 10^k, and at least 10^(k-1) without a leading zero |
| FormRules.LeadingZeroIgnored | app/page.tsx:83 | a leading '0' does not change the value of a digit string, so "01000" is worth 1000 |
| FormRules.StripLeadingZerosValue | app/page.tsx:83 | stripping leading zeros keeps the value |
| FormRules.AmountBelowMinimumIff | app/page.tsx:83 | the amount is below 1000 exactly when, leading zeros aside, it has at most three digits |
| FormRules.BelowMinimum | app/page.tsx:83 | the `< 1000` test; `AmountBelowMinimumIff` shows it holds exactly when the amount has at most three digits once leading zeros are dropped |
| FormRules.AmountError | app/page.tsx:81-85 | the amount rule: "required" exactly on the empty string, otherwise the minimum error exactly when the value is below 1000; `AmountBoundaries` gives sample verdicts |
| FormRules.ProofError | app/page.tsx:87-89 | the receipt rule: an error exactly when no file is stored; `AllRulesPassMeans` and `DefaultsRejected` use it |
| FormRules.DateError | app/page.tsx:91-93 | the date rule: an error exactly when the date string is empty; `AllRulesPassMeans` and `DefaultsRejected` use it |
| FormRules.AmountBoundaries | app/page.tsx:81-85 | "" gets the required error; "0" and "999" get the minimum error; "1000" and "01000" pass |
| FormRules.ErrorMapIndependent | app/page.tsx:65-93 | recording the verdicts in order never masks one field by another: a field's key is present iff its verdict is a failure, with that message, and only field keys appear |
| FormRules.ErrorMapEmptyIff | app/page.tsx:95-96 | the recorded map has no keys exactly when every verdict is a pass |
| FormRules.FieldErrors | app/page.tsx:64-96 | the map the validator writes into `errors`; `FieldErrorsIndependent` gives one entry per failing field with its message, `ValidIffAllRulesPass` says it is empty exactly when all rules pass |
| FormRules.FieldErrorsIndependent | app/page.tsx:64-97 | each field's key is in the error map iff that field's own rule fails, with its message; no other key appears |
| FormRules.ValidIffAllRulesPass | app/page.tsx:96 | the error map is empty exactly when all six rules pass |
| FormRules.AllRulesPassMeans | app/page.tsx:64-97 | a form passes exactly when the name and purpose are non-blank, the WhatsApp number is non-blank and matches the pattern, the amount is non-empty with value at least 1000, a file is stored and the date is non-empty |
| FormRules.OnlyNameBlank | app/page.tsx:67-93 | a blank name with every other field valid gives exactly the one name error |
| FormRules.FileRejection | app/page.tsx:34-51 | why the file handler refuses a file, type before size; `FileAcceptedIff` characterises each outcome and `HandleFileChange` acts on it |
| FormRules.FileAcceptedIff | app/page.tsx:34-51 | a file is accepted iff its type is JPEG, JPG or PNG and it has at most 5242880 bytes; the type error is reported iff the type is wrong, the size error iff the type is right and the file too large |
| FormRules.FileBoundaries | app/page.tsx:34-51 | a PNG of exactly 5242880 bytes is accepted, one byte more is rejected for size, and a PDF of any size is rejected for type |
| ReimbursementPage.Defaults | app/page.tsx:6-12 | the record the page mounts with and the reset restores: four empty fields and the supplied date; `DefaultsRejected` shows it does not pass validation |
| ReimbursementPage.DefaultsRejected | app/page.tsx:6-12 | validating the defaults reports the name, WhatsApp number, purpose, amount and receipt as missing, and the date too when none was supplied |
| ReimbursementPage.WithText | app/page.tsx:20-21 | editing input t sets that input's value and leaves the other inputs and the amount as they were |
| ReimbursementPage.ClearedError | app/page.tsx:23-25 | after an edit, the edited field's error (if present) is blank, no key is added or removed, and no other entry changes |
| ReimbursementPage.BuildErrors | app/page.tsx:65-93 | the map built by the sequential checks equals the rule-by-rule specification `FieldErrors` |
| ReimbursementPage.ReimbursementForm.constructor | app/page.tsx:6-17 | the page mounts with four empty fields and the given date, no file, no preview, no errors and not submitted |
| ReimbursementPage.ReimbursementForm.HandleInputChange | app/page.tsx:19-26 | only the edited field changes, and only that field's error is blanked; the invariant is kept |
| ReimbursementPage.ReimbursementForm.HandleAmountChange | app/page.tsx:235-244 | the stored amount is the typed text's digits, in order; only the amount's error is blanked; the amount stays all digits |
| ReimbursementPage.ReimbursementForm.HandleFileChange | app/page.tsx:28-54 | no file changes nothing; a wrong type or an oversized file sets only the proof error and keeps the stored file; an accepted file is stored and its error blanked |
| ReimbursementPage.ReimbursementForm.PreviewLoaded | app/page.tsx:57-61 | the preview becomes the read's result, or none when the read failed |
| ReimbursementPage.ReimbursementForm.ClearImage | app/page.tsx:302-306 | the "Ganti Gambar" button drops the file and its preview and nothing else |
| ReimbursementPage.ReimbursementForm.ValidateForm | app/page.tsx:64-97 | errors become exactly `FieldErrors` of the current fields and file; the result is true iff that map is empty, iff all rules pass |
| ReimbursementPage.ReimbursementForm.HandleSubmit | app/page.tsx:99-107 | the page enters the submitted state and schedules one reset exactly when validation passes; otherwise only the errors change |
| ReimbursementPage.ReimbursementForm.ResetTimerFired | app/page.tsx:107-118 | the reset clears the submitted flag, restores the defaults with the date supplied then, drops the file and preview, and leaves the errors untouched |
| PageScenarios.SampleIsValid | app/page.tsx:64-97 | a named, well-formed sample form with a file passes every rule |
| PageScenarios.TypeSample | app/page.tsx:19-26 | typing the sample through the handlers stores the typed text and the amount "1.500.000" as "1500000" |
| PageScenarios.FillSample | app/page.tsx:6-62 | a fresh page filled through the handlers with a PNG of 200 KiB passes every rule |
| PageScenarios.SubmitThenReset | app/page.tsx:99-120 | submitting a passing form and letting the reset fire ends with the defaults, no file, no preview and no errors |
| PageScenarios.SubmitWithBlankName | app/page.tsx:99-104 | submitting with only the name blank is refused and leaves exactly the name error |
| PageScenarios.ValidateTwice | app/page.tsx:64-97 | validating twice gives the same verdict and the same error map |

## Left out

- The JSX layout, the CSS class choices, the status badge and the error texts' rendering (app/page.tsx:127-363): presentation only.
- `formatCurrency` and `Intl.NumberFormat("id-ID")` (app/page.tsx:122-125): a locale library whose grouping rules are not visible here. The model only uses that a formatted amount such as "1.500.000" filters back to its digits.
- The `FileReader` read itself (app/page.tsx:57-61): it is an asynchronous browser callback. Its outcome is the parameter of `PreviewLoaded`, and a failed read is modelled as no preview.
- The five-second `setTimeout` delay (app/page.tsx:107, 118): the model has no wall-clock time and no cancellation. Each successful submit schedules one reset, and a reset runs only while one is scheduled.
- `new Date().toISOString().split("T")[0]` (app/page.tsx:11, 114): the date is a string parameter of the constructor and of `ResetTimerFired`.
- React batching and re-rendering: each `set*` call is an immediate assignment.
- `e.preventDefault()` (app/page.tsx:100, 303): it has no effect on the form state.
- ReimbursementPage.ReimbursementForm.ValidateForm: `Number()` is modelled only on digit strings. The amount is never anything else, by the class invariant, so a non-digit amount such as "1e3" is outside the model.
- FormRules.FieldErrors: it requires a digit-string amount, for the same reason.
- FormRules.DecimalValue: it is the exact integer value of the digit string, not the double that `Number()` returns. The two differ for long strings: `Number("9999999999999999")` is 10^16, and a value too large for a double (just past `Number.MAX_VALUE`, about 1.8 × 10^308, and beyond) gives `Infinity`; every string with 310 or more digits after its leading zeros is such a value. The verdict of the `< 1000` test is the same, because rounding to a double is monotone and 1000 is exact.
- ReimbursementPage.ReimbursementForm.PreviewLoaded: in the page, the preview is set only when a read started by an accepted file finishes (app/page.tsx:53-61). The model lets the method run at any time, with any result, so a page with no file can hold a preview. No other contract depends on this.
- ReimbursementPage.ReimbursementForm.ClearImage: the "Ganti Gambar" button is only shown while a preview is displayed (app/page.tsx:292). The model lets the action run in any state; with no file and no preview it changes nothing.
- FormRules.IsJsWhitespace: it follows the ECMAScript WhiteSpace and LineTerminator sets. It does not follow any browser's deviation from them.
