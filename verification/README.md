# Beyond Borders Empowerment site: donation, upload and content core in Dafny

This project models the parts of the Beyond Borders Empowerment web site that
decide what happens to a donation, an uploaded file or a displayed text. It
then proves properties of that model.

- **Donations.** The donation form is checked and cleaned
  (`DonationValidation`). The donations endpoint turns the form into a Stripe
  payment-intent request and saves a pending or failed donation record
  (`Stripe`, `DonationsRoute`). The Stripe webhook endpoint checks the
  signature and dispatches on the event type (`WebhookRoute`). The donor
  receipt and the administrator notification are produced in text and HTML,
  then sent (`Email`).
- **Donate page.** The amount picker offers presets and a free-text amount
  (`AmountSelector`). The page rounds the chosen amount to cents and lists
  what it pays for (`DonatePage`).
- **Uploads.** The upload endpoint checks each posted file against a type
  allowlist and a 50 MB limit, then writes it under a fresh name
  (`UploadRoute`). The browser uploader runs the same check, then tracks
  every file through uploading, success or error (`MediaUpload`).
- **Content.** The image helper falls back to a placeholder (`Images`). The
  "Our Work" cards open a carousel whose navigation wraps around (`OurWork`).
  The translation lookup falls back from the current language to English,
  then to the key itself (`Language`).

Shared modules:

- `Text` holds the JavaScript string primitives the code relies on: `trim`,
  `\s`, ASCII case mapping, character filters and decimal digits.
- `Js` holds the JavaScript values: numbers with `NaN` and the infinities,
  truthiness, `Math.round`, thrown values and awaited outcomes.
- `Http` holds a response with a status and a body.

Everything the code reaches outside itself is a parameter of the model: the
clock, `Math.random`, the Stripe API, the donation store, the mail
transport, the file system, the form parser, the locale formatters and the
image and translation tables. A parameter that can fail returns an
`Outcome`, which is either `Returned(value)` or `Threw(thrown)`. Each
operation states, in its contract, its answer for every such outcome.

## Model

| member | source | states |
|---|---|---|
| DonationValidation.ValidateEmail | src/lib/donation-validation.ts:25-28 | `validateEmail` accepts exactly the strings the regular expression `^[^\s@]+@[^\s@]+\.[^\s@]+$` describes: a non-empty local part, one `@`, a domain part, a dot and a non-empty tail, none containing white space or `@` |
| DonationValidation.EmailSplitCheckSound | src/lib/donation-validation.ts:25-28 | whatever the split at the first `@` and the last dot accepts matches the regular expression |
| DonationValidation.EmailSplitCheckComplete | src/lib/donation-validation.ts:25-28 | every string the regular expression matches passes the split check |
| DonationValidation.EmailSplitCheckFromWitnesses | src/lib/donation-validation.ts:25-28 | an `@` after a non-empty local part and a later dot with text on both sides, every part free of white space and `@`, is enough for acceptance |
| DonationValidation.EmailSplitCheckIffPattern | src/lib/donation-validation.ts:25-28 | the split check and the regular expression agree on every string |
| DonationValidation.ValidatePhone | src/lib/donation-validation.ts:30-35 | a phone is accepted exactly when it is empty or, once spaces, dashes and brackets are removed, it has at least 10 characters and is either `+`, a digit 1-9 and up to 15 more digits, or a digit 1-9 and up to 15 more digits |
| DonationValidation.PhoneLeadingZeroRefused | src/lib/donation-validation.ts:32 | "+0" followed by digits is refused, however many digits follow |
| DonationValidation.PhoneLengthNeedsPlus | src/lib/donation-validation.ts:32-34 | 16 digits after a `+` are accepted, but 17 digits without one are refused |
| DonationValidation.ValidateZipCode | src/lib/donation-validation.ts:37-47 | US codes must be 5 digits or 5+4 digits; Canadian codes must be letter-digit-letter, an optional space, then digit-letter-digit; any other country accepts any code that is not blank |
| DonationValidation.ValidateRequired | src/lib/donation-validation.ts:49-54 | gives "<name> is required" exactly for empty or white-space-only values |
| DonationValidation.ValidateAmount | src/lib/donation-validation.ts:56-64 | no error exactly for finite amounts from 5 to 10000; the minimum message for 0, NaN, minus infinity and anything below 5; the maximum message for anything above 10000, plus infinity included |
| DonationValidation.AssembleErrors | src/lib/donation-validation.ts:66-150 | running the checks in source order, later messages overwriting earlier ones, gives the field-by-field reference result `ReferenceErrors` |
| DonationValidation.ValidateDonationForm | src/lib/donation-validation.ts:66-150 | `validateDonationForm` equals the reference result on the validators' verdicts |
| DonationValidation.VerdictsMeaning | src/lib/donation-validation.ts:80-85 | the required-field verdicts fire exactly on blank values; the email verdict is the pattern; the dedication-name verdict is "blank" |
| DonationValidation.BlankEmailIsInvalid | src/lib/donation-validation.ts:25-28 | an empty or white-space-only address never matches the pattern |
| DonationValidation.ValidateDonationFormRequiredRules | src/lib/donation-validation.ts:70-85 | each name, address, city and state field has an error exactly when it is blank or longer than its limit (50, or 100 for the address); the length checks are at lines 114-134 |
| DonationValidation.ValidateDonationFormFormatRules | src/lib/donation-validation.ts:87-112 | email errors exactly when the address does not match the pattern, blank included; phone only when non-empty and invalid; postal code when blank or invalid for the country; the amount gets `validateAmount`'s message |
| DonationValidation.ValidateDonationFormDedicationRules | src/lib/donation-validation.ts:136-147 | the dedication fields have errors only for dedicated gifts: the name when blank or over 100 characters, the message when over 500 |
| DonationValidation.RequiredFieldsCleanIff | src/lib/donation-validation.ts:66-150 | the name and address fields carry no message exactly when all of them are acceptable |
| DonationValidation.FormatFieldsCleanIff | src/lib/donation-validation.ts:66-150 | the remaining fields carry no message exactly when all of them are acceptable |
| DonationValidation.ValidFormIffAcceptable | src/lib/donation-validation.ts:66-150 | the result is `{}` exactly when every field meets its rule |
| DonationValidation.ValidFormAmountInRange | src/lib/donation-validation.ts:56-64 | a form without errors has a finite amount from 5 to 10000, and sanitising keeps that amount |
| DonationValidation.BlankEmailGetsFormatMessage | src/lib/donation-validation.ts:87-90 | a non-empty, white-space-only email ends with the format message, because the format check runs after the required check |
| DonationValidation.LongNameGetsLengthMessage | src/lib/donation-validation.ts:114-117 | a first name over 50 characters always reports the length message |
| DonationValidation.SanitizeFormData | src/lib/donation-validation.ts:152-166 | each name, address, city, state and dedication field is its input trimmed; the email is the trimmed input in lower case and the postal code the trimmed input in upper case; the phone is the input without spaces, dashes or brackets; the amount, type, flags and country are unchanged |
| DonationValidation.SanitizeIdempotent | src/lib/donation-validation.ts:152-166 | sanitising twice is the same as sanitising once |
| Text.Trim | src/lib/donation-validation.ts:155-162 | `trim()` gives a slice of its input with no white space at either end, everything cut off before and after it being white space |
| Text.TrimCharacterized | src/lib/donation-validation.ts:155-162 | conversely, any slice with white space only before and after it, and none at its own ends, is what `trim()` gives |
| Text.TrimIdempotent | src/lib/donation-validation.ts:155-162 | trimming trimmed text changes nothing |
| Text.TrimEmptyIffBlank | src/lib/donation-validation.ts:50 | `value.trim().length === 0` holds exactly for empty or white-space-only values |
| Stripe.ToCents | src/lib/stripe.ts:53 | `Math.round(amount * 100)` lies within half a cent of the exact amount in cents |
| Js.Round | src/lib/stripe.ts:53 | `Math.round` gives the integer at most half below and strictly less than half above its argument, so halves round up |
| Stripe.MergeMetadata | src/lib/stripe.ts:43-60 | the metadata keys are `donationId`, `donationType` and the caller's keys; the caller's entries win over the two built-in ones |
| Stripe.BuildPaymentIntentRequest | src/lib/stripe.ts:52-64 | the request has the rounded cents, currency "usd", the donor as receipt e-mail, the merged metadata and automatic payment methods |
| Stripe.CreateStripePaymentIntent | src/lib/stripe.ts:42-67 | the request sent is the one `BuildPaymentIntentRequest` describes (the amount rounded to cents, "usd", the donor's receipt address), sent once, and the provider's answer, or its throw, is handed back unchanged |
| Stripe.MonthlyIsOneTimePayment | src/lib/stripe.ts:45-50 | a monthly donation builds the same one-time request as a one-time donation, apart from the `donationType` entry |
| Stripe.ValidAmountCents | src/lib/stripe.ts:53 | amounts the validator accepts become 500 to 1,000,000 cents |
| Stripe.WholeCentsExact | src/lib/stripe.ts:53 | an amount that is a whole number of cents converts exactly |
| DonationsRoute.DonationId | src/app/api/donations/route.ts:24 | the id is "don_", the time in decimal, "_" and the random suffix, with each part at its position |
| DonationsRoute.IntakeMetadata | src/app/api/donations/route.ts:33-41 | the donor name, the two flags as "true"/"false" text, and the dedication type and name exactly for dedicated gifts |
| DonationsRoute.IntakeRequest | src/app/api/donations/route.ts:28-42 | the provider request carries the donation id and type, the intake metadata, the sanitised email, "usd" and the rounded cents |
| DonationsRoute.PendingRecord | src/app/api/donations/route.ts:45-52 | the saved record is the sanitised form with the id, status pending and the intent's id |
| DonationsRoute.FailureReason | src/app/api/donations/route.ts:70 | the failure message is the thrown `Error`'s message, otherwise "Payment processing failed" |
| DonationsRoute.FailedRecord | src/app/api/donations/route.ts:66-73 | the failed record has status failed, no intent id and the failure message |
| DonationsRoute.RecordFailure | src/app/api/donations/route.ts:62-79 | a failed record is saved after the earlier effects; the answer is 500, with the payment-failed message when that save returns and the internal-error message when it throws |
| DonationsRoute.ChargeAndRecord | src/app/api/donations/route.ts:26-79 | the provider is called first; on success a pending record is saved and the answer is 200 with the id, client secret and intent id; any throw saves a failed record and answers 500 |
| DonationsRoute.Post | src/app/api/donations/route.ts:7-88 | an unreadable body gives 500 and no effects; an invalid form gives 400 with "Validation failed" and the errors, and no effects; a valid form is sanitised and charged; the status is 200, 400 or 500 |
| DonationsRoute.ProviderFailureRecordsFailure | src/app/api/donations/route.ts:62-78 | when the provider throws, exactly one record is saved, and it carries the thrown message |
| DonationsRoute.PendingSaveFailureRecordsFailure | src/app/api/donations/route.ts:45-78 | when saving the pending record throws, a failed record follows it and the answer is 500 |
| DonationsRoute.Get | src/app/api/donations/route.ts:90-119 | a missing or empty id gives 400; any other id gives 200 with that id and status completed |
| WebhookRoute.Dispatch | src/app/api/webhooks/stripe/route.ts:33-61 | the five handled event types have their branches and every other type falls to the default; the branch carries the event's object id |
| WebhookRoute.SubscriptionCreatedIsUpdated | src/app/api/webhooks/stripe/route.ts:46-51 | subscription creation and update share a branch |
| WebhookRoute.Post | src/app/api/webhooks/stripe/route.ts:7-72 | a failed body read gives 500; a missing signature gives 400 without a check; a rejected signature gives 400 with "Webhook Error: " and the error's message ("undefined" for a thrown value that is not an `Error`), except that a thrown `null` or `undefined` gives 500; a verified event, handled or not, gives 200 after one check and one log line |
| Email.ConfigFromEnvironment | src/lib/email.ts:17-24 | each address is the environment value when non-empty, otherwise its default; the organisation's name, address and tax id are fixed |
| Email.LineShown | src/lib/email.ts:109-310 | every line of a template occurs, rendered, in the template's text |
| Email.GenerateReceiptHtml | src/lib/email.ts:109-186 | the HTML receipt greets the donor by full name and has the date and type rows |
| Email.GenerateReceiptText | src/lib/email.ts:188-227 | the plain-text receipt has "Dear <full name>,", "Date: <date>" and "Type: <type label>" |
| Email.GenerateAdminHtml | src/lib/email.ts:229-280 | the HTML notification has the donor, e-mail and receive-updates rows |
| Email.GenerateAdminText | src/lib/email.ts:282-310 | the plain-text notification has "Donor: <name>", "Email: <address>" and "Receive Updates: Yes/No" |
| Email.ReceiptDateChoice | src/lib/email.ts:111 | the receipt date (here and at line 190) is the completion date when it formats to non-empty text, otherwise the creation date |
| Email.ReceiptNamesDonorDateAndType | src/lib/email.ts:109-227 | both receipt formats greet the donor by full name and show the date and the donation type |
| Email.ReceiptDedication | src/lib/email.ts:146-206 | the receipt shows the dedication line exactly for dedicated gifts, and the message exactly when a dedicated gift has a non-empty message |
| Email.ReceiptMonthlyNotice | src/lib/email.ts:166-216 | the receipt shows the monthly billing notice, with the amount, exactly for monthly gifts |
| Email.ReceiptHasNoContact | src/lib/email.ts:109-227 | the receipt never shows the donor's e-mail, address, country, phone or updates answer |
| Email.ReceiptIgnoresAnonymityAndContact | src/lib/email.ts:109-227 | the receipt depends only on the name, amount, type and dedication fields, not on the anonymity flag or contact fields |
| Email.AdminNamesDonorEmailAndUpdates | src/lib/email.ts:229-310 | the notification names the donor ("Anonymous Donor" when anonymous), always shows the e-mail and the updates answer, and never a billing notice |
| Email.AdminDedication | src/lib/email.ts:262-301 | the notification shows the dedication block, with type and name, exactly for dedicated gifts, and the message exactly when it is non-empty |
| Email.AdminPhone | src/lib/email.ts:272-306 | the notification shows the phone exactly when it is non-empty |
| Email.AdminHidesAnonymousName | src/lib/email.ts:230-283 | for an anonymous donor the notification does not depend on the first and last names |
| Email.UndedicatedIgnoresDedication | src/lib/email.ts:109-310 | for a gift that is not dedicated, neither e-mail depends on the dedication type, name or message |
| Email.SendEmail | src/lib/email.ts:26-67 | the message goes to the given address, from the configured sender, with the given subject and bodies; a transport failure becomes an `Error` "Failed to send email" |
| Email.SendDonationReceipt | src/lib/email.ts:69-87 | the receipt goes to the donor with the thank-you subject and both generated bodies; it fails exactly when the transport fails |
| Email.SendAdminNotification | src/lib/email.ts:89-107 | the notification goes to the administrator with the amount and type in the subject; it fails exactly when the transport fails |
| Email.ConfiguredSending | src/lib/email.ts:17-107 | with the configuration read from the environment, the receipt's subject names Beyond Borders Empowerment and its sender is never empty; without an administrator address in the environment, the notification goes to admin@bbe.org |
| AmountSelector.PresetAmounts | src/components/donation-amount-selector.tsx:16-18 | four monthly or five one-time amounts, strictly increasing, each from 5 to 10000; 25, 50 and 100 are always offered; 10 is offered only monthly and 250 only one-time; the top amount is 100 monthly and 500 one-time |
| AmountSelector.PresetsPassValidation | src/components/donation-amount-selector.tsx:16-18 | every preset passes the server's amount check |
| AmountSelector.SanitizeAmountText | src/components/donation-amount-selector.tsx:22 | the result holds only digits and dots; digits-and-dots text is kept as is; the result is empty exactly when the input has no digit or dot |
| AmountSelector.SanitizeAmountTextIdempotent | src/components/donation-amount-selector.tsx:22 | filtering twice is the same as filtering once |
| AmountSelector.ParseFloat | src/components/donation-amount-selector.tsx:81-93 | on digits-and-dots text, `parseFloat` gives NaN exactly when the text starts neither with a digit nor with a dot and a digit; otherwise it gives a non-negative finite number |
| AmountSelector.ParseDecimalString | src/components/donation-amount-selector.tsx:81 | reading a natural number's decimal text gives that number back |
| AmountSelector.ParseFloatParts | src/components/donation-amount-selector.tsx:81 | "digits.digits", followed by nothing or by a dot, reads as the decimal number of its two digit runs |
| AmountSelector.ParseStopsAtSecondDot | src/components/donation-amount-selector.tsx:81 | text from a second dot on does not change the parsed number |
| AmountSelector.ParseFloatStopsExample | src/components/donation-amount-selector.tsx:81 | "12.5.3" reads as 12.5 |
| AmountSelector.DecimalValueExample | src/components/donation-amount-selector.tsx:81 | the digit runs "12" and "5" read as 12.5 |
| AmountSelector.ParseFloatNaNExamples | src/components/donation-amount-selector.tsx:81 | "", "." and "..5" read as NaN |
| AmountSelector.HandleCustomAmountChange | src/components/donation-amount-selector.tsx:20-29 | the stored text is the filtered input; non-empty text clears the preset, and empty text leaves it as it was |
| AmountSelector.HandlePresetSelect | src/components/donation-amount-selector.tsx:31-34 | choosing a preset selects it and empties the text |
| AmountSelector.RunKeepsExclusive | src/components/donation-amount-selector.tsx:20-34 | after any sequence of typing and picking, a preset and non-empty text are never both set, and the text stays digits and dots |
| AmountSelector.LastEditDecides | src/components/donation-amount-selector.tsx:20-34 | the last pick decides the selection; typing text that keeps a digit or dot clears it |
| AmountSelector.RunSnoc | src/components/donation-amount-selector.tsx:20-34 | running the events then one more equals stepping once from the run's state |
| AmountSelector.WarningAndSummary | src/components/donation-amount-selector.tsx:81-89 | text that holds no number (parses to NaN) shows neither the warning nor the summary, since NaN is not below 5; with no preset, a number shows exactly one of the warning and the summary; empty text shows no warning |
| AmountSelector.SummaryAmount | src/components/donation-amount-selector.tsx:93 | the summary shows a non-zero preset; without a preset it shows the parsed text, which is at least 5 |
| DonatePage.RoundToCents | src/app/donate/page.tsx:25 | `Math.round(raw * 100) / 100` is within half a cent of the input and is a whole number of cents |
| DonatePage.RoundWholeDollars | src/app/donate/page.tsx:25 | whole dollars are unchanged by the rounding |
| DonatePage.DerivedAmount | src/app/donate/page.tsx:20-26 | a positive preset is the amount; a non-positive preset gives 0; without a preset, text with no number gives 0, and a number gives its value rounded to cents; the result is never negative and always whole cents |
| DonatePage.PresetTakesPrecedence | src/app/donate/page.tsx:23 | with a preset chosen, the text does not matter (`??` rather than `\|\|`) |
| DonatePage.PresetReachesForm | src/app/donate/page.tsx:20-26 | a preset reaches the payment form unchanged and passes the server's amount check |
| DonatePage.PageAmount | src/app/donate/page.tsx:20-26 | the amount handed to the form is never negative |
| DonatePage.InitialState | src/app/donate/page.tsx:10-12 | the page opens with no preset, empty text, a one-time gift, amount 0 and no impact lines |
| DonatePage.ImpactLines | src/app/donate/page.tsx:103-110 | no lines exactly when the amount is not positive; otherwise the lines for 100, 50 and 25 appear exactly when those thresholds are met, from the highest threshold down, always followed by the closing line, with no repeats |
| DonatePage.ImpactMonotone | src/app/donate/page.tsx:103-110 | a larger amount lists every line a smaller one lists |
| UploadRoute.Rejection | src/app/api/upload/route.ts:29-57 | a file is accepted exactly when its type is allowed and its size is at most 50 MiB; the type is checked first and named in its message |
| UploadRoute.SizeLimitInclusive | src/app/api/upload/route.ts:51-52 | exactly 50 MiB is accepted and one byte more is refused |
| UploadRoute.Extension | src/app/api/upload/route.ts:62 | `split('.').pop()` is the dot-free tail after the last dot, or the whole name when there is no dot |
| UploadRoute.ExtensionAfterDot | src/app/api/upload/route.ts:62 | any prefix, a dot, and dot-free text give that text as extension |
| UploadRoute.FileName | src/app/api/upload/route.ts:60-63 | the stored name is the time in decimal, "-", the random text, "." and then exactly the original name's extension |
| UploadRoute.FileNameKeepsExtension | src/app/api/upload/route.ts:60-63 | the stored name has the original file's extension |
| UploadRoute.Stored | src/app/api/upload/route.ts:71-77 | a response entry keeps the original name, size and type, and its url is "/uploads/" plus the stored name |
| UploadRoute.FirstStop | src/app/api/upload/route.ts:27-78 | the loop stops at the first file that is refused or whose write throws; every file before it passed and was written |
| UploadRoute.StoreFiles | src/app/api/upload/route.ts:27-83 | every file passes and is written: 200 listing them all in order; a refused file: 400 with its reason, after the earlier files were written; a failed write: 500 |
| UploadRoute.Post | src/app/api/upload/route.ts:6-92 | an unreadable form gives 500; no files gives 400 with no effects; a missing directory is created first, and a failure there gives 500; then the files are stored as `StoreFiles` says |
| UploadRoute.RefusalStopsProcessing | src/app/api/upload/route.ts:43-57 | on a 400, no file after the refused one was written and every file before it was |
| UploadRoute.SuccessListsAllInOrder | src/app/api/upload/route.ts:71-83 | on a 200, the response lists every file in input order, each with its url, and each file was written under that name |
| UploadRoute.Get | src/app/api/upload/route.ts:94-111 | `GET` advertises exactly the types `POST` accepts, and "50MB" |
| UploadRoute.AdvertisedIsAccepted | src/app/api/upload/route.ts:94-111 | a file of an advertised type within the advertised size is never refused |
| MediaUpload.ValidateAgainst | src/components/media-upload.tsx:50-58 | no message exactly for an allowed type at most 50 MiB; the type is checked before the size |
| MediaUpload.ValidateFileAsWritten | src/components/media-upload.tsx:24-58 | the client's check with its list as written |
| MediaUpload.JpegRefusedAsWritten | src/components/media-upload.tsx:24-36 | as written, a 1 KiB "image/jpeg" file is refused by the client but accepted by the server |
| MediaUpload.ValidateFile | src/components/media-upload.tsx:50-58 | the client's check with the server's list |
| MediaUpload.ClientAgreesWithServer | src/components/media-upload.tsx:50-58 | with that list, the client refuses exactly the files the server refuses, and for a type for the same reason |
| MediaUpload.AddFile | src/components/media-upload.tsx:92-118 | for a given allowlist, the new entry goes last; a file the list refuses is listed as error with no preview, an accepted one as uploading with its preview; progress starts at 0. `MediaUpload.Apply` passes the corrected list |
| MediaUpload.JpegListedAsErrorAsWritten | src/components/media-upload.tsx:92-105 | with the list as written, a 1 KiB JPEG is listed as an error and never sent; with the corrected list it is listed as uploading |
| MediaUpload.Update | src/components/media-upload.tsx:122-126 | exactly the entries with the id are changed; the others and the order stay |
| MediaUpload.Tick | src/components/media-upload.tsx:121-127 | a progress tick adds the step, capped at 100, to the entries with the id and changes nothing else |
| MediaUpload.Succeed | src/components/media-upload.tsx:142-153 | a successful answer marks the entry success at 100 and takes the first file's url when it is non-empty, else keeps the old url |
| MediaUpload.Fail | src/components/media-upload.tsx:154-166 | an error marks the entry error with progress 0 |
| MediaUpload.Remove | src/components/media-upload.tsx:197-199 | removal drops exactly the entries with the id, as many as there are, and keeps the rest in order |
| MediaUpload.RemoveAbsent | src/components/media-upload.tsx:197-199 | removing an id that is not listed changes nothing |
| MediaUpload.ProgressStaysInRange | src/components/media-upload.tsx:92-199 | after any sequence of adds, ticks, answers, errors and removals, every progress stays between 0 and 100 |
| MediaUpload.SettledProgress | src/components/media-upload.tsx:142-164 | an upload that succeeds shows 100, one that fails shows 0 |
| Images.GetImage | src/config/images.ts:197-199 | a non-empty path is returned; undefined, null or "" gives the fallback |
| Images.GetImageOrPlaceholder | src/config/images.ts:191-199 | with the default fallback the result is always a non-empty path, the placeholder "/placeholder.png" when the path is missing |
| Images.GetImageIdempotent | src/config/images.ts:197-199 | looking up a result again with the same fallback changes nothing; a present fallback always gives a present result |
| Images.MissingPathsFallBack | src/config/images.ts:197-199 | undefined, null and the empty path all give the fallback |
| OurWork.PresentEntries | src/components/our-work.tsx:103 | `filter(Boolean)` keeps, in order, exactly the non-empty paths, as many as the gallery has |
| OurWork.Find | src/components/our-work.tsx:64 | a card is found exactly when some card has the key, and then it is the first card with that key |
| OurWork.ActiveImages | src/components/our-work.tsx:65-71 | no card open: no images; a card open: its main image (or the placeholder) first, then its present gallery entries, every one a non-empty path |
| OurWork.JsRemainder | src/components/our-work.tsx:78-86 | JavaScript's `%` keeps the dividend's sign; for 0 to 2n-1 it wraps into 0 to n-1 |
| OurWork.GoNext | src/components/our-work.tsx:78-81 | with no images nothing changes; otherwise the next index, the last wrapping to 0 |
| OurWork.GoPrev | src/components/our-work.tsx:83-86 | with no images nothing changes; otherwise the previous index, 0 wrapping to the last |
| OurWork.PrevUndoesNext | src/components/our-work.tsx:78-86 | back after forward, and forward after back, return to the same image |
| OurWork.ForwardWraps | src/components/our-work.tsx:78-81 | up to n steps forward move k places, wrapping past the last image at most once |
| OurWork.FullRoundIsIdentity | src/components/our-work.tsx:78-81 | n steps forward over n images return to the start |
| OurWork.Open | src/components/our-work.tsx:111-114 | clicking a card opens it at its first image |
| OurWork.Close | src/components/our-work.tsx:73-76 | closing leaves no card open and resets to the first image |
| OurWork.NavigationStaysInRange | src/components/our-work.tsx:78-86 | from an index within the open card's images, both directions stay within them |
| OurWork.Preview | src/components/our-work.tsx:103-105 | the thumbnails are the first two present entries, and the "+n" count is the rest; a count above 0 means two thumbnails are shown |
| Language.IsRTL | src/contexts/language-context.tsx:793 | a page is laid out right to left exactly when its language is not English |
| Language.T | src/contexts/language-context.tsx:795-797 | the current language's entry when non-empty, else the English entry when non-empty, else the key; the result is empty only for an empty key with no entries |
| Language.NeverBlank | src/contexts/language-context.tsx:796 | a non-empty key never translates to the empty text; the empty key with no entries gives "" |
| Language.EnglishIsOneLevel | src/contexts/language-context.tsx:796 | in English the lookup is the English entry or the key |
| Language.Excerpt | src/contexts/language-context.tsx:28-51 | the home and donate labels are non-empty in every language (also at lines 279, 287, 528 and 536); the registration number is empty in every language (also at lines 289 and 538); the hero image's alt text exists only in English |
| Language.TranslatedLabelsShown | src/contexts/language-context.tsx:795-797 | the Dari and Pashto pages show their own home and donate labels, not the English ones |
| Language.HeroAltFallsBackToEnglish | src/contexts/language-context.tsx:795-797 | the Dari and Pashto pages show the English alt text of the hero image |
| Language.EmptyEverywhereShowsKey | src/contexts/language-context.tsx:795-797 | an entry that is empty in every language, such as the registration number, shows its key |

## Left out

- Network, file-system and browser I/O are left out: requests, responses, `fs`, `localStorage`, `FileReader`, canvas, timers and React rendering. Each reaches the model only as a parameter or as a recorded effect.
- Concurrency is left out. Several uploads run in parallel in the browser, so their list updates interleave. The model applies one list event at a time, in any order (`MediaUpload.ApplyAll`).
- `src/lib/database.ts` is not part of this model. `saveDonation` is a `Store` parameter that returns or throws.
- The Stripe SDK is a `Provider` parameter, and `stripe.webhooks.constructEvent` is a `Verifier` parameter. Signature cryptography is not modelled.
- Logging (`console.log`, `console.error`, `console.warn`) is left out. The webhook route's log line is kept as an effect because it is the only thing each branch does.
- Formatting is left out. `formatAmount`, `toLocaleDateString` and `toLocaleString` are `Formatters` parameters.
- The HTML bodies are modelled as the lines of the templates. The template literal's exact white space between lines is not modelled.
- The mail transport is a parameter. The source sends nothing itself: its provider code is commented out.
- `Text.ToLower` and `Text.ToUpper` map ASCII letters only. Full Unicode case mapping is not modelled.
- Strings count Dafny characters. JavaScript counts UTF-16 code units, which differ only for characters outside the Basic Multilingual Plane.
- `Js.Round` is `floor(x + 0.5)` over exact reals. IEEE-754 double rounding, for example of `amount * 100`, is not modelled.
- AmountSelector.ParseFloat: models `parseFloat` only on digits-and-dots text. That is the only text either caller passes, and `AmountSelector.RunKeepsExclusive` proves the picker keeps its text that way. Signs, exponents, "Infinity" and leading white space are not modelled.
- AmountSelector.ParseFloat: reads the number as an exact real and never as Infinity. In JavaScript a value of about 1.8e308 or more (2^1024 - 2^970 and up; for example any text whose integer part has 310 or more digits and no leading zero) becomes Infinity, which the donate page's `Number.isFinite` guard then turns into 0. Every other long decimal is rounded to the nearest double. Neither is modelled.
- DonationsRoute.Post: takes the body as an already well-typed `DonationFormData`. The route does no type checking of the JSON: an amount sent as the text "abc" passes `validateAmount` (the text is truthy, and compared with numbers it is NaN, neither below 5 nor above 10000) and reaches Stripe as NaN cents, and a missing `dedicateName` on an undedicated gift makes `sanitizeFormData` throw, giving 500. Neither path is modelled.
- DonationsRoute.Post: one `now` stands for every clock read of the handler: `Date.now()` in the id, and `new Date()` for `createdAt` and `updatedAt` of the record it saves. The real values can differ by a few milliseconds.
- The yearly total `((…) * 12).toFixed(0)` in the amount summary is left out. It is display-only floating-point formatting.
- `formatFileSize`, `createFilePreview` and `getFileIcon` in the uploader are display helpers and are left out. The preview is a parameter of `MediaUpload.AddFile`, and so is the allowlist: `uploadFile` uses the list as written, while `MediaUpload.Apply` passes the corrected one.
- The random ids of uploads and donations, and the random part of stored file names, are parameters. The model does not assume they are distinct.
- The image tables themselves are left out. `src/config/images.ts` defines no `ourWork` or `ourWorkGallery` entries, which `src/components/our-work.tsx` reads at lines 21-56 and 67. The model takes the card main images and galleries as parameters.
- The translation tables, over 750 lines of text, are a parameter. `Language.Excerpt` holds a few real entries: the home and donate labels, the registration number and the hero image's alt text, in each language where the source defines them.
- A stored language code other than "en", "fa" or "ps" is left out. The source casts the stored value without checking it (src/contexts/language-context.tsx:783-785), and the model's `Language` has only the three codes.
- The description and title texts of the "Our Work" cards are not modelled, nor are the dialog's markup and keyboard handling.

## Findings

| source | as written | input that shows it | evidently intended | confidence | as-written member | corrected member |
|---|---|---|---|---|---|---|
| src/components/media-upload.tsx:24-36 | the client's allowlist starts with 'images/one.png' where the server's list has 'image/jpeg' | a 1 KiB file of type "image/jpeg" (any ordinary .jpeg photo) | the client accepts the server's list, so JPEG photos can be uploaded | not executed | MediaUpload.ValidateFileAsWritten / MediaUpload.JpegRefusedAsWritten / MediaUpload.JpegListedAsErrorAsWritten | MediaUpload.ValidateFile / MediaUpload.ClientAgreesWithServer |
