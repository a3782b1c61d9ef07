/** The donation form validator and sanitiser (src/lib/donation-validation.ts):
    per-field validators, the combined field-keyed error map with its
    overwrite order, and the normalisation applied before payment. */
module DonationValidation {
  import opened Text
  import opened Js

  datatype DonationType = OneTime | Monthly
  datatype DedicationType = Honor | Memory

  function DonationTypeText(t: DonationType): string {
    match t
    case OneTime => "one-time"
    case Monthly => "monthly"
  }

  function DedicationTypeText(t: DedicationType): string {
    match t
    case Honor => "honor"
    case Memory => "memory"
  }

  datatype DonationFormData = DonationFormData(
    firstName: string,
    lastName: string,
    email: string,
    phone: string,
    address: string,
    city: string,
    state: string,
    zipCode: string,
    country: string,
    isAnonymous: bool,
    dedicateGift: bool,
    dedicationType: DedicationType,
    dedicateName: string,
    dedicateMessage: string,
    receiveUpdates: bool,
    amount: Number,
    donationType: DonationType)

  /** The `errors` object `validateDonationForm` fills: at most one message
      per field key, a key being present only when its field has an error. */
  datatype ValidationErrors = ValidationErrors(
    firstName: Option<string>, lastName: Option<string>, email: Option<string>,
    phone: Option<string>, address: Option<string>, city: Option<string>,
    state: Option<string>, zipCode: Option<string>, amount: Option<string>,
    dedicateName: Option<string>, dedicateMessage: Option<string>)

  /** `{}`. */
  const NoErrors := ValidationErrors(None, None, None, None, None, None, None, None, None, None, None)

  // ---------------------------------------------------------------- email

  /** A character `[^\s@]` matches. */
  predicate IsPlain(c: char) {
    !IsSpace(c) && c != '@'
  }

  predicate AllPlain(s: string) {
    forall i | 0 <= i < |s| :: IsPlain(s[i])
  }

  /** The email pattern `^[^\s@]+@[^\s@]+\.[^\s@]+$` as a statement about
      positions: an `@` at `i` and a `.` at `j`, three non-empty runs of plain
      characters around them. */
  ghost predicate MatchesEmailPattern(s: string) {
    exists i, j | 0 < i && i + 1 < j && j + 1 < |s| ::
      s[i] == '@' && s[j] == '.'
      && AllPlain(s[..i]) && AllPlain(s[i + 1..j]) && AllPlain(s[j + 1..])
  }

  /** Index of the first occurrence of `c`, or `|s|` when there is none. */
  function IndexOf(s: string, c: char): (k: nat)
    ensures k <= |s|
    ensures k < |s| ==> s[k] == c
    ensures forall i | 0 <= i < k :: s[i] != c
  {
    if s == [] then 0
    else if s[0] == c then 0
    else 1 + IndexOf(s[1..], c)
  }

  /** A direct test for the email pattern: split at the first `@`; the local
      part must be non-empty, and the domain free of `@` and white space with a
      `.` that is neither its first nor its last character. */
  function EmailSplitCheck(email: string): bool {
    var at := IndexOf(email, '@');
    if at == 0 || at == |email| then false
    else
      var domain := email[at + 1..];
      AllPlain(email[..at]) && AllPlain(domain) && |domain| >= 3
      && '.' in domain[1..|domain| - 1]
  }

  lemma AllPlainSlice(s: string, lo: nat, hi: nat)
    requires AllPlain(s) && lo <= hi <= |s|
    ensures AllPlain(s[lo..hi])
  {
    assert forall k | 0 <= k < hi - lo :: s[lo..hi][k] == s[lo + k];
  }

  lemma AllPlainConcat(a: string, b: string)
    requires AllPlain(a) && AllPlain(b)
    ensures AllPlain(a + b)
  {
  }

  /** Whatever the split test accepts matches the regular expression. */
  lemma {:induction false} EmailSplitCheckSound(email: string)
    requires EmailSplitCheck(email)
    ensures MatchesEmailPattern(email)
  {
    var at := IndexOf(email, '@');
    var domain := email[at + 1..];
    var inner := domain[1..|domain| - 1];
    var d :| 0 <= d < |inner| && inner[d] == '.';
    var j := at + 2 + d;
    assert email[j] == '.';
    assert email[at + 1..j] == domain[..d + 1];
    assert email[j + 1..] == domain[d + 2..];
    AllPlainSlice(domain, 0, d + 1);
    AllPlainSlice(domain, d + 2, |domain|);
    assert domain[d + 2..|domain|] == domain[d + 2..];
  }

  /** The witnesses of the regular expression make the split test accept. */
  lemma {:induction false} EmailSplitCheckFromWitnesses(email: string, i: nat, j: nat)
    requires 0 < i && i + 1 < j && j + 1 < |email| && email[i] == '@' && email[j] == '.'
    requires AllPlain(email[..i]) && AllPlain(email[i + 1..j]) && AllPlain(email[j + 1..])
    ensures EmailSplitCheck(email)
  {
    var domain := email[i + 1..];
    assert domain == email[i + 1..j] + ['.'] + email[j + 1..];
    AllPlainConcat(email[i + 1..j], ['.']);
    AllPlainConcat(email[i + 1..j] + ['.'], email[j + 1..]);
    assert domain[1..|domain| - 1][j - i - 2] == '.';
  }

  /** Whatever the regular expression matches, the split test accepts. */
  lemma EmailSplitCheckComplete(email: string)
    requires MatchesEmailPattern(email)
    ensures EmailSplitCheck(email)
  {
    var i, j :| 0 < i && i + 1 < j && j + 1 < |email| && email[i] == '@' && email[j] == '.'
      && AllPlain(email[..i]) && AllPlain(email[i + 1..j]) && AllPlain(email[j + 1..]);
    EmailSplitCheckFromWitnesses(email, i, j);
  }

  /** `validateEmail`: accepts exactly the strings the regular expression
      `^[^\s@]+@[^\s@]+\.[^\s@]+$` matches. */
  function ValidateEmail(email: string): (ok: bool)
    ensures ok <==> MatchesEmailPattern(email)
  {
    EmailSplitCheckIffPattern(email);
    EmailSplitCheck(email)
  }

  /** The split test and the regular expression agree. */
  lemma EmailSplitCheckIffPattern(email: string)
    ensures EmailSplitCheck(email) <==> MatchesEmailPattern(email)
  {
    if EmailSplitCheck(email) { EmailSplitCheckSound(email); }
    if MatchesEmailPattern(email) { EmailSplitCheckComplete(email); }
  }

  // ---------------------------------------------------------------- phone

  /** Characters of `/[\s\-\(\)]/g`, removed from phone numbers. */
  predicate IsPhoneFormatting(c: char) {
    IsSpace(c) || c == '-' || c == '(' || c == ')'
  }

  predicate IsPhoneKept(c: char) {
    !IsPhoneFormatting(c)
  }

  /** `phone.replace(/[\s\-\(\)]/g, '')`. */
  function CleanPhone(phone: string): string {
    Filter(IsPhoneKept, phone)
  }

  /** `^[\+]?[1-9][\d]{0,15}$`. */
  predicate MatchesPhonePattern(c: string) {
    var digits := if |c| > 0 && c[0] == '+' then c[1..] else c;
    1 <= |digits| <= 16 && '1' <= digits[0] <= '9' && AllDigits(digits[1..])
  }

  /** The numbers the phone check accepts, read case by case: at least 10
      characters; either `+`, a digit 1-9 and then digits, at most 17 in all,
      or a digit 1-9 and then digits, at most 16 in all. */
  predicate PhoneShape(c: string) {
    10 <= |c|
    && if c[0] == '+' then |c| <= 17 && '1' <= c[1] <= '9' && AllDigits(c[2..])
       else |c| <= 16 && '1' <= c[0] <= '9' && AllDigits(c[1..])
  }

  /** `validatePhone`: empty is accepted (the field is optional); otherwise the
      cleaned number must match the pattern and have at least 10 characters. */
  function ValidatePhone(phone: string): (ok: bool)
    ensures phone == "" ==> ok
    ensures ok && phone != "" ==>
      var c := CleanPhone(phone);
      10 <= |c| <= 17 && (c[0] == '+' || '1' <= c[0] <= '9')
      && forall i | 1 <= i < |c| :: IsDigit(c[i])
    ensures ok <==> phone == "" || PhoneShape(CleanPhone(phone))
  {
    if phone == "" then true
    else
      var c := CleanPhone(phone);
      assert forall i | 2 <= i < |c| && c[0] == '+' :: c[i] == c[1..][1..][i - 2];
      assert forall i | 1 <= i < |c| && c[0] != '+' :: c[i] == c[1..][i - 1];
      MatchesPhonePattern(c) && |c| >= 10
  }

  /** A number without brackets, spaces or dashes is checked as it is. */
  lemma CleanPhoneOfPlain(c: string)
    requires forall i | 0 <= i < |c| :: c[i] == '+' || IsDigit(c[i])
    ensures CleanPhone(c) == c
  {
  }

  /** A 0 right after the `+` is refused, however many digits follow. */
  lemma PhoneLeadingZeroRefused(digits: string)
    requires AllDigits(digits)
    ensures !ValidatePhone("+0" + digits)
  {
    CleanPhoneOfPlain("+0" + digits);
  }

  /** Sixteen digits not starting with 0 are accepted after a `+`; with one
      more digit and no `+` the number is refused as too long. */
  lemma PhoneLengthNeedsPlus(digits: string, last: char)
    requires |digits| == 16 && AllDigits(digits) && digits[0] != '0' && IsDigit(last)
    ensures ValidatePhone("+" + digits)
    ensures !ValidatePhone(digits + [last])
  {
    CleanPhoneOfPlain("+" + digits);
    CleanPhoneOfPlain(digits + [last]);
    assert ("+" + digits)[2..] == digits[1..];
  }

  // ---------------------------------------------------------------- postal codes

  predicate IsAsciiLetter(c: char) {
    ('A' <= c <= 'Z') || ('a' <= c <= 'z')
  }

  /** `^\d{5}(-\d{4})?$`. */
  predicate IsUsZip(z: string) {
    (|z| == 5 && AllDigits(z))
    || (|z| == 10 && AllDigits(z[..5]) && z[5] == '-' && AllDigits(z[6..]))
  }

  /** `^[A-Za-z]\d[A-Za-z] ?\d[A-Za-z]\d$`. */
  predicate IsCanadianPostal(z: string) {
    (|z| == 6
     && IsAsciiLetter(z[0]) && IsDigit(z[1]) && IsAsciiLetter(z[2])
     && IsDigit(z[3]) && IsAsciiLetter(z[4]) && IsDigit(z[5]))
    || (|z| == 7
        && IsAsciiLetter(z[0]) && IsDigit(z[1]) && IsAsciiLetter(z[2]) && z[3] == ' '
        && IsDigit(z[4]) && IsAsciiLetter(z[5]) && IsDigit(z[6]))
  }

  /** `validateZipCode`: the format depends on the country. */
  function ValidateZipCode(zipCode: string, country: string): (ok: bool)
    ensures country == "United States" ==> (ok <==> IsUsZip(zipCode))
    ensures country == "Canada" ==> (ok <==> IsCanadianPostal(zipCode))
    ensures country != "United States" && country != "Canada" ==> (ok <==> !IsBlank(zipCode))
  {
    TrimEmptyIffBlank(zipCode);
    if country == "United States" then IsUsZip(zipCode)
    else if country == "Canada" then IsCanadianPostal(zipCode)
    else |Trim(zipCode)| > 0
  }

  // ---------------------------------------------------------------- required, amount

  /** `validateRequired`: "<name> is required" exactly for blank values. */
  function ValidateRequired(value: string, fieldName: string): (r: Option<string>)
    ensures r.Some? <==> IsBlank(value)
    ensures r.Some? ==> r.value == fieldName + " is required"
  {
    TrimEmptyIffBlank(value);
    if value == "" || |Trim(value)| == 0 then Some(fieldName + " is required") else None
  }

  const MinimumAmountMessage := "Minimum donation amount is $5"
  const MaximumAmountMessage := "Maximum donation amount is $10,000. Please contact us for larger donations."

  /** `validateAmount`: finite amounts from 5 to 10000 inclusive pass; zero,
      NaN, anything below 5 (including minus infinity) gets the minimum message;
      anything above 10000 (including plus infinity) the maximum message. */
  function ValidateAmount(amount: Number): (r: Option<string>)
    ensures r.None? <==> amount.Finite? && 5.0 <= amount.value <= 10000.0
    ensures r == Some(MinimumAmountMessage) <==>
      amount.NaN? || amount.NegInfinity? || (amount.Finite? && amount.value < 5.0)
    ensures r == Some(MaximumAmountMessage) <==>
      amount.PosInfinity? || (amount.Finite? && amount.value > 10000.0)
  {
    if !Truthy(amount) || LessThan(amount, 5.0) then Some(MinimumAmountMessage)
    else if GreaterThan(amount, 10000.0) then Some(MaximumAmountMessage)
    else None
  }

  // ---------------------------------------------------------------- the form

  /** The verdicts of the single-field validators on one form: `validateRequired`
      for each required field, then `validateEmail`, `validatePhone`,
      `validateZipCode`, `validateAmount`, and the dedication-name blank test. */
  datatype Verdicts = Verdicts(
    firstNameRequired: Option<string>,
    lastNameRequired: Option<string>,
    emailRequired: Option<string>,
    addressRequired: Option<string>,
    cityRequired: Option<string>,
    stateRequired: Option<string>,
    zipCodeRequired: Option<string>,
    emailValid: bool,
    phoneValid: bool,
    zipCodeValid: bool,
    amountError: Option<string>,
    dedicateNameBlank: bool)

  function RunValidators(d: DonationFormData): Verdicts {
    Verdicts(
      ValidateRequired(d.firstName, "First name"),
      ValidateRequired(d.lastName, "Last name"),
      ValidateRequired(d.email, "Email address"),
      ValidateRequired(d.address, "Street address"),
      ValidateRequired(d.city, "City"),
      ValidateRequired(d.state, "State/Province"),
      ValidateRequired(d.zipCode, "ZIP/Postal code"),
      ValidateEmail(d.email),
      ValidatePhone(d.phone),
      ValidateZipCode(d.zipCode, d.country),
      ValidateAmount(d.amount),
      d.dedicateName == "" || |Trim(d.dedicateName)| == 0)
  }

  const EmailFormatMessage := "Please enter a valid email address"
  const PhoneFormatMessage := "Please enter a valid phone number"
  const UsZipMessage := "Please enter a valid ZIP code (e.g., 12345 or 12345-6789)"
  const CanadaPostalMessage := "Please enter a valid postal code (e.g., A1A 1A1)"
  const OtherPostalMessage := "Please enter a valid postal code"
  const FirstNameLongMessage := "First name must be less than 50 characters"
  const LastNameLongMessage := "Last name must be less than 50 characters"
  const AddressLongMessage := "Address must be less than 100 characters"
  const CityLongMessage := "City must be less than 50 characters"
  const StateLongMessage := "State/Province must be less than 50 characters"
  const DedicateNameMissingMessage := "Please enter the name for the dedication"
  const DedicateNameLongMessage := "Dedication name must be less than 100 characters"
  const DedicateMessageLongMessage := "Dedication message must be less than 500 characters"

  function ZipMessage(country: string): string {
    if country == "United States" then UsZipMessage
    else if country == "Canada" then CanadaPostalMessage
    else OtherPostalMessage
  }

  /** `if (msg) errors[key] = msg`: the new message when there is one, else
      what the key held before. */
  function Overwrite(prev: Option<string>, msg: Option<string>): Option<string> {
    if msg.Some? then msg else prev
  }

  /** The message of a check that fires when `cond` holds. */
  function When(cond: bool, msg: string): Option<string> {
    if cond then Some(msg) else None
  }

  /** The `requiredFields.forEach(...)` loop, in source order: first name, last
      name, email, street address, city, state, postal code. Phone, country and
      the dedication fields are not required. */
  function RequiredErrors(v: Verdicts): ValidationErrors {
    var e := NoErrors;
    var e := e.(firstName := Overwrite(e.firstName, v.firstNameRequired));
    var e := e.(lastName := Overwrite(e.lastName, v.lastNameRequired));
    var e := e.(email := Overwrite(e.email, v.emailRequired));
    var e := e.(address := Overwrite(e.address, v.addressRequired));
    var e := e.(city := Overwrite(e.city, v.cityRequired));
    var e := e.(state := Overwrite(e.state, v.stateRequired));
    e.(zipCode := Overwrite(e.zipCode, v.zipCodeRequired))
  }

  /** The format checks (email, phone, postal code), each only for a non-empty
      value, and the amount check. */
  function FormatErrors(d: DonationFormData, v: Verdicts, e: ValidationErrors): ValidationErrors {
    var e := e.(email := Overwrite(e.email, When(d.email != "" && !v.emailValid, EmailFormatMessage)));
    var e := e.(phone := Overwrite(e.phone, When(d.phone != "" && !v.phoneValid, PhoneFormatMessage)));
    var e := e.(zipCode := Overwrite(e.zipCode, When(d.zipCode != "" && !v.zipCodeValid, ZipMessage(d.country))));
    e.(amount := Overwrite(e.amount, v.amountError))
  }

  /** The length ceilings on names, address, city and state. */
  function LengthErrors(d: DonationFormData, e: ValidationErrors): ValidationErrors {
    var e := e.(firstName := Overwrite(e.firstName, When(d.firstName != "" && |d.firstName| > 50, FirstNameLongMessage)));
    var e := e.(lastName := Overwrite(e.lastName, When(d.lastName != "" && |d.lastName| > 50, LastNameLongMessage)));
    var e := e.(address := Overwrite(e.address, When(d.address != "" && |d.address| > 100, AddressLongMessage)));
    var e := e.(city := Overwrite(e.city, When(d.city != "" && |d.city| > 50, CityLongMessage)));
    e.(state := Overwrite(e.state, When(d.state != "" && |d.state| > 50, StateLongMessage)))
  }

  /** The dedication checks, run only for dedicated gifts: a blank name, else
      a name over 100 characters; a message over 500 characters. */
  function DedicationErrors(d: DonationFormData, v: Verdicts, e: ValidationErrors): ValidationErrors {
    if d.dedicateGift then
      var e := e.(dedicateName :=
        if v.dedicateNameBlank then Some(DedicateNameMissingMessage)
        else Overwrite(e.dedicateName, When(|d.dedicateName| > 100, DedicateNameLongMessage)));
      e.(dedicateMessage := Overwrite(e.dedicateMessage,
        When(d.dedicateMessage != "" && |d.dedicateMessage| > 500, DedicateMessageLongMessage)))
    else e
  }

  /** The checks in source order, each later one overwriting an earlier
      message for the same key. */
  function AssembleErrors(d: DonationFormData, v: Verdicts): (r: ValidationErrors)
    ensures r == ReferenceErrors(d, v)
  {
    DedicationErrors(d, v, LengthErrors(d, FormatErrors(d, v, RequiredErrors(v))))
  }

  /** `validateDonationForm`: each key ends up with the message of the last
      check that fires for it. */
  function ValidateDonationForm(d: DonationFormData): (r: ValidationErrors)
    ensures r == ReferenceErrors(d, RunValidators(d))
  {
    AssembleErrors(d, RunValidators(d))
  }

  /** A blank email has no `@`, so `validateEmail` rejects it. */
  lemma BlankEmailIsInvalid(email: string)
    requires IsBlank(email)
    ensures !ValidateEmail(email)
  {
  }

  /** What the single-field verdicts say about the form's values. */
  lemma VerdictsMeaning(d: DonationFormData)
    ensures var v := RunValidators(d);
      && (v.firstNameRequired.Some? <==> IsBlank(d.firstName))
      && (v.lastNameRequired.Some? <==> IsBlank(d.lastName))
      && (v.emailRequired.Some? <==> IsBlank(d.email))
      && (v.addressRequired.Some? <==> IsBlank(d.address))
      && (v.cityRequired.Some? <==> IsBlank(d.city))
      && (v.stateRequired.Some? <==> IsBlank(d.state))
      && (v.zipCodeRequired.Some? <==> IsBlank(d.zipCode))
      && (v.emailValid <==> MatchesEmailPattern(d.email))
      && (v.dedicateNameBlank <==> IsBlank(d.dedicateName))
  {
    TrimEmptyIffBlank(d.dedicateName);
  }

  /** Read per field, a required field has an error exactly when its value
      is blank or over its length ceiling. */
  lemma ValidateDonationFormRequiredRules(d: DonationFormData)
    ensures var r := ValidateDonationForm(d);
      && (r.firstName.Some? <==> IsBlank(d.firstName) || |d.firstName| > 50)
      && (r.lastName.Some? <==> IsBlank(d.lastName) || |d.lastName| > 50)
      && (r.address.Some? <==> IsBlank(d.address) || |d.address| > 100)
      && (r.city.Some? <==> IsBlank(d.city) || |d.city| > 50)
      && (r.state.Some? <==> IsBlank(d.state) || |d.state| > 50)
  {
    var v := RunValidators(d);
    var r := ValidateDonationForm(d);
    assert r == ReferenceErrors(d, v);
    assert v.firstNameRequired == ValidateRequired(d.firstName, "First name");
    assert v.lastNameRequired == ValidateRequired(d.lastName, "Last name");
    assert v.addressRequired == ValidateRequired(d.address, "Street address");
    assert v.cityRequired == ValidateRequired(d.city, "City");
    assert v.stateRequired == ValidateRequired(d.state, "State/Province");
  }

  /** Read per field, the email, phone, postal code and amount fields have an
      error exactly when their value breaks that field's rule. */
  lemma ValidateDonationFormFormatRules(d: DonationFormData)
    ensures var r := ValidateDonationForm(d);
      && (r.email.Some? <==> !MatchesEmailPattern(d.email))
      && (r.phone.Some? <==> d.phone != "" && !ValidatePhone(d.phone))
      && (r.zipCode.Some? <==> IsBlank(d.zipCode) || !ValidateZipCode(d.zipCode, d.country))
      && r.amount == ValidateAmount(d.amount)
  {
    var v := RunValidators(d);
    var r := ValidateDonationForm(d);
    assert r == ReferenceErrors(d, v);
    VerdictsMeaning(d);
    if IsBlank(d.email) {
      BlankEmailIsInvalid(d.email);
    }
    assert r.email.Some? <==> !MatchesEmailPattern(d.email);
    assert r.phone.Some? <==> d.phone != "" && !v.phoneValid;
    assert r.zipCode.Some? <==> IsBlank(d.zipCode) || !v.zipCodeValid;
  }

  /** The dedication fields have an error only for dedicated gifts, exactly
      when the name is blank or too long, or the message too long. */
  lemma ValidateDonationFormDedicationRules(d: DonationFormData)
    ensures var r := ValidateDonationForm(d);
      && (r.dedicateName.Some? <==> d.dedicateGift && (IsBlank(d.dedicateName) || |d.dedicateName| > 100))
      && (r.dedicateMessage.Some? <==> d.dedicateGift && |d.dedicateMessage| > 500)
  {
    VerdictsMeaning(d);
  }

  /** Reference definition, field by field: the message a key ends up with is
      the one of the LAST check that fires for it, so a length or format
      message wins over a required message, and a dedication message appears
      only for dedicated gifts. */
  function ReferenceErrors(d: DonationFormData, v: Verdicts): ValidationErrors {
    ValidationErrors(
      firstName := if |d.firstName| > 50 then Some(FirstNameLongMessage) else v.firstNameRequired,
      lastName := if |d.lastName| > 50 then Some(LastNameLongMessage) else v.lastNameRequired,
      email := if d.email != "" && !v.emailValid then Some(EmailFormatMessage) else v.emailRequired,
      phone := if d.phone != "" && !v.phoneValid then Some(PhoneFormatMessage) else None,
      address := if |d.address| > 100 then Some(AddressLongMessage) else v.addressRequired,
      city := if |d.city| > 50 then Some(CityLongMessage) else v.cityRequired,
      state := if |d.state| > 50 then Some(StateLongMessage) else v.stateRequired,
      zipCode := if d.zipCode != "" && !v.zipCodeValid then Some(ZipMessage(d.country)) else v.zipCodeRequired,
      amount := v.amountError,
      dedicateName :=
        if !d.dedicateGift then None
        else if v.dedicateNameBlank then Some(DedicateNameMissingMessage)
        else if |d.dedicateName| > 100 then Some(DedicateNameLongMessage)
        else None,
      dedicateMessage :=
        if d.dedicateGift && |d.dedicateMessage| > 500 then Some(DedicateMessageLongMessage) else None)
  }

  /** The required fields as the rules accept them: present and within
      their length ceilings. */
  ghost predicate RequiredFieldsAcceptable(d: DonationFormData) {
    && !IsBlank(d.firstName) && |d.firstName| <= 50
    && !IsBlank(d.lastName) && |d.lastName| <= 50
    && !IsBlank(d.address) && |d.address| <= 100
    && !IsBlank(d.city) && |d.city| <= 50
    && !IsBlank(d.state) && |d.state| <= 50
  }

  /** The remaining fields as the rules accept them. */
  ghost predicate FormatFieldsAcceptable(d: DonationFormData) {
    && MatchesEmailPattern(d.email)
    && (d.phone == "" || ValidatePhone(d.phone))
    && !IsBlank(d.zipCode) && ValidateZipCode(d.zipCode, d.country)
    && d.amount.Finite? && 5.0 <= d.amount.value <= 10000.0
    && (d.dedicateGift ==> !IsBlank(d.dedicateName) && |d.dedicateName| <= 100 && |d.dedicateMessage| <= 500)
  }

  /** No message on the required fields. */
  predicate RequiredFieldsClean(e: ValidationErrors) {
    e.firstName.None? && e.lastName.None? && e.address.None? && e.city.None? && e.state.None?
  }

  /** No message on the remaining fields. */
  predicate FormatFieldsClean(e: ValidationErrors) {
    && e.email.None? && e.phone.None? && e.zipCode.None? && e.amount.None?
    && e.dedicateName.None? && e.dedicateMessage.None?
  }

  lemma RequiredFieldsCleanIff(d: DonationFormData)
    ensures RequiredFieldsClean(ValidateDonationForm(d)) <==> RequiredFieldsAcceptable(d)
  {
    ValidateDonationFormRequiredRules(d);
  }

  lemma FormatFieldsCleanIff(d: DonationFormData)
    ensures FormatFieldsClean(ValidateDonationForm(d)) <==> FormatFieldsAcceptable(d)
  {
    var r := ValidateDonationForm(d);
    ValidateDonationFormFormatRules(d);
    ValidateDonationFormDedicationRules(d);
    assert r.email.None? <==> MatchesEmailPattern(d.email);
    assert r.phone.None? <==> (d.phone == "" || ValidatePhone(d.phone));
    assert r.zipCode.None? <==> !IsBlank(d.zipCode) && ValidateZipCode(d.zipCode, d.country);
    assert r.amount.None? <==> d.amount.Finite? && 5.0 <= d.amount.value <= 10000.0;
    assert r.dedicateName.None? && r.dedicateMessage.None? <==>
      (d.dedicateGift ==> !IsBlank(d.dedicateName) && |d.dedicateName| <= 100 && |d.dedicateMessage| <= 500);
  }

  /** The form passes (`Object.keys(errors).length === 0`, i.e. the result is
      `{}`) exactly when all its fields are acceptable; in particular the
      amount is then a finite value in [5, 10000]. */
  lemma ValidFormIffAcceptable(d: DonationFormData)
    ensures ValidateDonationForm(d) == NoErrors <==> RequiredFieldsAcceptable(d) && FormatFieldsAcceptable(d)
  {
    var r := ValidateDonationForm(d);
    RequiredFieldsCleanIff(d);
    FormatFieldsCleanIff(d);
    assert r == NoErrors <==> RequiredFieldsClean(r) && FormatFieldsClean(r);
  }

  /** A form without errors has a finite amount from 5 to 10000 dollars. */
  lemma ValidFormAmountInRange(d: DonationFormData)
    requires ValidateDonationForm(d) == NoErrors
    ensures d.amount.Finite? && 5.0 <= d.amount.value <= 10000.0
    ensures SanitizeFormData(d).amount == d.amount
  {
    ValidFormIffAcceptable(d);
  }

  /** Later checks overwrite earlier ones: a non-empty, white-space-only email
      ends with the format message, not the required one. */
  lemma BlankEmailGetsFormatMessage(d: DonationFormData)
    requires d.email != "" && IsBlank(d.email)
    ensures ValidateDonationForm(d).email == Some(EmailFormatMessage)
  {
    BlankEmailIsInvalid(d.email);
  }

  /** A name over 50 characters reports the length message, whatever else. */
  lemma LongNameGetsLengthMessage(d: DonationFormData)
    requires |d.firstName| > 50
    ensures ValidateDonationForm(d).firstName == Some(FirstNameLongMessage)
  {
  }

  // ---------------------------------------------------------------- sanitising

  /** `sanitizeFormData`. */
  function SanitizeFormData(d: DonationFormData): (r: DonationFormData)
    ensures IsTrimmed(r.firstName) && IsTrimmed(r.lastName) && IsTrimmed(r.address)
    ensures IsTrimmed(r.city) && IsTrimmed(r.state)
    ensures IsTrimmed(r.dedicateName) && IsTrimmed(r.dedicateMessage)
    ensures IsTrimmed(r.email) && HasNoUpper(r.email)
    ensures IsTrimmed(r.zipCode) && HasNoLower(r.zipCode)
    ensures forall i | 0 <= i < |r.phone| :: !IsPhoneFormatting(r.phone[i])
    ensures |r.phone| <= |d.phone|
    ensures r.country == d.country && r.amount == d.amount && r.donationType == d.donationType
    ensures r.isAnonymous == d.isAnonymous && r.dedicateGift == d.dedicateGift
    ensures r.dedicationType == d.dedicationType && r.receiveUpdates == d.receiveUpdates
    ensures r.firstName == Trim(d.firstName) && r.lastName == Trim(d.lastName)
    ensures r.address == Trim(d.address) && r.city == Trim(d.city) && r.state == Trim(d.state)
    ensures r.dedicateName == Trim(d.dedicateName) && r.dedicateMessage == Trim(d.dedicateMessage)
    ensures r.email == ToLower(Trim(d.email)) && r.zipCode == ToUpper(Trim(d.zipCode))
    ensures r.phone == CleanPhone(d.phone)
  {
    CaseMappingKeepsTrimmed(Trim(d.email));
    CaseMappingKeepsTrimmed(Trim(d.zipCode));
    LowerIdempotent(Trim(d.email));
    UpperIdempotent(Trim(d.zipCode));
    d.(
      firstName := Trim(d.firstName),
      lastName := Trim(d.lastName),
      email := ToLower(Trim(d.email)),
      phone := CleanPhone(d.phone),
      address := Trim(d.address),
      city := Trim(d.city),
      state := Trim(d.state),
      zipCode := ToUpper(Trim(d.zipCode)),
      dedicateName := Trim(d.dedicateName),
      dedicateMessage := Trim(d.dedicateMessage))
  }

  /** Lower-casing a trimmed text leaves it trimmed, so doing both twice is
      doing them once. */
  lemma LowerTrimIdempotent(e: string)
    ensures ToLower(Trim(ToLower(Trim(e)))) == ToLower(Trim(e))
  {
    CaseMappingKeepsTrimmed(Trim(e));
    TrimOfTrimmed(ToLower(Trim(e)));
    LowerIdempotent(Trim(e));
  }

  /** The same for upper-casing. */
  lemma UpperTrimIdempotent(z: string)
    ensures ToUpper(Trim(ToUpper(Trim(z)))) == ToUpper(Trim(z))
  {
    CaseMappingKeepsTrimmed(Trim(z));
    TrimOfTrimmed(ToUpper(Trim(z)));
    UpperIdempotent(Trim(z));
  }

  /** Sanitising an already sanitised form changes nothing. */
  lemma SanitizeIdempotent(d: DonationFormData)
    ensures SanitizeFormData(SanitizeFormData(d)) == SanitizeFormData(d)
  {
    var s := SanitizeFormData(d);
    var t := SanitizeFormData(s);
    TrimIdempotent(d.firstName);
    TrimIdempotent(d.lastName);
    TrimIdempotent(d.address);
    TrimIdempotent(d.city);
    TrimIdempotent(d.state);
    TrimIdempotent(d.dedicateName);
    TrimIdempotent(d.dedicateMessage);
    LowerTrimIdempotent(d.email);
    UpperTrimIdempotent(d.zipCode);
    FilterIdempotent(IsPhoneKept, d.phone);
    assert t.firstName == s.firstName && t.lastName == s.lastName && t.address == s.address;
    assert t.city == s.city && t.state == s.state && t.email == s.email && t.zipCode == s.zipCode;
    assert t.dedicateName == s.dedicateName && t.dedicateMessage == s.dedicateMessage && t.phone == s.phone;
  }
}


