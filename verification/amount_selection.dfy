/** The donation amount picker (src/components/donation-amount-selector.tsx):
    preset buttons and a free-text amount that exclude each other, the
    digits-and-dot filter on the free text, `parseFloat` on what is left, and
    the minimum warning and summary the picker shows. */
module AmountSelector {
  import opened Text
  import opened Js
  import opened DonationValidation

  // ------------------------------------------------------------ presets

  /** The preset buttons for a donation type, in display order. */
  function PresetAmounts(t: DonationType): (r: seq<int>)
    ensures |r| == (if t == Monthly then 4 else 5)
    ensures forall i, j | 0 <= i < j < |r| :: r[i] < r[j]
    ensures forall i | 0 <= i < |r| :: 5 <= r[i] <= 10000
    ensures 25 in r && 50 in r && 100 in r
    ensures (10 in r) <==> t == Monthly
    ensures (250 in r) <==> t == OneTime
    ensures r[|r| - 1] == (if t == Monthly then 100 else 500)
  {
    if t == Monthly then [10, 25, 50, 100]
    else
      var r := [25, 50, 100, 250, 500];
      assert t == OneTime && r[3] == 250;
      r
  }

  /** Every preset lies in the range the server-side amount validator accepts. */
  lemma PresetsPassValidation(t: DonationType, a: int)
    requires a in PresetAmounts(t)
    ensures ValidateAmount(Finite(a as real)).None?
  {
  }

  // ------------------------------------------------------------ the free text

  /** A character `[^0-9.]` does not match: a decimal digit or a dot. */
  predicate IsAmountChar(c: char) {
    IsDigit(c) || c == '.'
  }

  /** Made only of digits and dots, as every stored custom amount is. */
  predicate Sanitized(s: string) {
    forall i | 0 <= i < |s| :: IsAmountChar(s[i])
  }

  /** `value.replace(/[^0-9.]/g, '')`. */
  function SanitizeAmountText(value: string): (r: string)
    ensures Sanitized(r)
    ensures Sanitized(value) ==> r == value
    ensures r == "" <==> forall i | 0 <= i < |value| :: !IsAmountChar(value[i])
  {
    FilterEmptyIff(IsAmountChar, value);
    Filter(IsAmountChar, value)
  }

  lemma SanitizeAmountTextIdempotent(value: string)
    ensures SanitizeAmountText(SanitizeAmountText(value)) == SanitizeAmountText(value)
  {
  }

  // ------------------------------------------------------------ parseFloat

  /** The longest run of digits `s` starts with. */
  function DigitPrefix(s: string): (r: string)
    ensures |r| <= |s| && r == s[..|r|]
    ensures AllDigits(r)
    ensures |r| < |s| ==> !IsDigit(s[|r|])
  {
    if s != [] && IsDigit(s[0]) then [s[0]] + DigitPrefix(s[1..]) else []
  }

  /** A digit run followed by a non-digit (or by nothing) is that run's prefix. */
  lemma {:induction false} DigitPrefixOfDigits(w: string, x: string)
    requires AllDigits(w)
    requires x == [] || !IsDigit(x[0])
    ensures DigitPrefix(w + x) == w
  {
    if w != [] {
      assert (w + x)[1..] == w[1..] + x;
      DigitPrefixOfDigits(w[1..], x);
    }
  }

  /** Whether `parseFloat` finds a number at the start of digits-and-dots
      text: a digit, or a dot followed by a digit. */
  predicate StartsNumber(s: string) {
    (|s| > 0 && IsDigit(s[0])) || (|s| > 1 && s[0] == '.' && IsDigit(s[1]))
  }

  /** `parseFloat` on digits-and-dots text: the longest prefix of the form
      digits, optional dot, digits, read as a decimal fraction; `NaN` when that
      prefix holds no digit. Everything from the second dot on is ignored. */
  function ParseFloat(s: string): (r: Number)
    requires Sanitized(s)
    ensures r.NaN? || r.Finite?
    ensures r.NaN? <==> !StartsNumber(s)
    ensures r.Finite? ==> r.value >= 0.0
  {
    var whole := DigitPrefix(s);
    var rest := s[|whole|..];
    var fraction := if |rest| > 0 && rest[0] == '.' then DigitPrefix(rest[1..]) else [];
    if whole == [] && fraction == [] then NaN
    else Finite(DigitsValue(whole) as real + DigitsValue(fraction) as real / Pow10(|fraction|) as real)
  }

  /** `parseFloat(String(n))` is `n` for a natural number. */
  lemma ParseDecimalString(n: nat)
    ensures Sanitized(DecimalString(n))
    ensures ParseFloat(DecimalString(n)) == Finite(n as real)
  {
    var s := DecimalString(n);
    DigitPrefixOfDigits(s, []);
    assert s + [] == s;
    DecimalStringRoundTrip(n);
  }

  /** The number written as digits `w`, a dot, and digits `f`. */
  function DecimalValue(w: string, f: string): (v: real)
    requires AllDigits(w) && AllDigits(f)
    ensures v >= 0.0
  {
    DigitsValue(w) as real + DigitsValue(f) as real / Pow10(|f|) as real
  }

  /** Digits, a dot, digits and digits-and-dots text make digits-and-dots
      text. */
  lemma DecimalSanitized(w: string, f: string, x: string)
    requires AllDigits(w) && AllDigits(f) && Sanitized(x)
    ensures Sanitized(w + ("." + (f + x)))
  {
    var s := w + ("." + (f + x));
    forall i | 0 <= i < |s| ensures IsAmountChar(s[i]) {
      if i < |w| { assert s[i] == w[i]; }
      else if i == |w| { assert s[i] == '.'; }
      else if i < |w| + 1 + |f| { assert s[i] == f[i - |w| - 1]; }
      else { assert s[i] == x[i - |w| - 1 - |f|]; }
    }
  }

  /** Digits, a dot, digits, then nothing or another dot: the parse is the
      decimal number before that second dot. */
  lemma {:induction false} ParseFloatParts(w: string, f: string, x: string)
    requires AllDigits(w) && AllDigits(f) && Sanitized(x) && (x == [] || x[0] == '.')
    requires w != [] || f != []
    ensures Sanitized(w + ("." + (f + x)))
    ensures ParseFloat(w + ("." + (f + x))) == Finite(DecimalValue(w, f))
  {
    var s := w + ("." + (f + x));
    DecimalSanitized(w, f, x);
    DigitPrefixOfDigits(w, "." + (f + x));
    var rest := s[|w|..];
    assert rest == "." + (f + x);
    assert rest[1..] == f + x;
    DigitPrefixOfDigits(f, x);
    assert DigitPrefix(rest[1..]) == f;
  }

  /** Text after a second dot never changes the parsed number. */
  lemma ParseStopsAtSecondDot(w: string, f: string, t: string)
    requires AllDigits(w) && AllDigits(f) && Sanitized(t)
    requires w != [] || f != []
    ensures Sanitized(w + ("." + f)) && Sanitized(w + ("." + (f + ("." + t))))
    ensures ParseFloat(w + ("." + (f + ("." + t)))) == ParseFloat(w + ("." + f))
  {
    assert Sanitized("." + t) by {
      assert forall i | 1 <= i < |"." + t| :: ("." + t)[i] == t[i - 1];
    }
    ParseFloatParts(w, f, "." + t);
    ParseFloatParts(w, f, []);
    assert f + [] == f;
  }

  /** The example "12.5.3": everything from the second dot on is dropped,
      so it reads as 12.5. */
  lemma ParseFloatStopsExample()
    ensures ParseFloat("12.5.3") == Finite(12.5)
  {
    var w, f, x := "12", "5", ".3";
    ParseFloatParts(w, f, x);
    assert w + ("." + (f + x)) == "12.5.3";
    DecimalValueExample();
  }

  lemma DecimalValueExample()
    ensures DecimalValue("12", "5") == 12.5
  {
    assert DigitsValue("12") == 12 by {
      assert "12"[..1] == "1";
    }
    assert DigitsValue("5") == 5 by {
      assert "5"[..0] == "";
    }
  }

  /** Text without a digit before its second dot, such as "" or ".", reads as `NaN`. */
  lemma ParseFloatNaNExamples()
    ensures ParseFloat("").NaN? && ParseFloat(".").NaN? && ParseFloat("..5").NaN?
  {
  }

  // ------------------------------------------------------------ the picker state

  /** What the picker shows and edits: the chosen preset (`null` when none)
      and the custom text. */
  datatype SelectorState = SelectorState(selected: Option<int>, custom: string)

  /** A preset and a non-empty custom text are never both set. */
  predicate Exclusive(s: SelectorState) {
    !(s.selected.Some? && s.custom != "")
  }

  /** `handleCustomAmountChange`: the filtered text is stored; when it is
      non-empty the preset is cleared, otherwise the preset is kept. */
  function HandleCustomAmountChange(s: SelectorState, value: string): (r: SelectorState)
    ensures Sanitized(r.custom)
    ensures r.custom == SanitizeAmountText(value)
    ensures r.custom != "" ==> r.selected.None?
    ensures r.custom == "" ==> r.selected == s.selected
    ensures Exclusive(r)
  {
    var sanitized := SanitizeAmountText(value);
    SelectorState(if sanitized != "" then None else s.selected, sanitized)
  }

  /** `handlePresetSelect`: the preset is chosen and the custom text cleared. */
  function HandlePresetSelect(s: SelectorState, amount: int): (r: SelectorState)
    ensures r.selected == Some(amount) && r.custom == ""
    ensures Exclusive(r) && Sanitized(r.custom)
  {
    SelectorState(Some(amount), "")
  }

  /** What the user does to the picker. */
  datatype SelectorEvent = Typed(value: string) | Picked(amount: int)

  function Step(s: SelectorState, e: SelectorEvent): SelectorState {
    match e
    case Typed(v) => HandleCustomAmountChange(s, v)
    case Picked(a) => HandlePresetSelect(s, a)
  }

  function Run(s: SelectorState, events: seq<SelectorEvent>): SelectorState
    decreases |events|
  {
    if events == [] then s else Run(Step(s, events[0]), events[1..])
  }

  /** From a state where not both are set, no sequence of edits ever reaches
      one with a preset chosen and custom text present, and the stored text
      stays made of digits and dots. */
  lemma {:induction false} RunKeepsExclusive(s: SelectorState, events: seq<SelectorEvent>)
    requires Exclusive(s) && Sanitized(s.custom)
    ensures Exclusive(Run(s, events)) && Sanitized(Run(s, events).custom)
    decreases |events|
  {
    if events != [] {
      RunKeepsExclusive(Step(s, events[0]), events[1..]);
    }
  }

  /** The last edit decides: after a pick, that preset is chosen; after typing
      text with a digit or dot in it, no preset is. */
  lemma LastEditDecides(s: SelectorState, events: seq<SelectorEvent>, e: SelectorEvent)
    ensures e.Picked? ==> Run(s, events + [e]).selected == Some(e.amount)
    ensures e.Typed? && SanitizeAmountText(e.value) != "" ==> Run(s, events + [e]).selected.None?
  {
    RunSnoc(s, events, e);
  }

  lemma {:induction false} RunSnoc(s: SelectorState, events: seq<SelectorEvent>, e: SelectorEvent)
    ensures Run(s, events + [e]) == Step(Run(s, events), e)
    decreases |events|
  {
    if events == [] {
      assert events + [e] == [e];
    } else {
      assert (events + [e])[1..] == events[1..] + [e];
      RunSnoc(Step(s, events[0]), events[1..], e);
    }
  }

  // ------------------------------------------------------------ what the picker shows

  /** "Minimum donation amount is $5": custom text present and reading below 5. */
  predicate ShowsMinimumWarning(s: SelectorState)
    requires Sanitized(s.custom)
  {
    s.custom != "" && LessThan(ParseFloat(s.custom), 5.0)
  }

  /** The summary box: a (truthy) preset, or custom text reading 5 or more. */
  predicate ShowsSummary(s: SelectorState)
    requires Sanitized(s.custom)
  {
    (s.selected.Some? && s.selected.value != 0)
    || (s.custom != "" && AtLeast(ParseFloat(s.custom), 5.0))
  }

  /** Text with no number in it ("." or "..") shows neither message; with no
      preset, text with a number shows exactly one of the two. */
  lemma WarningAndSummary(s: SelectorState)
    requires Sanitized(s.custom)
    ensures s.custom != "" && !StartsNumber(s.custom) ==>
      !ShowsMinimumWarning(s) && (ShowsSummary(s) <==> s.selected.Some? && s.selected.value != 0)
    ensures s.selected.None? && StartsNumber(s.custom) ==> (ShowsMinimumWarning(s) <==> !ShowsSummary(s))
    ensures s.custom == "" ==> !ShowsMinimumWarning(s)
  {
  }

  /** `selectedAmount || parseFloat(customAmount)`: the figure the summary shows. */
  function SummaryAmount(s: SelectorState): (r: real)
    requires Sanitized(s.custom) && ShowsSummary(s)
    ensures s.selected.Some? && s.selected.value != 0 ==> r == s.selected.value as real
    ensures s.selected.None? ==> r >= 5.0 && Finite(r) == ParseFloat(s.custom)
  {
    if s.selected.Some? && s.selected.value != 0 then s.selected.value as real
    else ParseFloat(s.custom).value
  }
}

/** The donate page (src/app/donate/page.tsx): its amount state, the amount it
    derives for the payment form, and the impact lines it lists. */
module DonatePage {
  import opened Text
  import opened Js
  import opened DonationValidation
  import opened AmountSelector

  datatype PageState = PageState(picker: SelectorState, donationType: DonationType)

  /** No preset, no custom text, a one-time donation. */
  const Initial := PageState(SelectorState(None, ""), OneTime)

  /** A whole number of cents. */
  predicate WholeCents(r: real) {
    (r * 100.0).Floor as real == r * 100.0
  }

  /** `Math.round(v * 100) / 100` for a positive `v`: within half a cent of
      `v`, a whole number of cents, never negative. */
  function RoundToCents(v: real): (r: real)
    requires v > 0.0
    ensures v - 0.005 < r <= v + 0.005
    ensures WholeCents(r) && r >= 0.0
  {
    var x := v * 100.0;
    var cents := Round(x);
    assert cents as real - 0.5 <= x < cents as real + 0.5;
    assert cents >= 0;
    var r := cents as real / 100.0;
    assert r * 100.0 == cents as real;
    assert (r * 100.0).Floor == cents;
    r
  }

  /** A whole number of dollars is already rounded. */
  lemma RoundWholeDollars(a: int)
    requires a > 0
    ensures RoundToCents(a as real) == a as real
  {
    var x := a as real * 100.0;
    assert x == (a * 100) as real;
    assert (x + 0.5).Floor == a * 100;
    assert Round(x) == a * 100;
  }

  /** The `useMemo` amount: a chosen preset wins over the text (`??` keeps even
      a zero preset); otherwise the filtered text read by `parseFloat`. A
      missing, non-finite or non-positive candidate gives 0; anything else is
      rounded to whole cents. */
  function DerivedAmount(selected: Option<int>, custom: string): (r: real)
    ensures r >= 0.0 && WholeCents(r)
    ensures selected.Some? && selected.value <= 0 ==> r == 0.0
    ensures selected.Some? && selected.value > 0 ==> r == selected.value as real
    ensures selected.None? && !StartsNumber(SanitizeAmountText(custom)) ==> r == 0.0
    ensures selected.None? && StartsNumber(SanitizeAmountText(custom)) ==>
      var v := ParseFloat(SanitizeAmountText(custom)).value;
      v - 0.005 < r <= v + 0.005
  {
    var parsed := ParseFloat(SanitizeAmountText(custom));
    var raw := if selected.Some? then Finite(selected.value as real) else parsed;
    if !raw.Finite? || raw.value <= 0.0 then 0.0
    else if selected.Some? then
      RoundWholeDollars(selected.value);
      RoundToCents(raw.value)
    else RoundToCents(raw.value)
  }

  /** A chosen preset makes the custom text irrelevant. */
  lemma PresetTakesPrecedence(a: int, custom1: string, custom2: string)
    ensures DerivedAmount(Some(a), custom1) == DerivedAmount(Some(a), custom2)
  {
  }

  /** A preset reaches the payment form unchanged and within the server's range. */
  lemma PresetReachesForm(t: DonationType, a: int, custom: string)
    requires a in PresetAmounts(t)
    ensures DerivedAmount(Some(a), custom) == a as real
    ensures ValidateAmount(Finite(DerivedAmount(Some(a), custom))).None?
  {
  }

  /** The page's own amount for a picker state. */
  function PageAmount(p: PageState): (r: real)
    ensures r >= 0.0
  {
    DerivedAmount(p.picker.selected, p.picker.custom)
  }

  /** The opening page has no amount, and its picker state is consistent. */
  lemma InitialState()
    ensures Exclusive(Initial.picker) && Sanitized(Initial.picker.custom)
    ensures Initial.donationType == OneTime
    ensures PageAmount(Initial) == 0.0
    ensures ImpactLines(PageAmount(Initial)) == []
  {
    assert !StartsNumber(SanitizeAmountText(""));
  }

  /** The "Your Impact" bullet points. */
  datatype ImpactLine = EducationalMaterials | BasicNecessities | NutritiousMeals | EveryDollar

  /** The smallest amount that lists a line; the closing line is ranked 0. */
  function Threshold(l: ImpactLine): real {
    match l
    case EducationalMaterials => 100.0
    case BasicNecessities => 50.0
    case NutritiousMeals => 25.0
    case EveryDollar => 0.0
  }

  /** The bullets listed for an amount: none for 0, otherwise each threshold
      met (100, 50, 25) from the highest down, then the closing line. */
  function ImpactLines(amount: real): (r: seq<ImpactLine>)
    ensures r == [] <==> amount <= 0.0
    ensures amount > 0.0 ==> r[|r| - 1] == EveryDollar
    ensures EducationalMaterials in r <==> amount >= 100.0
    ensures BasicNecessities in r <==> amount >= 50.0
    ensures NutritiousMeals in r <==> amount >= 25.0
    ensures forall i, j | 0 <= i < j < |r| :: r[i] != r[j]
    ensures forall i, j | 0 <= i < j < |r| :: Threshold(r[i]) > Threshold(r[j])
  {
    if amount <= 0.0 then []
    else
      (if amount >= 100.0 then [EducationalMaterials] else [])
      + (if amount >= 50.0 then [BasicNecessities] else [])
      + (if amount >= 25.0 then [NutritiousMeals] else [])
      + [EveryDollar]
  }

  /** A larger amount lists every bullet a smaller positive one lists. */
  lemma ImpactMonotone(a: real, b: real)
    requires a <= b
    ensures forall l | l in ImpactLines(a) :: l in ImpactLines(b)
  {
  }
}
