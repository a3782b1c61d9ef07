/** String primitives of the JavaScript runtime that the site's code relies on:
    white space (what `\s` matches and what `trim` removes), trimming, ASCII case
    mapping, character filtering (`replace(/[...]/g, '')`), decimal digits. */
module Text {

  /** ECMAScript WhiteSpace and LineTerminator code points: the set `\s` matches
      and `String.prototype.trim` strips. */
  predicate IsSpace(c: char) {
    var n := c as int;
    n == 0x09 || n == 0x0A || n == 0x0B || n == 0x0C || n == 0x0D || n == 0x20
    || n == 0xA0 || n == 0x1680 || (0x2000 <= n <= 0x200A) || n == 0x2028
    || n == 0x2029 || n == 0x202F || n == 0x205F || n == 0x3000 || n == 0xFEFF
  }

  /** Empty or made of white space only. */
  predicate IsBlank(s: string) {
    forall i | 0 <= i < |s| :: IsSpace(s[i])
  }

  /** Neither starts nor ends with white space. */
  predicate IsTrimmed(s: string) {
    |s| == 0 || (!IsSpace(s[0]) && !IsSpace(s[|s| - 1]))
  }

  function TrimStart(s: string): (r: string)
    ensures |r| <= |s| && r == s[|s| - |r|..]
    ensures IsBlank(s[..|s| - |r|])
    ensures |r| > 0 ==> !IsSpace(r[0])
  {
    if |s| > 0 && IsSpace(s[0]) then
      var r := TrimStart(s[1..]);
      TrimStartStep(s, r);
      r
    else s
  }

  /** One step of `TrimStart`: a leading space in front of a trimmed tail. */
  lemma TrimStartStep(s: string, r: string)
    requires |s| > 0 && IsSpace(s[0])
    requires |r| <= |s| - 1 && r == s[1..][|s| - 1 - |r|..]
    requires IsBlank(s[1..][..|s| - 1 - |r|])
    ensures r == s[|s| - |r|..]
    ensures IsBlank(s[..|s| - |r|])
  {
    var k := |s| - |r|;
    assert s[1..][k - 1..] == s[k..];
    forall i | 0 <= i < k
      ensures IsSpace(s[..k][i])
    {
      if i > 0 {
        assert s[..k][i] == s[1..][..k - 1][i - 1];
      }
    }
  }

  function TrimEnd(s: string): (r: string)
    ensures |r| <= |s| && r == s[..|r|]
    ensures IsBlank(s[|r|..])
    ensures |r| > 0 ==> !IsSpace(r[|r| - 1])
  {
    if |s| > 0 && IsSpace(s[|s| - 1]) then
      var r := TrimEnd(s[..|s| - 1]);
      assert s[..|s| - 1][..|r|] == s[..|r|];
      forall j | 0 <= j < |s| - |r|
        ensures IsSpace(s[|r|..][j])
      {
        if j < |s| - 1 - |r| {
          assert s[|r|..][j] == s[..|s| - 1][|r|..][j];
        }
      }
      r
    else s
  }

  /** `String.prototype.trim`: the longest infix with white space stripped from
      both ends; what was cut off is blank. */
  function Trim(s: string): (r: string)
    ensures IsTrimmed(r)
    ensures |r| <= |s|
    ensures exists i, j | 0 <= i <= j <= |s| :: r == s[i..j] && IsBlank(s[..i]) && IsBlank(s[j..])
  {
    var t := TrimStart(s);
    var r := TrimEnd(t);
    assert |r| > 0 ==> r[0] == t[0];
    var i := |s| - |t|;
    assert r == s[i..i + |r|] && s[i + |r|..] == t[|r|..];
    r
  }

  /** `TrimStart` stops at the first character that is not white space. */
  lemma {:induction false} TrimStartAt(s: string, i: nat)
    requires i <= |s| && IsBlank(s[..i])
    requires i < |s| ==> !IsSpace(s[i])
    ensures TrimStart(s) == s[i..]
  {
    if i > 0 {
      assert IsSpace(s[..i][0]);
      assert s[1..][..i - 1] == s[..i][1..];
      assert i - 1 < |s| - 1 ==> s[1..][i - 1] == s[i];
      TrimStartAt(s[1..], i - 1);
      assert s[1..][i - 1..] == s[i..];
    }
  }

  /** `TrimEnd` stops after the last character that is not white space. */
  lemma {:induction false} TrimEndAt(t: string, m: nat)
    requires m <= |t| && IsBlank(t[m..])
    requires m > 0 ==> !IsSpace(t[m - 1])
    ensures TrimEnd(t) == t[..m]
    decreases |t|
  {
    if m < |t| {
      var p := t[..|t| - 1];
      assert IsSpace(t[m..][|t| - 1 - m]);
      assert p[m..] == t[m..][..|t| - 1 - m];
      assert m > 0 ==> p[m - 1] == t[m - 1];
      TrimEndAt(p, m);
      assert p[..m] == t[..m];
    } else {
      assert t[..m] == t;
    }
  }

  /** Two blank halves make a blank string. */
  lemma BlankHalves(s: string, i: nat)
    requires i <= |s| && IsBlank(s[..i]) && IsBlank(s[i..])
    ensures IsBlank(s)
  {
    forall n | 0 <= n < |s|
      ensures IsSpace(s[n])
    {
      if n < i {
        assert s[n] == s[..i][n];
      } else {
        assert s[n] == s[i..][n - i];
      }
    }
  }

  /** `trim` is the only way to cut a string into a blank head, a trimmed
      middle and a blank tail: any such middle is `Trim(s)`. */
  lemma TrimCharacterized(s: string, i: nat, j: nat)
    requires i <= j <= |s|
    requires IsBlank(s[..i]) && IsBlank(s[j..]) && IsTrimmed(s[i..j])
    ensures Trim(s) == s[i..j]
  {
    if i == j {
      BlankHalves(s, i);
      TrimEmptyIffBlank(s);
    } else {
      assert s[i] == s[i..j][0] && s[j - 1] == s[i..j][j - i - 1];
      TrimStartAt(s, i);
      TrimEndOfInfix(s, i, j);
    }
  }

  /** The end half of `TrimCharacterized`: trimming the end of `s[i..]` stops
      at `j`. */
  lemma TrimEndOfInfix(s: string, i: nat, j: nat)
    requires i < j <= |s|
    requires IsBlank(s[j..]) && !IsSpace(s[j - 1])
    ensures TrimEnd(s[i..]) == s[i..j]
  {
    var t := s[i..];
    assert t[j - i..] == s[j..] && t[j - i - 1] == s[j - 1];
    TrimEndAt(t, j - i);
    assert t[..j - i] == s[i..j];
  }

  lemma {:induction false} TrimStartOfTrimmed(s: string)
    requires |s| == 0 || !IsSpace(s[0])
    ensures TrimStart(s) == s
  {
  }

  lemma {:induction false} TrimEndOfTrimmed(s: string)
    requires |s| == 0 || !IsSpace(s[|s| - 1])
    ensures TrimEnd(s) == s
  {
  }

  /** Trimming leaves a trimmed string alone, so `trim` is idempotent. */
  lemma TrimOfTrimmed(s: string)
    requires IsTrimmed(s)
    ensures Trim(s) == s
  {
    TrimStartOfTrimmed(s);
    TrimEndOfTrimmed(s);
  }

  lemma TrimIdempotent(s: string)
    ensures Trim(Trim(s)) == Trim(s)
  {
    TrimOfTrimmed(Trim(s));
  }

  /** `s.trim().length === 0` holds exactly for blank strings. */
  lemma {:induction false} TrimEmptyIffBlank(s: string)
    ensures Trim(s) == "" <==> IsBlank(s)
  {
    var t := TrimStart(s);
    if Trim(s) == "" {
      assert IsBlank(t[0..]);
      assert t[0..] == t;
      assert |t| == 0;
      assert s[..|s|] == s;
    }
  }

  // ASCII case mapping (the letters `toLowerCase`/`toUpperCase` change in the
  // texts this site handles).

  function LowerChar(c: char): char {
    if 'A' <= c <= 'Z' then (c as int + 32) as char else c
  }

  function UpperChar(c: char): char {
    if 'a' <= c <= 'z' then (c as int - 32) as char else c
  }

  function ToLower(s: string): (r: string)
    ensures |r| == |s|
    ensures forall i | 0 <= i < |s| :: r[i] == LowerChar(s[i])
  {
    seq(|s|, i requires 0 <= i < |s| => LowerChar(s[i]))
  }

  function ToUpper(s: string): (r: string)
    ensures |r| == |s|
    ensures forall i | 0 <= i < |s| :: r[i] == UpperChar(s[i])
  {
    seq(|s|, i requires 0 <= i < |s| => UpperChar(s[i]))
  }

  predicate HasNoUpper(s: string) {
    forall i | 0 <= i < |s| :: !('A' <= s[i] <= 'Z')
  }

  predicate HasNoLower(s: string) {
    forall i | 0 <= i < |s| :: !('a' <= s[i] <= 'z')
  }

  /** Case mapping changes letters only: white space stays white space and
      nothing else becomes white space, so a trimmed string stays trimmed. */
  lemma CaseMappingKeepsTrimmed(s: string)
    requires IsTrimmed(s)
    ensures IsTrimmed(ToLower(s)) && IsTrimmed(ToUpper(s))
  {
  }

  lemma LowerIdempotent(s: string)
    ensures HasNoUpper(ToLower(s))
    ensures ToLower(ToLower(s)) == ToLower(s)
  {
  }

  lemma UpperIdempotent(s: string)
    ensures HasNoLower(ToUpper(s))
    ensures ToUpper(ToUpper(s)) == ToUpper(s)
  {
  }

  /** `s.replace(/[...]/g, '')` with the class given as the characters to KEEP:
      the kept characters in their original order. */
  function Filter(keep: char -> bool, s: string): (r: string)
    ensures |r| <= |s|
    ensures forall i | 0 <= i < |r| :: keep(r[i])
    ensures (forall i | 0 <= i < |s| :: keep(s[i])) ==> r == s
  {
    if s == [] then []
    else (if keep(s[0]) then [s[0]] else []) + Filter(keep, s[1..])
  }

  /** Filtering twice removes nothing more. */
  lemma FilterIdempotent(keep: char -> bool, s: string)
    ensures Filter(keep, Filter(keep, s)) == Filter(keep, s)
  {
  }

  /** The filtered text is empty exactly when no character of the input is kept. */
  lemma {:induction false} FilterEmptyIff(keep: char -> bool, s: string)
    ensures Filter(keep, s) == [] <==> forall i | 0 <= i < |s| :: !keep(s[i])
  {
    if s != [] {
      FilterEmptyIff(keep, s[1..]);
      assert forall i | 1 <= i < |s| :: s[i] == s[1..][i - 1];
    }
  }

  predicate IsDigit(c: char) {
    '0' <= c <= '9'
  }

  predicate AllDigits(s: string) {
    forall i | 0 <= i < |s| :: IsDigit(s[i])
  }

  function DigitValue(c: char): nat
    requires IsDigit(c)
  {
    c as int - '0' as int
  }

  function DigitChar(d: nat): (c: char)
    requires d < 10
    ensures IsDigit(c) && DigitValue(c) == d
  {
    ('0' as int + d) as char
  }

  /** The number a string of decimal digits denotes (most significant first). */
  function DigitsValue(s: string): nat
    requires AllDigits(s)
  {
    if s == [] then 0 else DigitsValue(s[..|s| - 1]) * 10 + DigitValue(s[|s| - 1])
  }

  /** `n.toString()` for a natural number: its shortest decimal spelling. */
  function DecimalString(n: nat): (r: string)
    ensures |r| > 0 && AllDigits(r)
    ensures |r| > 1 ==> r[0] != '0'
  {
    if n < 10 then [DigitChar(n)] else DecimalString(n / 10) + [DigitChar(n % 10)]
  }

  /** Reading back the decimal spelling gives the number. */
  lemma {:induction false} DecimalStringRoundTrip(n: nat)
    ensures DigitsValue(DecimalString(n)) == n
  {
    if n >= 10 {
      DecimalStringRoundTrip(n / 10);
      var s := DecimalString(n);
      assert s[..|s| - 1] == DecimalString(n / 10);
    }
  }

  function Pow10(k: nat): (r: nat)
    ensures r >= 1
  {
    if k == 0 then 1 else 10 * Pow10(k - 1)
  }

  /** `lines.join(sep)`. */
  function Join(parts: seq<string>, sep: string): string {
    if |parts| == 0 then ""
    else if |parts| == 1 then parts[0]
    else parts[0] + sep + Join(parts[1..], sep)
  }

  /** `t` occurs in `s` (`s.includes(t)`). */
  predicate Contains(s: string, t: string) {
    exists k | 0 <= k <= |s| :: StartsWith(s[k..], t)
  }

  /** Every part occurs in the joined text. */
  lemma {:induction false} JoinContains(parts: seq<string>, sep: string, i: nat)
    requires i < |parts|
    ensures Contains(Join(parts, sep), parts[i])
  {
    var s := Join(parts, sep);
    if i == 0 {
      assert s[0..] == s;
    } else {
      var rest := Join(parts[1..], sep);
      JoinContains(parts[1..], sep, i - 1);
      var k :| 0 <= k <= |rest| && StartsWith(rest[k..], parts[i]);
      var off := |parts[0]| + |sep|;
      assert s == parts[0] + sep + rest;
      assert s[off + k..] == rest[k..];
    }
  }

  /** `s.startsWith(p)`. */
  predicate StartsWith(s: string, p: string) {
    |p| <= |s| && s[..|p|] == p
  }
}
