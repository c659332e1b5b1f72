/**
 * The pieces of Python's `str` and `dict` behaviour that the integration relies on:
 * `strip`, `lower`/`upper` (ASCII letters only), `replace`, `startswith`,
 * `split(sep, 1)[1]`, `dict.get` and decimal formatting of integers.
 */
module Text {
  import opened Wrappers

  /** Python's `str.isspace` for one character: exactly the characters `str.strip()` removes. */
  predicate IsSpace(c: char) {
    || c == ' '
    || '\t' <= c <= '\r'
    || '\U{1C}' <= c <= '\U{1F}'
    || c == '\U{85}' || c == '\U{A0}' || c == '\U{1680}'
    || '\U{2000}' <= c <= '\U{200A}'
    || c == '\U{2028}' || c == '\U{2029}' || c == '\U{202F}' || c == '\U{205F}' || c == '\U{3000}'
  }

  predicate AllSpace(s: string) {
    forall i | 0 <= i < |s| :: IsSpace(s[i])
  }

  /** Python's `s.lstrip()`. */
  function TrimStart(s: string): (r: string)
    ensures r != [] ==> !IsSpace(r[0])
    decreases |s|
  {
    if |s| > 0 && IsSpace(s[0]) then TrimStart(s[1..]) else s
  }

  /** Python's `s.rstrip()`. */
  function TrimEnd(s: string): string
    decreases |s|
  {
    if |s| > 0 && IsSpace(s[|s| - 1]) then TrimEnd(s[..|s| - 1]) else s
  }

  lemma {:induction false} TrimStartBlank(s: string)
    ensures TrimStart(s) == [] <==> AllSpace(s)
    decreases |s|
  {
    if s != [] {
      assert AllSpace(s) <==> IsSpace(s[0]) && AllSpace(s[1..]) by {
        assert forall i | 0 <= i < |s| - 1 :: s[1..][i] == s[i + 1];
      }
      TrimStartBlank(s[1..]);
    }
  }

  lemma {:induction false} TrimEndBlank(s: string)
    ensures TrimEnd(s) == [] <==> AllSpace(s)
    decreases |s|
  {
    if s != [] {
      var init := s[..|s| - 1];
      assert AllSpace(s) <==> AllSpace(init) && IsSpace(s[|s| - 1]) by {
        assert forall i | 0 <= i < |s| - 1 :: init[i] == s[i];
      }
      TrimEndBlank(init);
    }
  }

  /** A concatenation is blank exactly when both parts are. */
  lemma AllSpaceConcat(a: string, b: string)
    ensures AllSpace(a + b) <==> AllSpace(a) && AllSpace(b)
  {
    if AllSpace(a) && AllSpace(b) {
      forall m | 0 <= m < |a + b| ensures IsSpace((a + b)[m]) {
        if m >= |a| {
          assert (a + b)[m] == b[m - |a|];
        }
      }
    }
    if AllSpace(a + b) {
      forall m | 0 <= m < |a| ensures IsSpace(a[m]) {
        assert a[m] == (a + b)[m];
      }
      forall m | 0 <= m < |b| ensures IsSpace(b[m]) {
        assert b[m] == (a + b)[m + |a|];
      }
    }
  }

  /** `lstrip()` removes a prefix made only of whitespace. */
  lemma {:induction false} TrimStartSlice(s: string)
    ensures |TrimStart(s)| <= |s|
    ensures TrimStart(s) == s[|s| - |TrimStart(s)|..]
    ensures AllSpace(s[..|s| - |TrimStart(s)|])
    decreases |s|
  {
    if |s| > 0 && IsSpace(s[0]) {
      var rest := s[1..];
      TrimStartSlice(rest);
      var k := |rest| - |TrimStart(rest)|;
      assert rest[k..] == s[k + 1..];
      assert s[..k + 1] == [s[0]] + rest[..k];
      AllSpaceConcat([s[0]], rest[..k]);
    } else {
      assert s[..0] == [];
    }
  }

  /** `rstrip()` removes a suffix made only of whitespace, and leaves none at the end. */
  lemma {:induction false} TrimEndSlice(s: string)
    ensures |TrimEnd(s)| <= |s|
    ensures TrimEnd(s) == s[..|TrimEnd(s)|]
    ensures AllSpace(s[|TrimEnd(s)|..])
    ensures TrimEnd(s) != [] ==> !IsSpace(TrimEnd(s)[|TrimEnd(s)| - 1])
    decreases |s|
  {
    if |s| > 0 && IsSpace(s[|s| - 1]) {
      var init := s[..|s| - 1];
      TrimEndSlice(init);
      var k := |TrimEnd(init)|;
      assert init[..k] == s[..k];
      assert s[k..] == init[k..] + [s[|s| - 1]];
      AllSpaceConcat(init[k..], [s[|s| - 1]]);
    } else {
      assert s[|s|..] == [];
    }
  }

  /** A blank-prefixed suffix cut back to a blank-suffixed prefix is a blank-bordered middle slice. */
  lemma MiddleSlice(s: string, t: string, u: string)
    requires |t| <= |s| && t == s[|s| - |t|..] && AllSpace(s[..|s| - |t|])
    requires |u| <= |t| && u == t[..|u|] && AllSpace(t[|u|..])
    ensures exists i, j | 0 <= i <= j <= |s| :: u == s[i..j] && AllSpace(s[..i]) && AllSpace(s[j..])
  {
    var i := |s| - |t|;
    var j := i + |u|;
    assert u == s[i..j];
    assert t[|u|..] == s[j..];
  }

  /** Stripping both ends keeps a middle slice whose two cut-off ends are all whitespace. */
  lemma StripSlice(s: string)
    ensures exists i, j | 0 <= i <= j <= |s| ::
      TrimEnd(TrimStart(s)) == s[i..j] && AllSpace(s[..i]) && AllSpace(s[j..])
  {
    TrimStartSlice(s);
    TrimEndSlice(TrimStart(s));
    MiddleSlice(s, TrimStart(s), TrimEnd(TrimStart(s)));
  }

  /**
   * Python's `s.strip()`: the middle of `s` left once the whitespace at both ends is
   * removed; it starts and ends with a non-space, and is empty exactly for blank input.
   */
  function Strip(s: string): (r: string)
    ensures r == [] <==> AllSpace(s)
    ensures r != [] ==> !IsSpace(r[0]) && !IsSpace(r[|r| - 1])
    ensures exists i, j | 0 <= i <= j <= |s| :: r == s[i..j] && AllSpace(s[..i]) && AllSpace(s[j..])
  {
    var t := TrimStart(s);
    TrimStartBlank(s);
    TrimEndBlank(t);
    assert AllSpace(t) ==> t == [] by {
      if t != [] { assert !IsSpace(t[0]); }
    }
    TrimEndSlice(t);
    StripSlice(s);
    var r := TrimEnd(t);
    assert r != [] ==> r[0] == t[0];
    r
  }

  function LowerChar(c: char): char {
    if 'A' <= c <= 'Z' then (c as int + 32) as char else c
  }

  function UpperChar(c: char): char {
    if 'a' <= c <= 'z' then (c as int - 32) as char else c
  }

  /** Python's `s.lower()`, restricted to ASCII letters. */
  function Lower(s: string): string {
    seq(|s|, i requires 0 <= i < |s| => LowerChar(s[i]))
  }

  /** Python's `s.upper()`, restricted to ASCII letters. */
  function Upper(s: string): string {
    seq(|s|, i requires 0 <= i < |s| => UpperChar(s[i]))
  }

  /** A string with no whitespace at either end is its own `strip()`. */
  lemma StripUnpadded(s: string)
    requires s != [] && !IsSpace(s[0]) && !IsSpace(s[|s| - 1])
    ensures Strip(s) == s
  {
  }

  /** A string starts with any prefix it was built from. */
  lemma StartsWithConcat(prefix: string, rest: string)
    ensures StartsWith(prefix + rest, prefix)
  {
    assert (prefix + rest)[..|prefix|] == prefix;
  }

  /** `Lower` is determined character by character. */
  lemma LowerPointwise(s: string, t: string)
    requires |s| == |t| && forall i | 0 <= i < |s| :: LowerChar(s[i]) == t[i]
    ensures Lower(s) == t
  {
  }

  /** Python's `s.startswith(prefix)`. */
  predicate StartsWith(s: string, prefix: string) {
    |prefix| <= |s| && s[..|prefix|] == prefix
  }

  /** True when `pat` occurs somewhere in `s` (Python's `pat in s`). */
  predicate Occurs(s: string, pat: string)
    decreases |s|
  {
    |pat| <= |s| && (s[..|pat|] == pat || (|s| > 0 && Occurs(s[1..], pat)))
  }

  /** A character that is absent from `s` does not occur in it as a one-character pattern. */
  lemma {:induction false} CharAbsent(s: string, c: char)
    requires c !in s
    ensures !Occurs(s, [c])
    decreases |s|
  {
    if |s| >= 1 {
      assert s[..1] == [s[0]];
      assert forall x | x in s[1..] :: x in s;
      CharAbsent(s[1..], c);
    }
  }

  /**
   * Python's `s.replace(pat, rep)`: every non-overlapping occurrence of `pat`,
   * found scanning left to right, is replaced by `rep`.
   */
  function ReplaceAll(s: string, pat: string, rep: string): string
    requires pat != []
    decreases |s|
  {
    if |s| < |pat| then s
    else if s[..|pat|] == pat then rep + ReplaceAll(s[|pat|..], pat, rep)
    else [s[0]] + ReplaceAll(s[1..], pat, rep)
  }

  /** Replacing a pattern that does not occur leaves the text as it was. */
  lemma {:induction false} ReplaceAbsent(s: string, pat: string, rep: string)
    requires pat != [] && !Occurs(s, pat)
    ensures ReplaceAll(s, pat, rep) == s
    decreases |s|
  {
    if |s| >= |pat| {
      assert s[..|pat|] != pat;
      ReplaceAbsent(s[1..], pat, rep);
      assert [s[0]] + s[1..] == s;
    }
  }

  /** Every character of a replacement result comes from the text or from the replacement. */
  lemma {:induction false} ReplaceChars(s: string, pat: string, rep: string)
    requires pat != []
    ensures forall c | c in ReplaceAll(s, pat, rep) :: c in s || c in rep
    decreases |s|
  {
    if |s| >= |pat| {
      if s[..|pat|] == pat {
        ReplaceChars(s[|pat|..], pat, rep);
        assert forall c | c in s[|pat|..] :: c in s;
      } else {
        ReplaceChars(s[1..], pat, rep);
        assert forall c | c in s[1..] :: c in s;
      }
    }
  }

  /** Removing a one-character pattern leaves no occurrence of that character behind. */
  lemma {:induction false} ReplaceCharGone(s: string, c: char, rep: string)
    requires c !in rep
    ensures c !in ReplaceAll(s, [c], rep)
    decreases |s|
  {
    if |s| >= 1 {
      ReplaceCharGone(s[1..], c, rep);
      if s[..1] != [c] {
        assert s[0] != c by { assert s[..1] == [s[0]]; }
      }
    }
  }

  /** Python's `s.split(sep, 1)[1]`: the text after the first `sep`; `None` (an IndexError) when `sep` is absent. */
  function AfterFirst(s: string, sep: char): (r: Option<string>)
    ensures r.Some? <==> sep in s
    ensures r.Some? ==> |r.value| < |s| && s[|s| - |r.value|..] == r.value && s[|s| - |r.value| - 1] == sep
    ensures r.Some? ==> sep !in s[..|s| - |r.value| - 1]
    decreases |s|
  {
    if s == [] then None
    else if s[0] == sep then Some(s[1..])
    else
      var r := AfterFirst(s[1..], sep);
      assert sep in s <==> sep in s[1..] by { assert s == [s[0]] + s[1..]; }
      assert r.Some? ==> s[..|s| - |r.value| - 1] == [s[0]] + s[1..][..|s| - 1 - |r.value| - 1];
      r
  }

  /** Splitting at the first separator recovers the text after it. */
  lemma {:induction false} AfterFirstSplit(before: string, sep: char, after: string)
    requires sep !in before
    ensures AfterFirst(before + [sep] + after, sep) == Some(after)
    decreases |before|
  {
    if before != [] {
      assert (before + [sep] + after)[1..] == before[1..] + [sep] + after;
      AfterFirstSplit(before[1..], sep, after);
    }
  }

  /** Python's `d.get(key, default)` on a dictionary of strings. */
  function GetOr(d: map<string, string>, key: string, default: string): string {
    if key in d then d[key] else default
  }

  predicate IsDigit(c: char) {
    '0' <= c <= '9'
  }

  predicate AllDigits(s: string) {
    forall i | 0 <= i < |s| :: IsDigit(s[i])
  }

  function DigitChar(d: nat): (c: char)
    requires d < 10
    ensures IsDigit(c) && c as int - '0' as int == d
  {
    (d + '0' as int) as char
  }

  /** The number a string of decimal digits denotes, most significant digit first. */
  function DigitsValue(s: string): nat
    requires AllDigits(s)
    decreases |s|
  {
    if s == [] then 0 else 10 * DigitsValue(s[..|s| - 1]) + (s[|s| - 1] as int - '0' as int)
  }

  /** Python's `str(n)` for a natural number: its digits, with no leading zero. */
  function NatToDecimal(n: nat): (r: string)
    ensures r != [] && AllDigits(r) && DigitsValue(r) == n
    ensures r[0] == '0' <==> n == 0
    ensures n < 10 ==> |r| == 1
    decreases n
  {
    if n < 10 then [DigitChar(n)]
    else
      var r := NatToDecimal(n / 10) + [DigitChar(n % 10)];
      assert r[..|r| - 1] == NatToDecimal(n / 10);
      r
  }

  /** A digit string without a leading zero is the decimal form of its value: `str` is the only such spelling. */
  lemma {:induction false} CanonicalDecimal(s: string)
    requires s != [] && AllDigits(s) && (|s| == 1 || s[0] != '0')
    ensures s == NatToDecimal(DigitsValue(s))
    decreases |s|
  {
    var d := s[|s| - 1] as int - '0' as int;
    if |s| == 1 {
      assert s[..0] == [];
      assert s == [DigitChar(d)];
    } else {
      var init := s[..|s| - 1];
      assert init[0] == s[0];
      CanonicalDecimal(init);
      var v := DigitsValue(init);
      assert v != 0;
      var n := DigitsValue(s);
      assert n / 10 == v && n % 10 == d;
      assert s == init + [DigitChar(d)];
    }
  }

  /** Python's `str(n)` (and `f"{n}"`) for any integer: an optional `-`, then digits with no leading zero. */
  function IntToDecimal(n: int): (r: string)
    ensures r != [] && '.' !in r
    ensures n >= 0 ==> AllDigits(r) && DigitsValue(r) == n && (r[0] == '0' <==> n == 0)
    ensures n < 0 ==> |r| >= 2 && r[0] == '-' && AllDigits(r[1..]) && DigitsValue(r[1..]) == -n && r[1] != '0'
  {
    if n < 0 then
      var r := "-" + NatToDecimal(-n);
      assert r[1..] == NatToDecimal(-n);
      r
    else NatToDecimal(n)
  }

  /** Different integers have different decimal forms. */
  lemma DecimalInjective(m: int, n: int)
    requires IntToDecimal(m) == IntToDecimal(n)
    ensures m == n
  {
  }

  /** Python's `0<width>d` format of a digit string: zeros added on the left up to `width` characters. */
  function ZeroPad(digits: string, width: nat): string {
    if |digits| >= width then digits else seq(width - |digits|, _ => '0') + digits
  }

  /** A string of zeros denotes 0. */
  lemma {:induction false} ZerosValue(z: string)
    requires forall i | 0 <= i < |z| :: z[i] == '0'
    ensures AllDigits(z) && DigitsValue(z) == 0
    decreases |z|
  {
    if z != [] {
      ZerosValue(z[..|z| - 1]);
    }
  }

  /** Leading zeros do not change the value of a digit string. */
  lemma {:induction false} LeadingZerosValue(z: string, s: string)
    requires forall i | 0 <= i < |z| :: z[i] == '0'
    requires AllDigits(s)
    ensures AllDigits(z + s) && DigitsValue(z + s) == DigitsValue(s)
    decreases |s|
  {
    ZerosValue(z);
    if s == [] {
      assert z + s == z;
    } else {
      var init := s[..|s| - 1];
      assert (z + s)[..|z + s| - 1] == z + init;
      LeadingZerosValue(z, init);
    }
  }

  /** A number below 10000 has at most four decimal digits. */
  lemma {:induction false} DecimalWidth(n: nat)
    ensures n < 10 ==> |NatToDecimal(n)| == 1
    ensures n < 100 ==> |NatToDecimal(n)| <= 2
    ensures n < 1000 ==> |NatToDecimal(n)| <= 3
    ensures n < 10000 ==> |NatToDecimal(n)| <= 4
    decreases n
  {
    if n >= 10 {
      DecimalWidth(n / 10);
    }
  }
}
