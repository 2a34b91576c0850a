/**
 * String helpers with the behaviour of the Python `str` methods the crawler
 * uses: ASCII case mapping, `strip()`, `startswith`, the `in` substring test,
 * `replace` of one character, and the decimal text of integers that `str(n)`
 * writes and `int(s)` reads back.
 */
module Text {

  import opened Wrappers

  // ---------------------------------------------------------------------------
  // Case mapping (ASCII letters; every other character has no case here)
  // ---------------------------------------------------------------------------

  function LowerChar(c: char): char {
    if 'A' <= c <= 'Z' then (c as int + 32) as char else c
  }

  function UpperChar(c: char): char {
    if 'a' <= c <= 'z' then (c as int - 32) as char else c
  }

  /** `s.lower()` */
  function Lower(s: string): (r: string)
    ensures |r| == |s|
    ensures forall i :: 0 <= i < |s| ==> r[i] == LowerChar(s[i])
  {
    seq(|s|, i requires 0 <= i < |s| => LowerChar(s[i]))
  }

  /** `s.upper()` */
  function Upper(s: string): (r: string)
    ensures |r| == |s|
    ensures forall i :: 0 <= i < |s| ==> r[i] == UpperChar(s[i])
  {
    seq(|s|, i requires 0 <= i < |s| => UpperChar(s[i]))
  }

  /** Two strings are equal once both are upper-cased exactly when they are equal once both are lower-cased. */
  lemma UpperEqIffLowerEq(a: string, b: string)
    ensures Upper(a) == Upper(b) <==> Lower(a) == Lower(b)
  {
    if Upper(a) == Upper(b) {
      assert |a| == |b|;
      forall i | 0 <= i < |a| ensures Lower(a)[i] == Lower(b)[i] {
        assert UpperChar(a[i]) == UpperChar(b[i]);
      }
    }
    if Lower(a) == Lower(b) {
      assert |a| == |b|;
      forall i | 0 <= i < |a| ensures Upper(a)[i] == Upper(b)[i] {
        assert LowerChar(a[i]) == LowerChar(b[i]);
      }
    }
  }

  /** `x.lower() in [y.lower() for y in xs]`, searched front to back. */
  function InIgnoringCase(xs: seq<string>, x: string): (r: bool)
    ensures r <==> exists i :: 0 <= i < |xs| && Lower(xs[i]) == Lower(x)
  {
    if xs == [] then false
    else if Lower(xs[0]) == Lower(x) then true
    else
      var rest := InIgnoringCase(xs[1..], x);
      assert rest <==> exists i :: 1 <= i < |xs| && Lower(xs[i]) == Lower(x) by {
        if rest {
          var j :| 0 <= j < |xs[1..]| && Lower(xs[1..][j]) == Lower(x);
          assert Lower(xs[j + 1]) == Lower(x);
        }
        if exists i :: 1 <= i < |xs| && Lower(xs[i]) == Lower(x) {
          var i :| 1 <= i < |xs| && Lower(xs[i]) == Lower(x);
          assert Lower(xs[1..][i - 1]) == Lower(x);
        }
      }
      rest
  }

  // ---------------------------------------------------------------------------
  // Whitespace and strip()
  // ---------------------------------------------------------------------------

  /** The characters for which Python's `str.isspace()` holds. */
  predicate IsSpace(c: char) {
    || c == ' ' || ('\t' <= c <= '\r') || ('\U{001c}' <= c <= '\U{001f}')
    || c == '\U{0085}' || c == '\U{00a0}' || c == '\U{1680}' || ('\U{2000}' <= c <= '\U{200a}')
    || c == '\U{2028}' || c == '\U{2029}' || c == '\U{202f}' || c == '\U{205f}' || c == '\U{3000}'
  }

  function StripLeft(s: string): (r: string)
    ensures |r| <= |s| && r == s[|s| - |r|..]
    ensures r == [] || !IsSpace(r[0])
    ensures forall i :: 0 <= i < |s| - |r| ==> IsSpace(s[i])
  {
    if s != [] && IsSpace(s[0]) then StripLeft(s[1..]) else s
  }

  function StripRight(s: string): (r: string)
    ensures |r| <= |s| && r == s[..|r|]
    ensures r == [] || !IsSpace(r[|r| - 1])
    ensures forall i :: |r| <= i < |s| ==> IsSpace(s[i])
  {
    if s != [] && IsSpace(s[|s| - 1]) then StripRight(s[..|s| - 1]) else s
  }

  /** `s.strip()` */
  function Strip(s: string): string {
    StripRight(StripLeft(s))
  }

  /** `s.strip() == ''` holds exactly when every character of `s` is whitespace. */
  lemma {:induction false} StripEmptyIffBlank(s: string)
    ensures Strip(s) == "" <==> forall i :: 0 <= i < |s| ==> IsSpace(s[i])
  {
    if forall i :: 0 <= i < |s| ==> IsSpace(s[i]) {
      BlankStripsLeftToEmpty(s);
    }
  }

  lemma {:induction false} BlankStripsLeftToEmpty(s: string)
    requires forall i :: 0 <= i < |s| ==> IsSpace(s[i])
    ensures StripLeft(s) == ""
  {
    if s != [] {
      BlankStripsLeftToEmpty(s[1..]);
    }
  }

  /** A string with no whitespace at either end is its own strip. */
  lemma StripUnchanged(s: string)
    requires s == [] || (!IsSpace(s[0]) && !IsSpace(s[|s| - 1]))
    ensures Strip(s) == s
  {
  }

  // ---------------------------------------------------------------------------
  // Prefixes, substrings and replacement
  // ---------------------------------------------------------------------------

  /** `s.startswith(p)` */
  predicate StartsWith(s: string, p: string) {
    |p| <= |s| && s[..|p|] == p
  }

  /** `s.endswith(p)` */
  predicate EndsWith(s: string, p: string) {
    |p| <= |s| && s[|s| - |p|..] == p
  }

  predicate OccursAt(hay: string, needle: string, i: int) {
    0 <= i && i + |needle| <= |hay| && hay[i..i + |needle|] == needle
  }

  /** Python's `needle in hay` on two strings. */
  predicate Contains(hay: string, needle: string) {
    exists i | 0 <= i <= |hay| - |needle| :: OccursAt(hay, needle, i)
  }

  lemma EmptyContained(hay: string)
    ensures Contains(hay, "")
  {
    assert OccursAt(hay, "", 0);
  }

  /** `s.replace(c, t)` for a one-character pattern `c`. */
  function ReplaceChar(s: string, c: char, t: string): (r: string)
    ensures c !in s ==> r == s
    ensures c !in t ==> c !in r
    ensures forall d :: d in r ==> d in s || d in t
  {
    if s == [] then []
    else (if s[0] == c then t else [s[0]]) + ReplaceChar(s[1..], c, t)
  }

  // ---------------------------------------------------------------------------
  // Decimal integers: str(n) and int(s)
  // ---------------------------------------------------------------------------

  predicate IsDigit(c: char) { '0' <= c <= '9' }

  function DigitChar(d: nat): char
    requires d < 10
  {
    ('0' as int + d) as char
  }

  function DigitValue(c: char): nat
    requires IsDigit(c)
  {
    c as int - '0' as int
  }

  /** The decimal text of a natural number, as `str(n)` writes it. */
  function NatToString(n: nat): (r: string)
    ensures r != [] && forall i :: 0 <= i < |r| ==> IsDigit(r[i])
    decreases n
  {
    if n < 10 then [DigitChar(n)] else NatToString(n / 10) + [DigitChar(n % 10)]
  }

  /** `str(i)` */
  function IntToString(i: int): (r: string)
    ensures r != []
  {
    if i < 0 then "-" + NatToString(-i) else NatToString(i)
  }

  /** The value of a string of decimal digits. */
  function DecimalValue(ds: string): nat
    requires forall i :: 0 <= i < |ds| ==> IsDigit(ds[i])
  {
    if ds == [] then 0 else DecimalValue(ds[..|ds| - 1]) * 10 + DigitValue(ds[|ds| - 1])
  }

  lemma {:induction false} DecimalValueOfNatToString(n: nat)
    ensures DecimalValue(NatToString(n)) == n
    decreases n
  {
    var s := NatToString(n);
    if n >= 10 {
      assert s[..|s| - 1] == NatToString(n / 10);
      DecimalValueOfNatToString(n / 10);
    }
  }

  /**
   * The digit part that `int()` accepts after its optional sign: decimal digits,
   * a single `_` allowed between two digits.
   */
  predicate IsDigitGroup(ds: string) {
    && ds != []
    && IsDigit(ds[0]) && IsDigit(ds[|ds| - 1])
    && (forall i :: 0 <= i < |ds| ==> IsDigit(ds[i]) || ds[i] == '_')
    && (forall i :: 0 <= i < |ds| - 1 ==> ds[i] == '_' ==> ds[i + 1] != '_')
  }

  function RemoveUnderscores(s: string): (r: string)
    ensures forall c :: c in r ==> c in s && c != '_'
    ensures (forall i :: 0 <= i < |s| ==> s[i] != '_') ==> r == s
  {
    if s == [] then [] else (if s[0] == '_' then [] else [s[0]]) + RemoveUnderscores(s[1..])
  }

  /** An unsigned decimal literal; None when `ds` is not one. */
  function ParseUnsigned(ds: string): Option<nat> {
    if IsDigitGroup(ds) then
      var clean := RemoveUnderscores(ds);
      assert forall i :: 0 <= i < |clean| ==> IsDigit(clean[i]) by {
        forall i | 0 <= i < |clean| ensures IsDigit(clean[i]) {
          assert clean[i] in clean;
        }
      }
      Some(DecimalValue(clean))
    else None
  }

  /**
   * `int(s)` on a string in base 10: surrounding whitespace is stripped, one
   * optional sign, then a digit group. None where Python raises ValueError
   * (the empty string, "1,024", "12abc", "1__0", ...).
   */
  function ParseInt(s: string): (r: Option<int>)
    ensures r.Some? ==> Strip(s) != ""
  {
    ParseSigned(Strip(s))
  }

  /** An optionally signed digit group with nothing around it. */
  function ParseSigned(t: string): (r: Option<int>)
    ensures r.Some? ==> t != ""
  {
    if t == [] then None
    else if t[0] == '-' then
      (match ParseUnsigned(t[1..]) case Some(n) => Some(-(n as int)) case None => None)
    else if t[0] == '+' then
      (match ParseUnsigned(t[1..]) case Some(n) => Some(n as int) case None => None)
    else
      (match ParseUnsigned(t) case Some(n) => Some(n as int) case None => None)
  }

  lemma ParseUnsignedOfNatToString(n: nat)
    ensures ParseUnsigned(NatToString(n)) == Some(n)
  {
    var ds := NatToString(n);
    DecimalValueOfNatToString(n);
    assert IsDigitGroup(ds);
    assert RemoveUnderscores(ds) == ds;
  }

  /** What `str(n)` writes, `int()` reads back: the round trip for every integer. */
  lemma {:induction false} ParseIntOfIntToString(i: int)
    ensures ParseInt(IntToString(i)) == Some(i)
  {
    IntToStringTrimmed(i);
    StripUnchanged(IntToString(i));
    ParseSignedOfIntToString(i);
  }

  /** `int("0")` is 0. */
  lemma ParseIntOfZero()
    ensures ParseInt("0") == Some(0)
  {
    assert IntToString(0) == "0";
    ParseIntOfIntToString(0);
  }

  /** The decimal text of an integer has no whitespace at either end. */
  lemma IntToStringTrimmed(i: int)
    ensures var s := IntToString(i); s != [] && !IsSpace(s[0]) && !IsSpace(s[|s| - 1])
  {
    var n: nat := if i < 0 then -i else i;
    var ds := NatToString(n);
    var s := IntToString(i);
    assert s[|s| - 1] == ds[|ds| - 1];
    assert IsDigit(ds[|ds| - 1]);
    assert i >= 0 ==> s[0] == ds[0];
  }

  /** The sign and digits of an integer's decimal text read back as the integer. */
  lemma ParseSignedOfIntToString(i: int)
    ensures ParseSigned(IntToString(i)) == Some(i)
  {
    var n: nat := if i < 0 then -i else i;
    var ds := NatToString(n);
    var s := IntToString(i);
    ParseUnsignedOfNatToString(n);
    if i < 0 {
      assert s[0] == '-' && s[1..] == ds;
    } else {
      assert s == ds && IsDigit(s[0]);
    }
  }

  /** Stripping keeps every character that is not whitespace. */
  lemma {:induction false} StripKeeps(s: string, i: nat)
    requires i < |s| && !IsSpace(s[i])
    ensures s[i] in Strip(s)
  {
    var l := StripLeft(s);
    var k := i - (|s| - |l|);
    assert 0 <= k < |l| && l[k] == s[i];
    var r := StripRight(l);
    assert k < |r| && r[k] == l[k];
  }

  lemma CommaIsNotDigits(ds: string, j: int)
    requires 0 <= j < |ds| && ds[j] == ','
    ensures ParseUnsigned(ds) == None
  {
    assert !IsDigit(ds[j]);
  }

  /** A comma anywhere makes `int()` fail: thousands separators are not understood. */
  lemma {:induction false} CommaRejected(s: string)
    requires ',' in s
    ensures ParseInt(s) == None
  {
    var i :| 0 <= i < |s| && s[i] == ',';
    StripKeeps(s, i);
    var t := Strip(s);
    var j :| 0 <= j < |t| && t[j] == ',';
    if t[0] == '-' || t[0] == '+' {
      CommaIsNotDigits(t[1..], j - 1);
    } else {
      CommaIsNotDigits(t, j);
    }
  }

  /** `int("1,024")` raises. */
  lemma ThousandsSeparatorRejected()
    ensures ParseInt("1,024") == None
  {
    var t := "1,024";
    assert t[1] == ',';
    CommaRejected(t);
  }
}
