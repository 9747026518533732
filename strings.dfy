/**
 * The slice of Python's `str` behaviour the core relies on, over ASCII:
 * `isspace`, `isdigit`, `isalnum`, `lower`, `strip`, `split()`, `split(sep)`,
 * `join`, `startswith`, `in`, `int(...)`, `float(...)`, `str(int)` and slicing
 * with negative bounds.
 */
module Strings {
  import opened Wrappers

  // ---------------------------------------------------------------------
  // Character classes (ASCII view of Python's str predicates)

  /** `c.isspace()` for ASCII: space, \t \n \x0b \x0c \r and \x1c..\x1f. */
  predicate IsSpace(c: char)
  {
    c == ' ' || (9 <= c as int <= 13) || (28 <= c as int <= 31)
  }

  predicate IsDigit(c: char) { '0' <= c <= '9' }

  predicate IsAlpha(c: char) { ('a' <= c <= 'z') || ('A' <= c <= 'Z') }

  predicate IsAlnum(c: char) { IsAlpha(c) || IsDigit(c) }

  predicate AllDigits(s: string) { forall i :: 0 <= i < |s| ==> IsDigit(s[i]) }

  predicate NoSpace(s: string) { forall i :: 0 <= i < |s| ==> !IsSpace(s[i]) }

  function LowerChar(c: char): char
  {
    if 'A' <= c <= 'Z' then (c as int + 32) as char else c
  }

  /** `s.lower()`: same length, every upper-case ASCII letter mapped to lower case. */
  function Lower(s: string): (r: string)
    ensures |r| == |s|
    ensures forall i :: 0 <= i < |s| ==> r[i] == LowerChar(s[i])
  {
    if s == [] then [] else [LowerChar(s[0])] + Lower(s[1..])
  }

  // ---------------------------------------------------------------------
  // Prefixes, suffixes, containment

  predicate StartsWith(s: string, p: string) { |p| <= |s| && s[..|p|] == p }

  predicate EndsWith(s: string, p: string) { |p| <= |s| && s[|s| - |p|..] == p }

  /** `p` occurs in `s` starting at index `i`. */
  predicate OccursAt(s: string, p: string, i: int)
  {
    0 <= i && i + |p| <= |s| && s[i..i + |p|] == p
  }

  /** Python's `p in s` for strings. */
  predicate Contains(s: string, p: string)
  {
    exists i :: 0 <= i <= |s| && OccursAt(s, p, i)
  }

  lemma ContainsPrefix(s: string, p: string)
    requires StartsWith(s, p)
    ensures Contains(s, p)
  {
    assert OccursAt(s, p, 0);
  }

  lemma ContainsMiddle(a: string, p: string, b: string)
    ensures Contains(a + p + b, p)
  {
    var s := a + p + b;
    assert s[|a|..|a| + |p|] == p;
    assert OccursAt(s, p, |a|);
  }

  /** Containment survives adding text on either side. */
  lemma ContainsExtend(s: string, p: string, a: string, b: string)
    requires Contains(s, p)
    ensures Contains(a + s + b, p)
  {
    var i :| 0 <= i <= |s| && OccursAt(s, p, i);
    var t := a + s + b;
    assert t[|a| + i..|a| + i + |p|] == s[i..i + |p|];
    assert OccursAt(t, p, |a| + i);
  }

  // ---------------------------------------------------------------------
  // strip()

  /** Index of the first non-whitespace character at or after `i`, or `|s|`. */
  function SkipSpace(s: string, i: nat): (r: nat)
    requires i <= |s|
    ensures i <= r <= |s|
    ensures forall k :: i <= k < r ==> IsSpace(s[k])
    ensures r == |s| || !IsSpace(s[r])
    decreases |s| - i
  {
    if i < |s| && IsSpace(s[i]) then SkipSpace(s, i + 1) else i
  }

  /** One past the last non-whitespace character before `j`, or 0. */
  function TrimEnd(s: string, j: nat): (r: nat)
    requires j <= |s|
    ensures r <= j
    ensures forall k :: r <= k < j ==> IsSpace(s[k])
    ensures r == 0 || !IsSpace(s[r - 1])
  {
    if j > 0 && IsSpace(s[j - 1]) then TrimEnd(s, j - 1) else j
  }

  /** `s.lstrip()`. */
  function LStrip(s: string): (r: string)
    ensures |r| <= |s|
    ensures r == [] || !IsSpace(r[0])
  {
    s[SkipSpace(s, 0)..]
  }

  /** `s.strip()`: the text between the leading and the trailing whitespace. */
  function Strip(s: string): (r: string)
    ensures |r| <= |s|
    ensures r == [] || (!IsSpace(r[0]) && !IsSpace(r[|r| - 1]))
  {
    var a := SkipSpace(s, 0);
    var b := TrimEnd(s, |s|);
    if a < b then s[a..b] else []
  }

  /** What `strip()` removes is whitespace on both sides of the text it returns. */
  lemma StripFrame(s: string)
    ensures var i := SkipSpace(s, 0);
      OccursAt(s, Strip(s), i) &&
      (forall k :: 0 <= k < i ==> IsSpace(s[k])) &&
      (forall k :: i + |Strip(s)| <= k < |s| ==> IsSpace(s[k]))
  {
    var a := SkipSpace(s, 0);
    var b := TrimEnd(s, |s|);
    if a < b {
      assert s[a..][..b - a] == s[a..b];
    }
  }

  /** `strip()` is idempotent. */
  lemma StripStripped(s: string)
    ensures Strip(Strip(s)) == Strip(s)
  {
    var r := Strip(s);
    if r != [] {
      assert SkipSpace(r, 0) == 0;
      assert TrimEnd(r, |r|) == |r|;
      assert r[0..|r|] == r;
    }
  }

  lemma StripNoSpace(s: string)
    requires NoSpace(s)
    ensures Strip(s) == s
  {
    if s != [] {
      assert !IsSpace(s[0]) && !IsSpace(s[|s| - 1]);
      assert SkipSpace(s, 0) == 0;
      assert TrimEnd(s, |s|) == |s|;
      assert s[0..|s|] == s;
    }
  }

  // ---------------------------------------------------------------------
  // split() on whitespace

  /** Length of the longest prefix of `s` free of whitespace. */
  function WordLen(s: string): (n: nat)
    ensures n <= |s| && NoSpace(s[..n])
    ensures n == |s| || IsSpace(s[n])
  {
    if s == [] || IsSpace(s[0]) then 0 else 1 + WordLen(s[1..])
  }

  /** `s.split()`: maximal runs of non-whitespace, in order. */
  function SplitWs(s: string): (r: seq<string>)
    decreases |s|
    ensures forall k :: 0 <= k < |r| ==> r[k] != [] && NoSpace(r[k])
  {
    var t := LStrip(s);
    if t == [] then []
    else
      var n := WordLen(t);
      [t[..n]] + SplitWs(t[n..])
  }

  lemma {:induction false} SplitWsNoSpace(s: string)
    requires s != [] && NoSpace(s)
    ensures SplitWs(s) == [s]
  {
    assert !IsSpace(s[0]);
    assert SkipSpace(s, 0) == 0;
    assert s[0..] == s;
    WordLenNoSpace(s);
    assert s[..|s|] == s;
    assert SkipSpace([], 0) == 0;
    assert SplitWs(s[|s|..]) == [];
  }

  lemma {:induction false} WordLenNoSpace(s: string)
    requires NoSpace(s)
    ensures WordLen(s) == |s|
  {
    if s != [] {
      WordLenNoSpace(s[1..]);
    }
  }

  // ---------------------------------------------------------------------
  // split(sep) and join

  /** Index of the first `c` in `s`, or `|s|` when there is none. */
  function IndexOf(s: string, c: char): (i: nat)
    ensures i <= |s|
    ensures forall j :: 0 <= j < i ==> s[j] != c
    ensures i < |s| ==> s[i] == c
  {
    if s == [] then 0 else if s[0] == c then 0 else 1 + IndexOf(s[1..], c)
  }

  /** `s.rfind(c)`: index of the last `c` in `s`, or -1 when there is none. */
  function LastIndexOf(s: string, c: char): (i: int)
    ensures -1 <= i < |s|
    ensures i >= 0 ==> s[i] == c
    ensures forall j :: i < j < |s| ==> s[j] != c
  {
    if s == [] then -1
    else if s[|s| - 1] == c then |s| - 1
    else LastIndexOf(s[..|s| - 1], c)
  }

  /** `s.split(c)` for a one-character separator. */
  function SplitOn(s: string, c: char): (r: seq<string>)
    decreases |s|
    ensures |r| >= 1
    ensures forall k :: 0 <= k < |r| ==> c !in r[k]
  {
    var i := IndexOf(s, c);
    if i == |s| then [s] else [s[..i]] + SplitOn(s[i + 1..], c)
  }

  /** `sep.join(parts)`. */
  function Join(parts: seq<string>, sep: string): string
  {
    if parts == [] then []
    else if |parts| == 1 then parts[0]
    else parts[0] + sep + Join(parts[1..], sep)
  }

  /** A joined string begins with its first part. */
  lemma JoinStartsWith(parts: seq<string>, sep: string)
    requires parts != []
    ensures StartsWith(Join(parts, sep), parts[0])
  {
    if |parts| > 1 {
      var j := Join(parts, sep);
      assert j == parts[0] + (sep + Join(parts[1..], sep));
      assert j[..|parts[0]|] == parts[0];
    }
  }

  /** Every part occurs in the joined string. */
  lemma {:induction false} JoinContains(parts: seq<string>, sep: string, k: nat)
    requires k < |parts|
    ensures Contains(Join(parts, sep), parts[k])
  {
    if k == 0 {
      JoinStartsWith(parts, sep);
      ContainsPrefix(Join(parts, sep), parts[0]);
    } else {
      var rest := parts[1..];
      JoinContains(rest, sep, k - 1);
      assert Join(parts, sep) == (parts[0] + sep) + Join(rest, sep) + [];
      ContainsExtend(Join(rest, sep), rest[k - 1], parts[0] + sep, []);
    }
  }

  /** Splitting on `c` and joining back with `c` gives the original string. */
  lemma {:induction false} JoinSplitOn(s: string, c: char)
    decreases |s|
    ensures Join(SplitOn(s, c), [c]) == s
  {
    var i := IndexOf(s, c);
    if i < |s| {
      JoinSplitOn(s[i + 1..], c);
      assert s == s[..i] + [c] + s[i + 1..];
    }
  }

  // ---------------------------------------------------------------------
  // Python slicing s[a:b] with possibly negative or out-of-range bounds

  function SliceBound(i: int, n: nat): (r: nat)
    ensures r <= n
  {
    if i < 0 then (if n + i < 0 then 0 else n + i) else if i > n then n else i
  }

  /** `s[start:stop]`: negative bounds count from the end; bounds are clamped. */
  function PySlice<T>(s: seq<T>, start: int, stop: int): (r: seq<T>)
    ensures |r| <= |s|
    ensures var lo, hi := SliceBound(start, |s|), SliceBound(stop, |s|);
      r == if lo < hi then s[lo..hi] else []
  {
    var lo, hi := SliceBound(start, |s|), SliceBound(stop, |s|);
    if lo < hi then s[lo..hi] else []
  }

  /** `s[:k]`. */
  function PyPrefix<T>(s: seq<T>, k: int): (r: seq<T>)
    ensures k >= 0 ==> r == s[..if k <= |s| then k else |s|]
    ensures k < 0 ==> r == s[..if |s| + k < 0 then 0 else |s| + k]
  {
    PySlice(s, 0, k)
  }

  /** `s.replace(a, b)` for single characters. */
  function ReplaceChar(s: string, a: char, b: char): (r: string)
    ensures |r| == |s|
    ensures forall i :: 0 <= i < |s| ==> r[i] == if s[i] == a then b else s[i]
  {
    seq(|s|, i requires 0 <= i < |s| => if s[i] == a then b else s[i])
  }

  // ---------------------------------------------------------------------
  // Decimal numbers: str(n), int(s), float(s)

  function DigitValue(c: char): nat requires IsDigit(c) { (c - '0') as nat }

  function DigitChar(d: nat): (c: char)
    requires d < 10
    ensures IsDigit(c) && DigitValue(c) == d
  {
    ('0' as int + d) as char
  }

  /** The value of a run of decimal digits, most significant first. */
  function DigitsValue(s: string): nat
    requires AllDigits(s)
  {
    if s == [] then 0 else DigitsValue(s[..|s| - 1]) * 10 + DigitValue(s[|s| - 1])
  }

  /** `str(n)` for a non-negative int. */
  function NatToString(n: nat): (s: string)
    ensures s != [] && AllDigits(s)
    ensures DigitsValue(s) == n
  {
    if n < 10 then [DigitChar(n)]
    else
      var p := NatToString(n / 10);
      var s := p + [DigitChar(n % 10)];
      assert s[..|s| - 1] == p;
      s
  }

  /** `str(i)`. */
  function IntToString(i: int): string
  {
    if i < 0 then "-" + NatToString(-i) else NatToString(i)
  }

  /** The text of 0 and 1. */
  lemma SmallNumerals()
    ensures IntToString(0) == "0" && IntToString(1) == "1"
  {
    assert NatToString(0) == [DigitChar(0)];
    assert NatToString(1) == [DigitChar(1)];
  }

  /** Sign and digits of an already stripped numeric literal. */
  function ParseSigned(t: string): Option<int>
  {
    if t != [] && (t[0] == '-' || t[0] == '+') then
      var d := t[1..];
      if d != [] && AllDigits(d) then Some(if t[0] == '-' then -(DigitsValue(d) as int) else DigitsValue(d)) else None
    else if t != [] && AllDigits(t) then Some(DigitsValue(t))
    else None
  }

  /**
   * `int(s)` for a str: surrounding whitespace, an optional sign, then one or
   * more ASCII digits. `None` is the `ValueError` Python raises.
   */
  function ParseInt(s: string): (r: Option<int>)
    ensures r.Some? ==> Strip(s) != []
    ensures AllDigits(Strip(s)) && Strip(s) != [] ==> r == Some(DigitsValue(Strip(s)))
  {
    ParseSigned(Strip(s))
  }

  lemma DigitsNoSpace(s: string)
    requires AllDigits(s)
    ensures NoSpace(s)
  {
    forall k | 0 <= k < |s| ensures !IsSpace(s[k]) {
      assert IsDigit(s[k]);
    }
  }

  lemma NatStringParses(n: nat)
    ensures ParseSigned(NatToString(n)) == Some(n)
  {
    var s := NatToString(n);
    assert IsDigit(s[0]);
  }

  /** `int(str(i)) == i`. */
  lemma IntStringRoundTrip(i: int)
    ensures ParseInt(IntToString(i)) == Some(i)
  {
    var s := IntToString(i);
    if i < 0 {
      var d := NatToString(-i);
      assert s == "-" + d;
      DigitsNoSpace(d);
      assert NoSpace(s) by {
        forall k | 0 <= k < |s| ensures !IsSpace(s[k]) {
          if k > 0 { assert s[k] == d[k - 1]; }
        }
      }
      StripNoSpace(s);
      assert s[1..] == d;
      assert ParseSigned(s) == Some(-(DigitsValue(d) as int));
    } else {
      DigitsNoSpace(s);
      StripNoSpace(s);
      NatStringParses(i);
    }
  }

  /** `t` is `digits`, `digits.`, `.digits` or `digits.digits`. */
  function ParseMantissa(t: string): (r: Option<real>)
    ensures t != [] && AllDigits(t) && IndexOf(t, '.') == |t| ==> r == Some(DigitsValue(t) as real)
  {
    var i := IndexOf(t, '.');
    var whole, frac := t[..i], if i < |t| then t[i + 1..] else [];
    assert i == |t| ==> whole == t && frac == [] && DigitsValue(frac) == 0 && Pow10(|frac|) == 1;
    if AllDigits(whole) && AllDigits(frac) && (whole != [] || frac != []) then
      Some(DigitsValue(whole) as real + DigitsValue(frac) as real / Pow10(|frac|) as real)
    else None
  }

  function Pow10(n: nat): (r: nat)
    ensures r >= 1
  {
    if n == 0 then 1 else 10 * Pow10(n - 1)
  }

  /** `m * 10**e`, exactly. */
  function Scale(m: real, e: int): real
  {
    if e >= 0 then m * Pow10(e) as real else m / Pow10(-e) as real
  }

  /** Index of the first 'e' or 'E' in `t`, or `|t|` when there is none. */
  function ExponentMark(t: string): (i: nat)
    ensures i <= |t|
    ensures forall j :: 0 <= j < i ==> t[j] != 'e' && t[j] != 'E'
    ensures i < |t| ==> t[i] == 'e' || t[i] == 'E'
  {
    var a, b := IndexOf(t, 'e'), IndexOf(t, 'E');
    if a <= b then a else b
  }

  /** A mantissa, optionally followed by 'e' or 'E' and a signed decimal exponent. */
  function ParseUnsignedReal(t: string): Option<real>
  {
    var i := ExponentMark(t);
    if i == |t| then ParseMantissa(t)
    else
      match (ParseMantissa(t[..i]), ParseSigned(t[i + 1..]))
      case (Some(m), Some(e)) => Some(Scale(m, e))
      case _ => None
  }

  /**
   * A Python float. Finite values are exact reals: rounding to the nearest
   * binary64 value, and the overflow of a huge literal to infinity, are not
   * modelled.
   */
  datatype PyFloat = Finite(r: real) | Infinite(negative: bool) | NotANumber

  /** The words `float` reads, case-insensitively, as a non-finite value. */
  predicate NonFiniteWord(w: string)
  {
    (|w| == 3 && (Lower(w) == "inf" || Lower(w) == "nan")) || (|w| == 8 && Lower(w) == "infinity")
  }

  /** What `float` makes of the text after the sign. */
  function ParseFloatBody(body: string, negative: bool): (r: Option<PyFloat>)
    ensures r.Some? ==> body != []
  {
    if NonFiniteWord(body) then
      if Lower(body) == "nan" then Some(NotANumber) else Some(Infinite(negative))
    else
      match ParseUnsignedReal(body)
      case Some(v) => Some(Finite(if negative then -v else v))
      case None => None
  }

  /**
   * `float(s)` for a str: surrounding whitespace, an optional sign, then
   * either `inf`, `infinity` or `nan` in any case, or a decimal literal with
   * an optional exponent. `None` is the `ValueError` Python raises.
   */
  function ParseFloat(s: string): (r: Option<PyFloat>)
    ensures r.Some? ==> Strip(s) != []
  {
    var t := Strip(s);
    if t != [] && (t[0] == '-' || t[0] == '+') then ParseFloatBody(t[1..], t[0] == '-')
    else ParseFloatBody(t, false)
  }

  /** A plain word parses as a float exactly when it names a non-finite value. */
  lemma WordNotNumber(s: string)
    requires s != [] && NoSpace(s)
    requires !IsDigit(s[0]) && s[0] != '-' && s[0] != '+' && s[0] != '.'
    ensures ParseInt(s) == None
    ensures ParseFloat(s).Some? <==> NonFiniteWord(s)
    ensures ParseFloat(s).Some? ==> !ParseFloat(s).value.Finite?
  {
    StripNoSpace(s);
    var i := ExponentMark(s);
    if i > 0 {
      var m := s[..i];
      var j := IndexOf(m, '.');
      assert m[0] == s[0];
      assert j > 0;
      assert m[..j][0] == s[0];
    }
  }

  lemma DigitsParseAsReal(d: string)
    requires d != [] && AllDigits(d)
    ensures !NonFiniteWord(d)
    ensures ParseUnsignedReal(d) == Some(DigitsValue(d) as real)
  {
    assert Lower(d)[0] == d[0];
    DigitsMantissa(d);
  }

  /** A run of digits has neither an exponent mark nor a point, so it is its own mantissa. */
  lemma DigitsMantissa(d: string)
    requires d != [] && AllDigits(d)
    ensures ParseUnsignedReal(d) == Some(DigitsValue(d) as real)
  {
    assert forall k :: 0 <= k < |d| ==> d[k] != '.' && d[k] != 'e' && d[k] != 'E';
    assert ExponentMark(d) == |d| && IndexOf(d, '.') == |d|;
  }

  /** `float(str(i)) == i`. */
  lemma RealStringOfInt(i: int)
    ensures ParseFloat(IntToString(i)) == Some(Finite(i as real))
  {
    var s := IntToString(i);
    if i < 0 {
      var d := NatToString(-i);
      assert s == "-" + d;
      DigitsNoSpace(d);
      assert NoSpace(s) by {
        forall k | 0 <= k < |s| ensures !IsSpace(s[k]) {
          if k > 0 { assert s[k] == d[k - 1]; }
        }
      }
      StripNoSpace(s);
      assert s[1..] == d;
      DigitsParseAsReal(d);
    } else {
      DigitsNoSpace(s);
      StripNoSpace(s);
      assert IsDigit(s[0]);
      DigitsParseAsReal(s);
    }
  }

  /** A literal that starts with a digit and is not three or eight long is read as a decimal literal. */
  lemma DecimalLiteral(t: string)
    requires t != [] && NoSpace(t) && IsDigit(t[0]) && |t| != 3 && |t| != 8
    ensures ParseFloat(t) == match ParseUnsignedReal(t) case Some(v) => Some(Finite(v)) case None => None
  {
    StripNoSpace(t);
  }

  /** `float("1.5e3") == 1500.0`: a mantissa scaled up by its exponent. */
  lemma ExponentUp()
    ensures ParseFloat("1.5e3") == Some(Finite(1500.0))
  {
    var t := "1.5e3";
    assert NoSpace(t) && IsDigit(t[0]);
    DecimalLiteral(t);
    UnsignedUp();
  }

  /** The unsigned literal "1.5e3" is 1.5 times 10 cubed. */
  lemma UnsignedUp()
    ensures ParseUnsignedReal("1.5e3") == Some(1500.0)
  {
    var t := "1.5e3";
    ExponentMarkAt(t, 3);
    assert t[..3] == "1.5" && t[4..] == "3";
    OneAndAHalf();
    assert ParseSigned("3") == Some(3);
    assert Pow10(3) == 1000;
  }

  /** The mantissa "1.5". */
  lemma OneAndAHalf()
    ensures ParseMantissa("1.5") == Some(1.5)
  {
    var m := "1.5";
    assert IndexOf(m, '.') == 1;
    assert m[..1] == "1" && m[2..] == "5";
    assert DigitsValue("1") == 1 && DigitsValue("5") == 5;
  }

  /** The exponent mark of a literal whose only letter is at `i`. */
  lemma ExponentMarkAt(t: string, i: nat)
    requires i < |t| && (t[i] == 'e' || t[i] == 'E')
    requires forall j :: 0 <= j < |t| && j != i ==> IsDigit(t[j]) || t[j] == '.' || t[j] == '-' || t[j] == '+'
    ensures ExponentMark(t) == i
  {
    var a, b := IndexOf(t, 'e'), IndexOf(t, 'E');
    if t[i] == 'e' {
      assert a == i && b == |t|;
    } else {
      assert b == i && a == |t|;
    }
  }

  /** `float("25E-1") == 2.5`: a negative exponent divides. */
  lemma ExponentDown()
    ensures ParseFloat("25E-1") == Some(Finite(2.5))
  {
    var t := "25E-1";
    assert NoSpace(t) && IsDigit(t[0]);
    DecimalLiteral(t);
    UnsignedDown();
  }

  /** The unsigned literal "25E-1" is 25 divided by 10. */
  lemma UnsignedDown()
    ensures ParseUnsignedReal("25E-1") == Some(2.5)
  {
    var t := "25E-1";
    ExponentMarkAt(t, 2);
    assert t[..2] == "25" && t[3..] == "-1";
    assert IndexOf("25", '.') == 2;
    assert "25"[..2] == "25";
    assert DigitsValue("25") == 25;
    assert ParseMantissa("25") == Some(25.0);
    assert "-1"[1..] == "1";
    assert ParseSigned("-1") == Some(-1);
    assert Pow10(1) == 10;
  }

  /** `float("1e")` raises: the exponent needs digits. */
  lemma ExponentMissing()
    ensures ParseFloat("1e") == None
  {
    var t := "1e";
    StripNoSpace(t);
    assert IndexOf(t, 'e') == 1;
    assert t[2..] == "";
  }

  /** `float("-Infinity")` is negative infinity. */
  lemma InfinityWord()
    ensures ParseFloat("-Infinity") == Some(Infinite(true))
  {
    var t := "-Infinity";
    assert NoSpace(t) && t[0] == '-';
    StripNoSpace(t);
    assert t[1..] == "Infinity";
    InfinityLowered();
  }

  /** "Infinity" in lower case is the word `float` reads as infinity. */
  lemma InfinityLowered()
    ensures NonFiniteWord("Infinity") && Lower("Infinity") != "nan"
  {
    assert Lower("Infinity") == "infinity";
  }

  /** `float("inf")` is positive infinity and `float("nan")` is nan. */
  lemma LowerCaseWords()
    ensures ParseFloat("inf") == Some(Infinite(false))
    ensures ParseFloat("nan") == Some(NotANumber)
  {
    StripNoSpace("inf");
    assert Lower("inf") == "inf";
    StripNoSpace("nan");
    assert Lower("nan") == "nan";
  }

  /** `float("NaN")` is nan. */
  lemma NanWord()
    ensures ParseFloat("NaN") == Some(NotANumber)
  {
    var t := "NaN";
    StripNoSpace(t);
    assert Lower(t) == "nan";
  }

  /** `int(x)` for a float: truncation toward zero. */
  function TruncReal(x: real): (r: int)
    ensures 0.0 <= x ==> r as real <= x < r as real + 1.0
    ensures x < 0.0 ==> r as real - 1.0 < x <= r as real
  {
    if x >= 0.0 then x.Floor else -((-x).Floor)
  }

  // ---------------------------------------------------------------------
  // File names

  /** The last component of a '/'-separated path. */
  function BaseName(path: string): string
  {
    path[LastIndexOf(path, '/') + 1..]
  }

  /** The path without its trailing '/' characters, which `pathlib` ignores. */
  function DropTrailingSlashes(path: string): (r: string)
    ensures |r| <= |path| && r == path[..|r|]
    ensures r == [] || r[|r| - 1] != '/'
    ensures forall j :: |r| <= j < |path| ==> path[j] == '/'
  {
    if path != [] && path[|path| - 1] == '/' then DropTrailingSlashes(path[..|path| - 1]) else path
  }

  /**
   * `Path(path).name`: the last component once `pathlib` has dropped empty
   * and "." components, or "" when none is left. ".." is kept as it is.
   */
  function PathName(path: string): (r: string)
    ensures '/' !in r && r != "." && |r| <= |path|
    decreases |path|
  {
    var p := DropTrailingSlashes(path);
    var name := BaseName(p);
    BaseNameShape(p);
    if name == "." then PathName(p[..|p| - 1]) else name
  }

  /** `Path(path).stem`: the name without its final suffix. */
  function Stem(path: string): string
  {
    var name := PathName(path);
    var i := LastIndexOf(name, '.');
    if 0 < i < |name| - 1 then name[..i] else name
  }

  /** The base name is the text after the last '/'. */
  lemma BaseNameShape(path: string)
    ensures '/' !in BaseName(path)
    ensures |BaseName(path)| <= |path| && BaseName(path) == path[|path| - |BaseName(path)|..]
  {
    var i := LastIndexOf(path, '/');
    assert forall j :: i + 1 <= j < |path| ==> path[j] != '/';
  }

  /** A trailing '/' does not change the name: `Path("dir/").name` is "dir". */
  lemma PathNameIgnoresTrailingSlash(path: string)
    ensures PathName(path + "/") == PathName(path)
  {
    assert (path + "/")[..|path|] == path;
    assert DropTrailingSlashes(path + "/") == DropTrailingSlashes(path);
  }

  /** A trailing "." component does not change the name: `Path("a/.").name` is "a". */
  lemma PathNameIgnoresDot(path: string)
    ensures PathName(path + "/.") == PathName(path)
  {
    var q := path + "/.";
    assert DropTrailingSlashes(q) == q;
    assert LastIndexOf(q, '/') == |path|;
    assert BaseName(q) == ".";
    assert q[..|q| - 1] == path + "/";
    PathNameIgnoresTrailingSlash(path);
  }

  /** A last component other than "" and "." is the name, whatever comes before it. */
  lemma PathNameOfComponent(dir: string, name: string)
    requires name != "" && name != "." && '/' !in name
    ensures PathName(dir + "/" + name) == name
  {
    var q := dir + "/" + name;
    assert q[|q| - 1] == name[|name| - 1];
    assert DropTrailingSlashes(q) == q;
    assert q[|dir|] == '/';
    assert forall j :: |dir| < j < |q| ==> q[j] == name[j - |dir| - 1] && q[j] != '/';
    assert LastIndexOf(q, '/') == |dir|;
    assert BaseName(q) == name;
  }

  /** Without a trailing '/' or "." component, the name is the base name. */
  lemma PathNameIsBaseName(path: string)
    requires path != [] && path[|path| - 1] != '/' && BaseName(path) != "."
    ensures PathName(path) == BaseName(path)
  {
  }

  /**
   * The stem is a prefix of the name; when it is shorter, it is non-empty, a
   * '.' follows it, and no '.' comes after that one, nor is that '.' the last
   * character.
   */
  lemma StemShape(path: string)
    ensures var name, r := PathName(path), Stem(path);
      |r| <= |name| && r == name[..|r|] &&
      (|r| < |name| ==> 0 < |r| < |name| - 1 && name[|r|] == '.' && '.' !in name[|r| + 1..])
  {
    var name := PathName(path);
    var i := LastIndexOf(name, '.');
    assert forall j :: i + 1 <= j < |name| ==> name[j] != '.';
  }

  /** A trailing '/' does not change the stem: "dir/ep.mp3/" has the stem "ep". */
  lemma StemIgnoresTrailingSlash(path: string)
    ensures Stem(path + "/") == Stem(path)
  {
    PathNameIgnoresTrailingSlash(path);
  }
}
