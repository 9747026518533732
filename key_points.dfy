/**
 * Post-processing of the text a language model returns for the key points
 * and the highlights of an episode: `BaseSummarizer.parse_key_points` and
 * `parse_highlights`, the identical inline copies in the LangChain
 * summarizer, and the spaCy summarizer's stricter key-point parser, which
 * insists on a '.' or ')' after the number.
 *
 * The key points are a Python dict from the number (as text) to the point;
 * it is modelled as a `Json.Dict` of `Str` values, so insertion order and
 * the in-place overwrite of a repeated number are kept.
 */
module KeyPoints {
  import opened Wrappers
  import opened Json
  import opened Strings

  // ---------------------------------------------------------------------
  // The numbered-line pattern

  /** End of the run of ASCII digits that starts at `i`. */
  function DigitEnd(s: string, i: nat): (r: nat)
    requires i <= |s|
    ensures i <= r <= |s|
    ensures forall k :: i <= k < r ==> IsDigit(s[k])
    ensures r == |s| || !IsDigit(s[r])
    decreases |s| - i
  {
    if i < |s| && IsDigit(s[i]) then DigitEnd(s, i + 1) else i
  }

  predicate IsDelimiter(c: char) { c == '.' || c == ')' }

  /**
   * `re.match(r'^(\d+)[\.\)]?\s+(.+)$', line)` when `strict` is false and
   * `re.match(r'^(\d+)[\.\)]\s+(.+)$', line)` when it is true, on a line
   * without a newline: the two groups (number, point text) when the line
   * matches. The digit run and the whitespace run are both maximal, except
   * that a line ending in whitespace leaves its last character to `(.+)`.
   */
  function MatchNumbered(line: string, strict: bool): (r: Option<(string, string)>)
    ensures r.Some? ==> r.value.0 != [] && AllDigits(r.value.0) && StartsWith(line, r.value.0)
    ensures r.Some? ==> r.value.1 != [] && EndsWith(line, r.value.1)
    ensures r.Some? ==> |r.value.0| + |r.value.1| < |line|
    ensures r.Some? && strict ==> IsDelimiter(line[|r.value.0|])
  {
    var n := DigitEnd(line, 0);
    var delimited := n < |line| && IsDelimiter(line[n]);
    var d := if delimited then n + 1 else n;
    var w := SkipSpace(line, d);
    if n == 0 || (strict && !delimited) || w == d then None
    else if w < |line| then Some((line[..n], line[w..]))
    else if w - d >= 2 then Some((line[..n], line[w - 1..]))
    else None
  }

  /**
   * The pattern read the other way round: a number, an optional delimiter
   * (required when `strict`), a whitespace run and a text that does not start
   * with whitespace always match, with exactly that number and text.
   */
  lemma MatchComposed(num: string, delim: string, ws: string, text: string, strict: bool)
    requires num != [] && AllDigits(num)
    requires delim == "" || delim == "." || delim == ")"
    requires strict ==> delim != ""
    requires ws != [] && forall k :: 0 <= k < |ws| ==> IsSpace(ws[k])
    requires text != [] && !IsSpace(text[0])
    ensures MatchNumbered(num + delim + ws + text, strict) == Some((num, text))
  {
    ComposedParts(num, delim, ws, text);
  }

  /** Where the pieces of a composed line sit: the digit run, the delimiter, the whitespace run, the text. */
  lemma ComposedParts(num: string, delim: string, ws: string, text: string)
    requires num != [] && AllDigits(num)
    requires delim == "" || delim == "." || delim == ")"
    requires ws != [] && forall k :: 0 <= k < |ws| ==> IsSpace(ws[k])
    requires text != [] && !IsSpace(text[0])
    ensures var line, n := num + delim + ws + text, |num|;
      DigitEnd(line, 0) == n && n < |line| && (IsDelimiter(line[n]) <==> delim != "") &&
      SkipSpace(line, n + |delim|) == n + |delim| + |ws| && n + |delim| + |ws| < |line| &&
      line[..n] == num && line[n + |delim| + |ws|..] == text
  {
    var line := num + delim + ws + text;
    var n := |num|;
    assert line[n..] == delim + ws + text;
    DigitEndAt(line, 0, n);
    var d := n + |delim|;
    assert line[d..] == ws + text;
    SkipSpaceAt(line, d, d + |ws|);
    assert line[..n] == num;
    assert line[d + |ws|..] == text;
  }

  lemma DigitEndAt(s: string, i: nat, j: nat)
    requires i <= j <= |s|
    requires forall k :: i <= k < j ==> IsDigit(s[k])
    requires j == |s| || !IsDigit(s[j])
    ensures DigitEnd(s, i) == j
    decreases j - i
  {
    if i < j {
      DigitEndAt(s, i + 1, j);
    }
  }

  lemma SkipSpaceAt(s: string, i: nat, j: nat)
    requires i <= j <= |s|
    requires forall k :: i <= k < j ==> IsSpace(s[k])
    requires j == |s| || !IsSpace(s[j])
    ensures SkipSpace(s, i) == j
    decreases j - i
  {
    if i < j {
      SkipSpaceAt(s, i + 1, j);
    }
  }

  /**
   * The spaCy parser accepts a subset of the lines the base parser accepts,
   * with the same groups; what it refuses on top is a number followed
   * directly by whitespace.
   */
  lemma StrictMatchIsLenientMatch(line: string)
    ensures MatchNumbered(line, true).Some? ==>
      MatchNumbered(line, false) == MatchNumbered(line, true)
    ensures MatchNumbered(line, false).Some? && MatchNumbered(line, true).None? ==>
      IsSpace(line[|MatchNumbered(line, false).value.0|])
  {
  }

  /** "1 Intro" is a key point for the base parser only. */
  lemma UndelimitedNumberExample(line: string)
    requires line == "1 Intro"
    ensures MatchNumbered(line, false) == Some(("1", "Intro"))
    ensures MatchNumbered(line, true) == None
  {
    assert line == "1" + "" + " " + "Intro";
    MatchComposed("1", "", " ", "Intro", false);
    assert DigitEnd(line, 0) == 1 by {
      DigitEndAt(line, 0, 1);
    }
  }

  // ---------------------------------------------------------------------
  // Lines

  /** `text.split('\n')`. */
  function Lines(text: string): (r: seq<string>)
    ensures |r| >= 1
  {
    SplitOn(text, '\n')
  }

  /** `[f(x) for x in xs if f(x)]`. */
  function NonEmptyImages(xs: seq<string>, f: string -> string): (r: seq<string>)
    ensures |r| <= |xs|
    ensures forall k :: 0 <= k < |r| ==> r[k] != []
  {
    if xs == [] then []
    else
      var y := f(xs[0]);
      (if y != [] then [y] else []) + NonEmptyImages(xs[1..], f)
  }

  /** `[l.strip() for l in lines if l.strip()]`. */
  function NonBlank(lines: seq<string>): (r: seq<string>)
    ensures |r| <= |lines|
    ensures forall k :: 0 <= k < |r| ==> r[k] != []
  {
    NonEmptyImages(lines, Strip)
  }

  lemma {:induction false} NonEmptyImagesMembers(xs: seq<string>, f: string -> string, x: string)
    ensures x in NonEmptyImages(xs, f) <==>
      x != [] && exists i :: 0 <= i < |xs| && f(xs[i]) == x
  {
    if xs != [] {
      NonEmptyImagesMembers(xs[1..], f, x);
      if exists i :: 0 <= i < |xs| && f(xs[i]) == x {
        var i :| 0 <= i < |xs| && f(xs[i]) == x;
        if i > 0 {
          assert f(xs[1..][i - 1]) == x;
        }
      }
      if exists i :: 0 <= i < |xs[1..]| && f(xs[1..][i]) == x {
        var i :| 0 <= i < |xs[1..]| && f(xs[1..][i]) == x;
        assert f(xs[i + 1]) == x;
      }
    }
  }

  lemma {:induction false} NonEmptyImagesEmpty(xs: seq<string>, f: string -> string)
    ensures NonEmptyImages(xs, f) == [] <==> forall i :: 0 <= i < |xs| ==> f(xs[i]) == []
  {
    if xs != [] {
      NonEmptyImagesEmpty(xs[1..], f);
      if forall i :: 0 <= i < |xs[1..]| ==> f(xs[1..][i]) == [] {
        forall i | 0 < i < |xs|
          ensures f(xs[i]) == []
        {
          assert xs[i] == xs[1..][i - 1];
        }
      }
    }
  }

  /** The non-blank lines are exactly the stripped lines that are not empty, each already stripped. */
  lemma NonBlankMembers(lines: seq<string>, x: string)
    ensures x in NonBlank(lines) <==>
      x != [] && exists i :: 0 <= i < |lines| && Strip(lines[i]) == x
    ensures x in NonBlank(lines) ==> Strip(x) == x
  {
    NonEmptyImagesMembers(lines, Strip, x);
    if x in NonBlank(lines) {
      var i :| 0 <= i < |lines| && Strip(lines[i]) == x;
      StripStripped(lines[i]);
    }
  }

  lemma NonBlankEmpty(lines: seq<string>)
    ensures NonBlank(lines) == [] <==> forall i :: 0 <= i < |lines| ==> Strip(lines[i]) == []
  {
    NonEmptyImagesEmpty(lines, Strip);
  }

  // ---------------------------------------------------------------------
  // Key points

  /** What one raw line contributes: nothing when blank, else the match of its stripped text. */
  function PointOf(line: string, strict: bool): (r: Option<(string, string)>)
    ensures r.Some? ==> Strip(line) != []
  {
    var s := Strip(line);
    if s == [] then None else MatchNumbered(s, strict)
  }

  predicate Numbers(p: Option<(string, string)>, num: string)
  {
    p.Some? && p.value.0 == num
  }

  /**
   * The dict the first loop builds, for any way `point` of reading a line:
   * each line read as (number, text) stores the text under the number.
   */
  function Numbered(lines: seq<string>, point: string -> Option<(string, string)>): (d: Dict)
  {
    if lines == [] then []
    else
      var d := Numbered(lines[..|lines| - 1], point);
      match point(lines[|lines| - 1])
      case Some(g) => Put(d, g.0, Str(g.1))
      case None => d
  }

  function Reader(strict: bool): string -> Option<(string, string)>
  {
    line => PointOf(line, strict)
  }

  /** The fallback dict: the non-blank lines keyed by their 1-based position. */
  function Enumerated(points: seq<string>): Dict
  {
    if points == [] then []
    else Put(Enumerated(points[..|points| - 1]), NatToString(|points|), Str(points[|points| - 1]))
  }

  /** `d` holds the points in order, the i-th under the number i + 1. */
  predicate NumberedInOrder(d: Dict, points: seq<string>)
  {
    |d| == |points| && forall i :: 0 <= i < |points| ==> d[i] == (NatToString(i + 1), Str(points[i]))
  }

  /** The fallback dict numbers the points "1", "2", ... in order, one key per point. */
  lemma {:induction false} EnumeratedShape(points: seq<string>)
    ensures NumberedInOrder(Enumerated(points), points)
  {
    if points != [] {
      EnumeratedShape(points[..|points| - 1]);
      EnumeratedStep(points);
    }
  }

  /** Numbering one more line appends it under the next number. */
  lemma EnumeratedStep(points: seq<string>)
    requires points != []
    requires NumberedInOrder(Enumerated(points[..|points| - 1]), points[..|points| - 1])
    ensures NumberedInOrder(Enumerated(points), points)
  {
    var init, last := points[..|points| - 1], points[|points| - 1];
    var d := Enumerated(init);
    NextNumberFresh(d);
    PutFresh(d, NatToString(|points|), Str(last));
    assert Enumerated(points) == d + [(NatToString(|points|), Str(last))];
    NumberedSnoc(d, points);
  }

  /** Appending the next number and point to an in-order dict keeps it in order. */
  lemma NumberedSnoc(d: Dict, points: seq<string>)
    requires points != []
    requires NumberedInOrder(d, points[..|points| - 1])
    ensures NumberedInOrder(d + [(NatToString(|points|), Str(points[|points| - 1]))], points)
  {
    var init := points[..|points| - 1];
    var e := d + [(NatToString(|points|), Str(points[|points| - 1]))];
    forall i | 0 <= i < |d|
      ensures e[i] == (NatToString(i + 1), Str(points[i]))
    {
      assert e[i] == d[i] && init[i] == points[i];
    }
  }

  /** A dict keyed "1" .. "n" in order does not yet hold the key "n+1". */
  lemma NextNumberFresh(d: Dict)
    requires forall i :: 0 <= i < |d| ==> d[i].0 == NatToString(i + 1)
    ensures !HasKey(d, NatToString(|d| + 1))
  {
    var k := NatToString(|d| + 1);
    HasKeyAt(d, k);
    forall i | 0 <= i < |d|
      ensures d[i].0 != k
    {
      assert DigitsValue(d[i].0) == i + 1;
    }
  }

  /** `parse_key_points` as a value: the numbered lines, or else every non-blank line numbered. */
  function KeyPoints(text: string, strict: bool): (d: Dict)
  {
    var numbered := Numbered(Lines(text), Reader(strict));
    if numbered != [] then numbered else Enumerated(NonBlank(Lines(text)))
  }

  /** `parse_key_points`: the line loop, then the fallback numbering loop. */
  method ParseKeyPoints(text: string, strict: bool) returns (points: Dict)
    ensures points == KeyPoints(text, strict)
  {
    var lines := Lines(text);
    points := [];
    for i := 0 to |lines|
      invariant points == Numbered(lines[..i], Reader(strict))
    {
      NumberedPrefix(lines, i, Reader(strict));
      var line := Strip(lines[i]);
      if line != [] {
        var m := MatchNumbered(line, strict);
        if m.Some? {
          points := Put(points, m.value.0, Str(m.value.1));
        }
      }
    }
    assert lines[..|lines|] == lines;
    if points == [] {
      var list := NonBlank(lines);
      for i := 0 to |list|
        invariant points == Enumerated(list[..i])
      {
        EnumeratedPrefix(list, i);
        points := Put(points, NatToString(i + 1), Str(list[i]));
      }
      assert list[..|list|] == list;
    }
  }

  /** Reading line `i` after the lines before it. */
  lemma NumberedPrefix(lines: seq<string>, i: nat, point: string -> Option<(string, string)>)
    requires i < |lines|
    ensures Numbered(lines[..i + 1], point) ==
      match point(lines[i])
      case Some(g) => Put(Numbered(lines[..i], point), g.0, Str(g.1))
      case None => Numbered(lines[..i], point)
  {
    assert lines[..i + 1][..i] == lines[..i];
  }

  /** Numbering point `i` after the points before it. */
  lemma EnumeratedPrefix(points: seq<string>, i: nat)
    requires i < |points|
    ensures Enumerated(points[..i + 1]) == Put(Enumerated(points[..i]), NatToString(i + 1), Str(points[i]))
  {
    assert points[..i + 1][..i] == points[..i];
  }

  /** A number is a key iff some line carries it. */
  lemma {:induction false} NumberedKeys(lines: seq<string>, point: string -> Option<(string, string)>, num: string)
    ensures HasKey(Numbered(lines, point), num) <==>
      exists i :: 0 <= i < |lines| && Numbers(point(lines[i]), num)
  {
    if lines != [] {
      var init := lines[..|lines| - 1];
      NumberedKeys(init, point, num);
      if exists i :: 0 <= i < |init| && Numbers(point(init[i]), num) {
        var i :| 0 <= i < |init| && Numbers(point(init[i]), num);
        assert lines[i] == init[i];
      }
      if exists i :: 0 <= i < |lines| && Numbers(point(lines[i]), num) {
        var i :| 0 <= i < |lines| && Numbers(point(lines[i]), num);
        if i < |init| {
          assert lines[i] == init[i];
        } else {
          assert Get(Numbered(lines, point), num).Some?;
        }
      }
    }
  }

  /** A repeated number keeps the text of its last line. */
  lemma {:induction false} NumberedLastWins(lines: seq<string>, point: string -> Option<(string, string)>,
                                            i: nat, num: string, text: string)
    requires i < |lines|
    requires point(lines[i]) == Some((num, text))
    requires forall j :: i < j < |lines| ==> !Numbers(point(lines[j]), num)
    ensures Get(Numbered(lines, point), num) == Some(Str(text))
  {
    var init := lines[..|lines| - 1];
    if i < |lines| - 1 {
      forall j | i < j < |init|
        ensures !Numbers(point(init[j]), num)
      {
        assert init[j] == lines[j];
      }
      assert init[i] == lines[i];
      NumberedLastWins(init, point, i, num, text);
    }
  }

  /** The first loop finds nothing iff no line is a numbered point. */
  lemma {:induction false} NumberedEmpty(lines: seq<string>, point: string -> Option<(string, string)>)
    ensures Numbered(lines, point) == [] <==>
      forall i :: 0 <= i < |lines| ==> point(lines[i]).None?
  {
    if lines != [] {
      var init := lines[..|lines| - 1];
      NumberedEmpty(init, point);
      var last := point(lines[|lines| - 1]);
      if last.Some? {
        assert Get(Numbered(lines, point), last.value.0).Some?;
      } else if Numbered(init, point) != [] {
        var i :| 0 <= i < |init| && point(init[i]).Some?;
        assert lines[i] == init[i];
      } else {
        forall i | 0 <= i < |lines|
          ensures point(lines[i]).None?
        {
          if i < |init| {
            assert lines[i] == init[i];
          }
        }
      }
    }
  }

  /** With no numbered line, every non-blank line is keyed by its 1-based position. */
  lemma FallbackNumbering(text: string, strict: bool)
    requires forall i :: 0 <= i < |Lines(text)| ==> PointOf(Lines(text)[i], strict).None?
    ensures NumberedInOrder(KeyPoints(text, strict), NonBlank(Lines(text)))
  {
    NumberedEmpty(Lines(text), Reader(strict));
    EnumeratedShape(NonBlank(Lines(text)));
  }

  /** Numbered lines win: a number is a key iff a line carries it, holding its last line's text. */
  lemma NumberedPoints(text: string, strict: bool, i: nat, num: string, point: string)
    requires i < |Lines(text)| && PointOf(Lines(text)[i], strict) == Some((num, point))
    requires forall j :: i < j < |Lines(text)| ==> !Numbers(PointOf(Lines(text)[j], strict), num)
    ensures Get(KeyPoints(text, strict), num) == Some(Str(point))
    ensures forall k :: HasKey(KeyPoints(text, strict), k) <==>
      exists j :: 0 <= j < |Lines(text)| && Numbers(PointOf(Lines(text)[j], strict), k)
  {
    var lines := Lines(text);
    var read := Reader(strict);
    NumberedLastWins(lines, read, i, num, point);
    forall k
      ensures HasKey(KeyPoints(text, strict), k) <==>
        exists j :: 0 <= j < |lines| && Numbers(PointOf(lines[j], strict), k)
    {
      NumberedKeys(lines, read, k);
    }
  }

  /** The result is non-empty iff the text has a non-blank line. */
  lemma KeyPointsNonEmpty(text: string, strict: bool)
    ensures KeyPoints(text, strict) != [] <==>
      exists i :: 0 <= i < |Lines(text)| && Strip(Lines(text)[i]) != []
  {
    var lines := Lines(text);
    NumberedEmpty(lines, Reader(strict));
    NonBlankEmpty(lines);
    EnumeratedShape(NonBlank(lines));
    if Numbered(lines, Reader(strict)) != [] {
      var i :| 0 <= i < |lines| && Reader(strict)(lines[i]).Some?;
      assert Strip(lines[i]) != [];
    }
  }

  // ---------------------------------------------------------------------
  // Highlights

  /** `parse_highlights`: the non-blank lines, stripped, in their order. */
  function Highlights(text: string): (r: seq<string>)
    ensures forall k :: 0 <= k < |r| ==> r[k] != [] && Strip(r[k]) == r[k]
    ensures forall x :: x in r <==> x != [] && exists i :: 0 <= i < |Lines(text)| && Strip(Lines(text)[i]) == x
  {
    var r := NonBlank(Lines(text));
    forall x
      ensures x in r <==> x != [] && exists i :: 0 <= i < |Lines(text)| && Strip(Lines(text)[i]) == x
      ensures x in r ==> Strip(x) == x
    {
      NonBlankMembers(Lines(text), x);
    }
    assert forall k :: 0 <= k < |r| ==> r[k] in r;
    r
  }
}
