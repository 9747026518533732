/**
 * `services/email_content_service.py`: the Markdown body of the summary
 * digest e-mail. `json.loads` and Python's `str()` of a non-string title are
 * inputs (`loads`, `show`); the regular expressions are written out as
 * scanners over the string, with `\s` and `\d` read as ASCII classes.
 */
module EmailContent {
  import opened Wrappers
  import opened Json
  import opened Strings

  // ---------------------------------------------------------------------
  // sanitize_point_text

  /** `[\-\*\•]`: the bullet characters. */
  predicate Bullet(c: char) { c == '-' || c == '*' || c == '\U{2022}' }

  /** `[\d\-\*\•]`: a character of a numbering or bullet run. */
  predicate MarkChar(c: char) { IsDigit(c) || Bullet(c) }

  /** `[\.\)]`: what ends a number. */
  predicate Closer(c: char) { c == '.' || c == ')' }

  /** One past the run of marker characters that starts at `i`. */
  function MarkRun(s: string, i: nat): (r: nat)
    requires i <= |s|
    ensures i <= r <= |s|
    ensures forall k :: i <= k < r ==> MarkChar(s[k])
    ensures r == |s| || !MarkChar(s[r])
    decreases |s| - i
  {
    if i < |s| && MarkChar(s[i]) then MarkRun(s, i + 1) else i
  }

  /**
   * How many leading characters `^(\s*[\d\-\*\•]+\s*[\.\)]\s*|\s*[\-\*\•]\s*)`
   * matches, 0 when it does not match. The greedy runs never need to back
   * off: a shorter run is followed by a character the next item refuses.
   */
  function MarkerLen(t: string): (n: nat)
    ensures n <= |t|
    ensures forall k :: 0 <= k < n ==> IsSpace(t[k]) || MarkChar(t[k]) || Closer(t[k])
    ensures forall i, j :: 0 <= i < j < n && Closer(t[i]) ==> !Closer(t[j])
    ensures 0 < n < |t| ==> !IsSpace(t[n])
  {
    var a := SkipSpace(t, 0);
    var b := MarkRun(t, a);
    var c := SkipSpace(t, b);
    if a < b && c < |t| && Closer(t[c]) then SkipSpace(t, c + 1)
    else if a < |t| && Bullet(t[a]) then SkipSpace(t, a + 1)
    else 0
  }

  /**
   * `sanitize_point_text`: the stripped text without its leading marker. What
   * is removed is one marker: spaces, marker characters and at most one `.`
   * or `)`.
   */
  function Sanitize(text: string): (r: string)
    ensures var t := Strip(text);
      |r| <= |t| && r == t[|t| - |r|..] &&
      (forall k :: 0 <= k < |t| - |r| ==> IsSpace(t[k]) || MarkChar(t[k]) || Closer(t[k])) &&
      (forall i, j :: 0 <= i < j < |t| - |r| && Closer(t[i]) ==> !Closer(t[j]))
    ensures r == [] || !IsSpace(r[0])
    ensures Strip(text) == [] || !MarkChar(Strip(text)[0]) ==> r == Strip(text)
    ensures Strip(text) != [] && Bullet(Strip(text)[0]) ==> |r| < |Strip(text)|
  {
    var t := Strip(text);
    t[MarkerLen(t)..]
  }

  /** Only one marker goes: a second numbering survives the first pass. */
  lemma SecondNumberSurvives(text: string)
    requires text == "1. 2. Intro"
    ensures Sanitize(text) == "2. Intro"
  {
    StripNoSpaceEnds(text);
    NumberedMarkerLen(text);
    assert text[3..] == "2. Intro";
  }

  /** The marker of "1. 2. Intro" is "1. ": the first number, its dot, one space. */
  lemma NumberedMarkerLen(t: string)
    requires t == "1. 2. Intro"
    ensures MarkerLen(t) == 3
  {
    assert SkipSpace(t, 0) == 0;
    assert MarkRun(t, 0) == 1 by { assert MarkRun(t, 1) == 1; }
    assert SkipSpace(t, 1) == 1;
    assert SkipSpace(t, 2) == 3 by { assert SkipSpace(t, 3) == 3; }
  }

  /** The integer part of a leading decimal number reads as numbering. */
  lemma DecimalLosesIntegerPart(text: string)
    requires text == "1.5 million"
    ensures Sanitize(text) == "5 million"
  {
    assert Strip(text) == text by { StripNoSpaceEnds(text); }
    assert SkipSpace(text, 0) == 0;
    assert MarkRun(text, 0) == 1 by { assert MarkRun(text, 1) == 1; }
    assert SkipSpace(text, 1) == 1;
    assert SkipSpace(text, 2) == 2;
  }

  /** Strip leaves a text alone whose first and last characters are not spaces. */
  lemma StripNoSpaceEnds(s: string)
    requires s != [] && !IsSpace(s[0]) && !IsSpace(s[|s| - 1])
    ensures Strip(s) == s
  {
    assert SkipSpace(s, 0) == 0;
    assert TrimEnd(s, |s|) == |s|;
    assert s[0..|s|] == s;
  }

  // ---------------------------------------------------------------------
  // strip_markdown_formatting

  /**
   * `(.*?)` followed by `d`: the leftmost occurrence of `d` at or after `k`
   * that no newline precedes.
   */
  function CloseAt(s: string, d: string, k: nat): (r: Option<nat>)
    requires d != [] && k <= |s|
    ensures r.Some? ==> k <= r.value && r.value + |d| <= |s| && s[r.value..r.value + |d|] == d
    decreases |s| - k
  {
    if k + |d| > |s| then None
    else if s[k..k + |d|] == d then Some(k)
    else if s[k] == '\n' then None
    else CloseAt(s, d, k + 1)
  }

  /**
   * `re.sub(r"(d1|d2)(.*?)\1", r"\2", s)`: every delimited span, leftmost
   * first, loses its delimiters; scanning resumes after the span.
   */
  function Unwrap(s: string, d1: string, d2: string): (r: string)
    requires d1 != [] && d2 != []
    ensures |r| <= |s|
    ensures (forall i :: 0 <= i < |s| ==> s[i] != d1[0] && s[i] != d2[0]) ==> r == s
    decreases |s|
  {
    if s == [] then []
    else if StartsWith(s, d1) && CloseAt(s, d1, |d1|).Some? then
      var j := CloseAt(s, d1, |d1|).value;
      s[|d1|..j] + Unwrap(s[j + |d1|..], d1, d2)
    else if StartsWith(s, d2) && CloseAt(s, d2, |d2|).Some? then
      var j := CloseAt(s, d2, |d2|).value;
      s[|d2|..j] + Unwrap(s[j + |d2|..], d1, d2)
    else
      [s[0]] + Unwrap(s[1..], d1, d2)
  }

  /** `re.sub(r"`([^`]+)`", r"\1", s)`. */
  function Uncode(s: string): (r: string)
    ensures |r| <= |s|
    ensures (forall i :: 0 <= i < |s| ==> s[i] != '`') ==> r == s
    decreases |s|
  {
    if s == [] then []
    else if s[0] == '`' && 0 < IndexOf(s[1..], '`') < |s| - 1 then
      var j := 1 + IndexOf(s[1..], '`');
      s[1..j] + Uncode(s[j + 1..])
    else
      [s[0]] + Uncode(s[1..])
  }

  /**
   * Where `\[([^\]]+)\]\([^)]+\)` matches at the start of `s`: the index of
   * the `]` and of the closing `)`.
   */
  function LinkAt(s: string): (r: Option<(nat, nat)>)
    ensures r.Some? ==> 1 < r.value.0 && r.value.0 + 2 < r.value.1 < |s|
  {
    if s == [] || s[0] != '[' then None
    else
      var j := 1 + IndexOf(s[1..], ']');
      if j == 1 || j + 1 >= |s| || s[j + 1] != '(' then None
      else
        var k := j + 2 + IndexOf(s[j + 2..], ')');
        if k == j + 2 || k >= |s| then None else Some((j, k))
  }

  /** `re.sub(r"\[([^\]]+)\]\([^)]+\)", r"\1", s)`. */
  function Unlink(s: string): (r: string)
    ensures |r| <= |s|
    ensures (forall i :: 0 <= i < |s| ==> s[i] != '[') ==> r == s
    decreases |s|
  {
    if s == [] then []
    else if LinkAt(s).Some? then
      var jk := LinkAt(s).value;
      s[1..jk.0] + Unlink(s[jk.1 + 1..])
    else
      [s[0]] + Unlink(s[1..])
  }

  /** A character Markdown formatting starts with. */
  predicate Markup(c: char) { c == '*' || c == '_' || c == '`' || c == '[' }

  /**
   * `strip_markdown_formatting`: bold, italics, inline code and links, in that
   * order. The result is never longer than the stripped input, and text
   * without markup characters is only stripped.
   */
  function StripMarkdown(text: string): (r: string)
    ensures |r| <= |Strip(text)|
    ensures (forall i :: 0 <= i < |Strip(text)| ==> !Markup(Strip(text)[i])) ==> r == Strip(text)
  {
    Unlink(Uncode(Unwrap(Unwrap(Strip(text), "**", "__"), "*", "_")))
  }

  /** Bold goes before italics, so `**x**` loses both stars. */
  lemma BoldUnwrapped(s: string)
    requires s == "**x**"
    ensures Unwrap(s, "**", "__") == "x"
  {
    assert StartsWith(s, "**");
    assert CloseAt(s, "**", 3) == Some(3);
    assert s[2..4][0] == 'x';
    assert CloseAt(s, "**", 2) == Some(3);
    assert s[5..] == [];
  }

  // ---------------------------------------------------------------------
  // format_points

  /** One point after `sanitize_point_text` and `strip_markdown_formatting`. */
  function Clean(point: string): string
  {
    StripMarkdown(Sanitize(point))
  }

  /** The lines `format_points` returns, `clean` being `Clean`. */
  function Formatted(points: seq<string>, clean: string -> string): (r: seq<string>)
  {
    if points == [] then []
    else
      var f := Formatted(points[..|points| - 1], clean);
      var c := clean(points[|points| - 1]);
      if c != [] then f + ["- " + c] else f
  }

  /** No more lines than points, and every line is "- " and some text. */
  lemma {:induction false} FormattedShape(points: seq<string>, clean: string -> string)
    ensures var r := Formatted(points, clean);
      |r| <= |points| && forall k :: 0 <= k < |r| ==> |r[k]| > 2 && r[k][..2] == "- "
  {
    if points != [] {
      FormattedShape(points[..|points| - 1], clean);
    }
  }

  /** Points are formatted one by one, so their order is kept. */
  lemma {:induction false} FormattedAppend(a: seq<string>, b: seq<string>, clean: string -> string)
    decreases |b|
    ensures Formatted(a + b, clean) == Formatted(a, clean) + Formatted(b, clean)
  {
    if b == [] {
      assert a + b == a;
    } else {
      var ab := a + b;
      assert ab[..|ab| - 1] == a + b[..|b| - 1];
      assert ab[|ab| - 1] == b[|b| - 1];
      FormattedAppend(a, b[..|b| - 1], clean);
    }
  }

  /** A line is in the output iff it is "- " and a point that does not clean to "". */
  lemma {:induction false} FormattedMembers(points: seq<string>, line: string, clean: string -> string)
    ensures line in Formatted(points, clean) <==>
      exists i :: 0 <= i < |points| && clean(points[i]) != [] && line == "- " + clean(points[i])
  {
    if points != [] {
      var init := points[..|points| - 1];
      FormattedMembers(init, line, clean);
      if line in Formatted(points, clean) && line !in Formatted(init, clean) {
        assert clean(points[|points| - 1]) != [] && line == "- " + clean(points[|points| - 1]);
      }
      if exists i :: 0 <= i < |points| && clean(points[i]) != [] && line == "- " + clean(points[i]) {
        var i :| 0 <= i < |points| && clean(points[i]) != [] && line == "- " + clean(points[i]);
        if i < |init| {
          assert points[i] == init[i];
        }
      }
    }
  }

  /** `format_points`. */
  method FormatPoints(points: seq<string>) returns (formatted: seq<string>)
    ensures formatted == Formatted(points, Clean)
  {
    formatted := [];
    for i := 0 to |points|
      invariant formatted == Formatted(points[..i], Clean)
    {
      assert points[..i + 1][..i] == points[..i];
      var clean := Sanitize(points[i]);
      clean := StripMarkdown(clean);
      if clean != [] {
        formatted := formatted + ["- " + clean];
      }
    }
    assert points[..|points|] == points;
  }

  // ---------------------------------------------------------------------
  // parse_flexible_json

  /** `parse_flexible_json`, with `json.loads` as `loads` (`None` when it raises). */
  function ParseFlexible(raw: Value, loads: string -> Option<Value>): (r: Value)
    ensures r.List? || r.Obj?
    ensures raw.List? || raw.Obj? ==> r == raw
    ensures !raw.List? && !raw.Obj? && !raw.Str? ==> r == List([])
    ensures raw.Str? && r != List([]) ==> loads(raw.s) == Some(r)
  {
    if raw.List? || raw.Obj? then raw
    else if raw.Str? && loads(raw.s).Some? && (loads(raw.s).value.List? || loads(raw.s).value.Obj?) then
      loads(raw.s).value
    else List([])
  }

  /** Parsing a parsed value changes nothing. */
  lemma ParseFlexibleIdempotent(raw: Value, loads: string -> Option<Value>)
    ensures ParseFlexible(ParseFlexible(raw, loads), loads) == ParseFlexible(raw, loads)
  {
  }

  // ---------------------------------------------------------------------
  // format_email_content

  const Header: seq<string> := ["# Your Podcast Episode Summaries", ""]
  const KeyPointsHeading: string := "### \U{1F511} Key Points"
  const HighlightsHeading: string := "### \U{2728} Highlights"
  const FailedHeading: string := "## \U{274C} Failed Summaries"

  /** `f"{v}"`: a string as it is; other values through Python's `str`. */
  function Show(v: Value, show: Value -> string): (r: string)
    ensures v.Str? ==> r == v.s
  {
    if v.Str? then v.s else show(v)
  }

  /** The message of the AttributeError `v.strip()` raises on a non-string. */
  function NoStrip(v: Value): string
  {
    "'" + TypeLabel(v) + "' object has no attribute 'strip'"
  }

  /** The points as strings, or the error `strip()` raises on the first that is not one. */
  function AsText(vs: seq<Value>): (r: Result<seq<string>>)
    ensures r.Ok? <==> forall i :: 0 <= i < |vs| ==> vs[i].Str?
    ensures r.Ok? ==> |r.value| == |vs| && forall i :: 0 <= i < |vs| ==> vs[i] == Str(r.value[i])
  {
    if vs == [] then Ok([])
    else if !vs[0].Str? then Err(NoStrip(vs[0]))
    else
      match AsText(vs[1..])
      case Err(e) => Err(e)
      case Ok(rest) => Ok([vs[0].s] + rest)
  }

  /** The values of a dict, in key order. */
  function Values(fs: seq<(string, Value)>): (r: seq<Value>)
    ensures |r| == |fs| && forall i :: 0 <= i < |fs| ==> r[i] == fs[i].1
  {
    seq(|fs|, i requires 0 <= i < |fs| => fs[i].1)
  }

  /** The key points of an item: a dict contributes its values. */
  function KeyPointValues(item: Dict, loads: string -> Option<Value>): (r: seq<Value>)
    ensures var p := ParseFlexible(GetOr(item, "key_points", List([])), loads);
      (p.Obj? ==> r == Values(p.fields)) && (p.List? ==> r == p.items)
  {
    var p := ParseFlexible(GetOr(item, "key_points", List([])), loads);
    if p.Obj? then Values(p.fields) else p.items
  }

  /** The highlights of an item: a parsed list, otherwise none. */
  function HighlightValues(item: Dict, loads: string -> Option<Value>): (r: seq<Value>)
    ensures var p := ParseFlexible(GetOr(item, "highlights", List([])), loads);
      (p.List? ==> r == p.items) && (!p.List? ==> r == [])
  {
    var p := ParseFlexible(GetOr(item, "highlights", List([])), loads);
    if p.List? then p.items else []
  }

  /** A heading, the formatted points and a blank line; nothing for no points. */
  function Section(heading: string, points: seq<string>): (r: seq<string>)
    ensures r == [] <==> points == []
    ensures r != [] ==> r[0] == heading
  {
    if points == [] then [] else [heading] + Formatted(points, Clean) + [""]
  }

  /** The title and summary lines every item starts with. */
  function ItemHead(item: Dict, show: Value -> string): seq<string>
    requires GetOr(item, "summary", Str("")).Str?
  {
    ["---", "## " + Show(GetOr(item, "title", Str("Unknown Episode")), show), "",
     Strip(GetOr(item, "summary", Str("")).s), ""]
  }

  /** The head, then the Key Points section, then the Highlights section. */
  function ItemBody(head: seq<string>, kps: seq<string>, hls: seq<string>): seq<string>
  {
    head + Section(KeyPointsHeading, kps) + Section(HighlightsHeading, hls)
  }

  lemma HeadingsDiffer()
    ensures KeyPointsHeading != HighlightsHeading
  {
    assert KeyPointsHeading[4] != HighlightsHeading[4];
  }

  /**
   * After a five-line head, the Key Points heading comes first iff there are
   * key points, and the Highlights heading follows that section iff there
   * are highlights.
   */
  lemma SectionsAfterHead(head: seq<string>, kps: seq<string>, hls: seq<string>)
    requires |head| == 5
    ensures var b := ItemBody(head, kps, hls);
      (|b| > 5 && b[5] == KeyPointsHeading) <==> kps != []
    ensures var b := ItemBody(head, kps, hls);
      var n := 5 + |Section(KeyPointsHeading, kps)|;
      (|b| > n && b[n] == HighlightsHeading) <==> hls != []
  {
    HeadingsDiffer();
    HeadingsAt(head, Section(KeyPointsHeading, kps), Section(HighlightsHeading, hls),
               KeyPointsHeading, HighlightsHeading);
  }

  /**
   * In `head + k + h`, where `k` and `h` start with different headings when
   * not empty, each heading stands where its part starts iff the part is there.
   */
  lemma HeadingsAt(head: seq<string>, k: seq<string>, h: seq<string>, x: string, y: string)
    requires x != y
    requires k == [] || k[0] == x
    requires h == [] || h[0] == y
    ensures var b := head + k + h;
      (|b| > |head| && b[|head|] == x) <==> k != []
    ensures var b := head + k + h;
      (|b| > |head| + |k| && b[|head| + |k|] == y) <==> h != []
  {
    var b := head + k + h;
    if k != [] {
      assert b[|head|] == k[0];
    } else if h != [] {
      assert b[|head|] == h[0];
    }
    if h != [] {
      assert b[|head| + |k|] == h[0];
    }
  }

  /** The lines one item contributes, or the error its formatting raises. */
  function ItemLines(item: Dict, loads: string -> Option<Value>, show: Value -> string): (r: Result<seq<string>>)
  {
    var summary := GetOr(item, "summary", Str(""));
    if !summary.Str? then Err(NoStrip(summary))
    else
      match AsText(KeyPointValues(item, loads))
      case Err(e) => Err(e)
      case Ok(kps) =>
        match AsText(HighlightValues(item, loads))
        case Err(e) => Err(e)
        case Ok(hls) =>
          Ok(ItemBody(ItemHead(item, show), kps, hls))
  }

  /** `ItemLines` with the inputs fixed. */
  function ItemLinesOf(loads: string -> Option<Value>, show: Value -> string): Dict -> Result<seq<string>>
  {
    item => ItemLines(item, loads, show)
  }

  /** The header and the blocks `block` makes of the items, in order. */
  function ContentLines(content: seq<Dict>, block: Dict -> Result<seq<string>>): (r: Result<seq<string>>)
  {
    if content == [] then Ok(Header)
    else
      match ContentLines(content[..|content| - 1], block)
      case Err(e) => Err(e)
      case Ok(ls) =>
        match block(content[|content| - 1])
        case Err(e) => Err(e)
        case Ok(b) => Ok(ls + b)
  }

  /** `- **title**: reason`. */
  function FailLine(f: (Value, string), show: Value -> string): string
  {
    "- **" + Show(f.0, show) + "**: " + f.1
  }

  function FailLines(failed: seq<(Value, string)>, show: Value -> string): (r: seq<string>)
    ensures |r| == |failed|
  {
    seq(|failed|, i requires 0 <= i < |failed| => FailLine(failed[i], show))
  }

  /** The failed-summaries section. */
  function FailedSection(failed: seq<(Value, string)>, show: Value -> string): seq<string>
  {
    if failed == [] then [] else ["---", FailedHeading, ""] + FailLines(failed, show) + [""]
  }

  /** The lines `format_email_content` joins with newlines. */
  function EmailLines(content: seq<Dict>, failed: seq<(Value, string)>,
                      loads: string -> Option<Value>, show: Value -> string): (r: Result<seq<string>>)
  {
    match ContentLines(content, ItemLinesOf(loads, show))
    case Err(e) => Err(e)
    case Ok(ls) => Ok(ls + FailedSection(failed, show))
  }

  function EmailText(content: seq<Dict>, failed: seq<(Value, string)>,
                     loads: string -> Option<Value>, show: Value -> string): (r: Result<string>)
  {
    match EmailLines(content, failed, loads, show)
    case Err(e) => Err(e)
    case Ok(ls) => Ok(Join(ls, "\n"))
  }

  /** The body is formatted iff every item is; it then starts with the header. */
  lemma {:induction false} ContentLinesOk(content: seq<Dict>, block: Dict -> Result<seq<string>>)
    ensures ContentLines(content, block).Ok? <==> forall i :: 0 <= i < |content| ==> block(content[i]).Ok?
    ensures ContentLines(content, block).Ok? ==>
      |ContentLines(content, block).value| >= 2 && ContentLines(content, block).value[..2] == Header
  {
    if content != [] {
      var init := content[..|content| - 1];
      ContentLinesOk(init, block);
      forall i | 0 <= i < |init| ensures init[i] == content[i] { }
    }
  }

  /** Once an item fails to format, the whole body fails with its error. */
  lemma {:induction false} ContentLinesErrSticks(content: seq<Dict>, k: nat, block: Dict -> Result<seq<string>>)
    requires k <= |content|
    requires ContentLines(content[..k], block).Err?
    ensures ContentLines(content, block) == ContentLines(content[..k], block)
    decreases |content|
  {
    if k < |content| {
      var init := content[..|content| - 1];
      assert init[..k] == content[..k];
      ContentLinesErrSticks(init, k, block);
    } else {
      assert content[..k] == content;
    }
  }

  /** Item `k`'s block comes right after the blocks of the items before it. */
  lemma {:induction false} ContentLinesBlock(content: seq<Dict>, k: nat, block: Dict -> Result<seq<string>>)
    requires k < |content|
    requires ContentLines(content, block).Ok?
    ensures ContentLines(content[..k], block).Ok? && block(content[k]).Ok?
    ensures var before := ContentLines(content[..k], block).value;
      var b := block(content[k]).value;
      |before| + |b| <= |ContentLines(content, block).value| &&
      ContentLines(content, block).value[|before|..|before| + |b|] == b
    decreases |content|
  {
    var init := content[..|content| - 1];
    if k == |content| - 1 {
      assert content[..k] == init;
    } else {
      ContentLinesBlock(init, k, block);
      assert init[..k] == content[..k];
      assert init[k] == content[k];
    }
  }

  /** A formatted item starts with "---", its title, a blank, its stripped summary and a blank. */
  lemma ItemStartsWithHead(item: Dict, loads: string -> Option<Value>, show: Value -> string)
    requires ItemLines(item, loads, show).Ok?
    ensures GetOr(item, "summary", Str("")).Str?
    ensures ItemLines(item, loads, show).value[..5] == ItemHead(item, show)
  {
  }

  /** An item's heading line shows its title, "Unknown Episode" when it has none. */
  lemma ItemHeadShowsTitle(item: Dict, show: Value -> string)
    requires GetOr(item, "summary", Str("")).Str?
    ensures !HasKey(item, "title") ==> ItemHead(item, show)[1] == "## Unknown Episode"
    ensures Get(item, "title").Some? && Get(item, "title").value.Str? ==>
      ItemHead(item, show)[1] == "## " + Get(item, "title").value.s
  {
    if !HasKey(item, "title") {
      HeadWithoutTitle(item, show);
    }
    if Get(item, "title").Some? && Get(item, "title").value.Str? {
      HeadWithTitle(item, show);
    }
  }

  /** Without a title, the heading reads "Unknown Episode". */
  lemma HeadWithoutTitle(item: Dict, show: Value -> string)
    requires GetOr(item, "summary", Str("")).Str?
    requires !HasKey(item, "title")
    ensures ItemHead(item, show)[1] == "## Unknown Episode"
  {
  }

  /** A text title is shown as it is. */
  lemma HeadWithTitle(item: Dict, show: Value -> string)
    requires GetOr(item, "summary", Str("")).Str?
    requires Get(item, "title").Some? && Get(item, "title").value.Str?
    ensures ItemHead(item, show)[1] == "## " + Get(item, "title").value.s
  {
  }

  /** A summary that is not a string makes the formatting raise. */
  lemma SummaryMustBeText(item: Dict, loads: string -> Option<Value>, show: Value -> string)
    requires !GetOr(item, "summary", Str("")).Str?
    ensures ItemLines(item, loads, show) == Err(NoStrip(GetOr(item, "summary", Str(""))))
  {
  }

  /** The Key Points heading follows the head iff the item has key points. */
  lemma KeyPointsIff(item: Dict, loads: string -> Option<Value>, show: Value -> string)
    requires ItemLines(item, loads, show).Ok?
    ensures var b := ItemLines(item, loads, show).value;
      (|b| > 5 && b[5] == KeyPointsHeading) <==> KeyPointValues(item, loads) != []
  {
    SectionsAfterHead(ItemHead(item, show), AsText(KeyPointValues(item, loads)).value,
                      AsText(HighlightValues(item, loads)).value);
  }

  /** The Highlights section is there iff the highlights parse to a non-empty list. */
  lemma HighlightsIff(item: Dict, loads: string -> Option<Value>, show: Value -> string)
    requires ItemLines(item, loads, show).Ok?
    ensures var b := ItemLines(item, loads, show).value;
      var kps := AsText(KeyPointValues(item, loads)).value;
      var n := 5 + |Section(KeyPointsHeading, kps)|;
      (|b| > n && b[n] == HighlightsHeading) <==>
        ParseFlexible(GetOr(item, "highlights", List([])), loads).List? &&
        ParseFlexible(GetOr(item, "highlights", List([])), loads).items != []
  {
    SectionsAfterHead(ItemHead(item, show), AsText(KeyPointValues(item, loads)).value,
                      AsText(HighlightValues(item, loads)).value);
  }

  /** The failed section is there iff something failed, one line per failure. */
  lemma FailedSectionShape(failed: seq<(Value, string)>, show: Value -> string)
    ensures FailedSection(failed, show) == [] <==> failed == []
    ensures failed != [] ==>
      var s := FailedSection(failed, show);
      |s| == |failed| + 4 && s[..3] == ["---", FailedHeading, ""] && s[|s| - 1] == "" &&
      forall i :: 0 <= i < |failed| ==> s[3 + i] == FailLine(failed[i], show)
  {
  }

  /** The e-mail ends with the failed section, after the items. */
  lemma EmailEndsWithFailures(content: seq<Dict>, failed: seq<(Value, string)>,
                              loads: string -> Option<Value>, show: Value -> string)
    requires EmailLines(content, failed, loads, show).Ok?
    ensures var ls := EmailLines(content, failed, loads, show).value;
      var f := FailedSection(failed, show);
      |ls| >= 2 + |f| && ls[..2] == Header && ls[|ls| - |f|..] == f
  {
    ContentLinesOk(content, ItemLinesOf(loads, show));
  }

  /** The body of the loop over the items in `format_email_content`. */
  method ItemBlock(item: Dict, loads: string -> Option<Value>, show: Value -> string) returns (r: Result<seq<string>>)
    ensures r == ItemLines(item, loads, show)
  {
    var summary := GetOr(item, "summary", Str(""));
    if !summary.Str? {
      return Err(NoStrip(summary));
    }
    var head := ItemHead(item, show);
    var keyPoints := SectionBlock(KeyPointsHeading, KeyPointValues(item, loads));
    if keyPoints.Err? {
      return Err(keyPoints.error);
    }
    var highlights := SectionBlock(HighlightsHeading, HighlightValues(item, loads));
    if highlights.Err? {
      return Err(highlights.error);
    }
    return Ok(head + keyPoints.value + highlights.value);
  }

  /** One optional section of an item: skipped for no points, otherwise each point must be a str. */
  method SectionBlock(heading: string, points: seq<Value>) returns (r: Result<seq<string>>)
    ensures AsText(points).Err? ==> r == Err(AsText(points).error)
    ensures AsText(points).Ok? ==> r == Ok(Section(heading, AsText(points).value))
  {
    if points == [] {
      return Ok([]);
    }
    match AsText(points) {
      case Err(e) =>
        return Err(e);
      case Ok(k) =>
        var formatted := FormatPoints(k);
        return Ok([heading] + formatted + [""]);
    }
  }

  /** The failed-summaries part of `format_email_content`. */
  method FailedBlock(failed: seq<(Value, string)>, show: Value -> string) returns (section: seq<string>)
    ensures section == FailedSection(failed, show)
  {
    if failed == [] {
      return [];
    }
    section := ["---", FailedHeading, ""];
    for j := 0 to |failed|
      invariant section == ["---", FailedHeading, ""] + FailLines(failed[..j], show)
    {
      assert FailLines(failed[..j + 1], show) == FailLines(failed[..j], show) + [FailLine(failed[j], show)];
      section := section + [FailLine(failed[j], show)];
    }
    assert failed[..|failed|] == failed;
    section := section + [""];
  }

  /** `format_email_content`. */
  method FormatEmailContent(content: seq<Dict>, failed: seq<(Value, string)>,
                            loads: string -> Option<Value>, show: Value -> string) returns (r: Result<string>)
    ensures r == EmailText(content, failed, loads, show)
  {
    var lines := Header;
    for i := 0 to |content|
      invariant ContentLines(content[..i], ItemLinesOf(loads, show)) == Ok(lines)
    {
      assert content[..i + 1][..i] == content[..i];
      assert content[..i + 1][i] == content[i];
      var block := ItemBlock(content[i], loads, show);
      match block {
        case Err(e) =>
          ContentLinesErrSticks(content, i + 1, ItemLinesOf(loads, show));
          return Err(e);
        case Ok(b) =>
          lines := lines + b;
      }
    }
    assert content[..|content|] == content;
    var section := FailedBlock(failed, show);
    lines := lines + section;
    r := Ok(Join(lines, "\n"));
  }
}
