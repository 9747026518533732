/**
 * The episode-index syntax shared by the GUI, the CLI and the API test scripts:
 * tokens separated by commas and/or whitespace, each either one integer or an
 * inclusive range `a-b`. A token that does not parse, or a range with `a > b`,
 * is skipped. The results are turned into a sorted list without duplicates.
 */
module EpisodeIndices {
  import opened Wrappers
  import opened Json
  import opened Strings

  /** One element of a list argument: an int is used as is, any other element by its `str()`. */
  datatype Part = Number(n: int) | Token(t: string)

  /** The indices argument: a string, or a list handed over by argparse. */
  datatype Arg = Text(s: string) | Items(parts: seq<Part>)

  predicate ArgTruthy(a: Arg)
  {
    match a
    case Text(s) => s != []
    case Items(ps) => ps != []
  }

  /** `s.replace(',', ' ').split()`. */
  function Tokens(s: string): (r: seq<string>)
    ensures forall k :: 0 <= k < |r| ==> r[k] != [] && NoSpace(r[k])
  {
    SplitWs(ReplaceChar(s, ',', ' '))
  }

  function TextParts(s: string): (r: seq<Part>)
    ensures |r| == |Tokens(s)|
    ensures forall k :: 0 <= k < |r| ==> r[k] == Token(Tokens(s)[k])
  {
    var ts := Tokens(s);
    seq(|ts|, k requires 0 <= k < |ts| => Token(ts[k]))
  }

  /** The parts the loop visits: the tokens of a string, or the list itself. */
  function ArgParts(a: Arg): seq<Part>
  {
    match a
    case Text(s) => TextParts(s)
    case Items(ps) => ps
  }

  /** `range(a, b + 1)`: `a, a+1, ..., b`, empty when `a > b`. */
  function Range(a: int, b: int): (r: seq<int>)
    ensures |r| == if a <= b then b - a + 1 else 0
    ensures forall i :: 0 <= i < |r| ==> r[i] == a + i
    decreases b - a
  {
    if a > b then [] else Range(a, b - 1) + [b]
  }

  lemma RangeMembers(a: int, b: int, v: int)
    ensures v in Range(a, b) <==> a <= v <= b
  {
    if a <= v <= b {
      assert Range(a, b)[v - a] == v;
    }
  }

  /** `start, end = map(int, t.split('-'))`: exactly two pieces, both ints. */
  function RangeBounds(t: string): Option<(int, int)>
  {
    var ps := SplitOn(t, '-');
    if |ps| == 2 && ParseInt(ps[0]).Some? && ParseInt(ps[1]).Some? then
      Some((ParseInt(ps[0]).value, ParseInt(ps[1]).value))
    else None
  }

  /** What one part appends to `result`: nothing for a part that is skipped. */
  function PartValues(p: Part): seq<int>
  {
    match p
    case Number(n) => [n]
    case Token(t) =>
      if '-' in t then
        (match RangeBounds(t)
         case Some(bounds) => Range(bounds.0, bounds.1)
         case None => [])
      else
        (match ParseInt(t)
         case Some(v) => [v]
         case None => [])
  }

  /** The reference reading of one part: does it select episode `v`? */
  predicate Selected(p: Part, v: int)
  {
    match p
    case Number(n) => v == n
    case Token(t) =>
      if '-' in t then RangeBounds(t).Some? && RangeBounds(t).value.0 <= v <= RangeBounds(t).value.1
      else ParseInt(t) == Some(v)
  }

  predicate Chosen(parts: seq<Part>, v: int)
  {
    exists k :: 0 <= k < |parts| && Selected(parts[k], v)
  }

  lemma PartValuesSelected(p: Part, v: int)
    ensures v in PartValues(p) <==> Selected(p, v)
  {
    if p.Token? && '-' in p.t && RangeBounds(p.t).Some? {
      RangeMembers(RangeBounds(p.t).value.0, RangeBounds(p.t).value.1, v);
    }
  }

  /** `result` after the loop over `parts`. */
  function Collected(parts: seq<Part>): seq<int>
  {
    if parts == [] then [] else Collected(parts[..|parts| - 1]) + PartValues(parts[|parts| - 1])
  }

  /** A value is collected iff some part selects it. */
  lemma {:induction false} CollectedMembers(parts: seq<Part>)
    ensures forall v :: v in Collected(parts) <==> Chosen(parts, v)
  {
    if parts != [] {
      var init, last := parts[..|parts| - 1], parts[|parts| - 1];
      CollectedMembers(init);
      forall v ensures v in Collected(parts) <==> Chosen(parts, v) {
        CollectedMemberStep(parts, v);
      }
    }
  }

  /** One more part: `v` is collected iff the earlier parts chose it or the last part selects it. */
  lemma CollectedMemberStep(parts: seq<Part>, v: int)
    requires parts != []
    requires v in Collected(parts[..|parts| - 1]) <==> Chosen(parts[..|parts| - 1], v)
    ensures v in Collected(parts) <==> Chosen(parts, v)
  {
    var init, last := parts[..|parts| - 1], parts[|parts| - 1];
    PartValuesSelected(last, v);
    ChosenSnoc(parts, v);
    assert Collected(parts) == Collected(init) + PartValues(last);
  }

  /** Some part chooses `v` iff an earlier part does or the last one does. */
  lemma ChosenSnoc(parts: seq<Part>, v: int)
    requires parts != []
    ensures Chosen(parts, v) <==> Chosen(parts[..|parts| - 1], v) || Selected(parts[|parts| - 1], v)
  {
    var init, last := parts[..|parts| - 1], parts[|parts| - 1];
    if Chosen(parts, v) {
      var k :| 0 <= k < |parts| && Selected(parts[k], v);
      if k < |init| {
        assert init[k] == parts[k];
      } else {
        assert parts[k] == last;
      }
    }
    if Chosen(init, v) {
      var k :| 0 <= k < |init| && Selected(init[k], v);
      assert parts[k] == init[k];
    }
    if Selected(last, v) {
      assert Selected(parts[|parts| - 1], v);
    }
  }

  /** `result.extend(range(start, end + 1))`, one value at a time. */
  method AppendRange(before: seq<int>, start: int, end: int) returns (result: seq<int>)
    ensures result == before + Range(start, end)
  {
    result := before;
    if start <= end {
      var x := start;
      while x <= end
        invariant start <= x <= end + 1
        invariant result == before + Range(start, x - 1)
      {
        result := result + [x];
        x := x + 1;
      }
    }
  }

  /** One pass of the loop body: `append` for an int, `extend(range(...))` for a range. */
  method AppendPart(before: seq<int>, p: Part) returns (result: seq<int>)
    ensures result == before + PartValues(p)
  {
    result := before;
    match p {
      case Number(n) =>
        result := result + [n];
      case Token(t) =>
        if '-' in t {
          var bounds := RangeBounds(t);
          if bounds.Some? {
            result := AppendRange(before, bounds.value.0, bounds.value.1);
          }
        } else {
          var v := ParseInt(t);
          if v.Some? {
            result := result + [v.value];
          }
        }
    }
  }

  /** The accumulation loop shared by every copy of `parse_episode_indices`. */
  method CollectIndices(parts: seq<Part>) returns (result: seq<int>)
    ensures result == Collected(parts)
  {
    result := [];
    var i := 0;
    while i < |parts|
      invariant 0 <= i <= |parts|
      invariant result == Collected(parts[..i])
    {
      assert parts[..i + 1][..i] == parts[..i];
      result := AppendPart(result, parts[i]);
      i := i + 1;
    }
    assert parts[..|parts|] == parts;
  }

  predicate StrictlyIncreasing(xs: seq<int>)
  {
    forall i, j :: 0 <= i < j < |xs| ==> xs[i] < xs[j]
  }

  function Insert(xs: seq<int>, x: int): (r: seq<int>)
    requires StrictlyIncreasing(xs)
    ensures StrictlyIncreasing(r)
    ensures forall v :: v in r <==> v in xs || v == x
  {
    if xs == [] then [x]
    else if x < xs[0] then [x] + xs
    else if x == xs[0] then xs
    else
      var rest := Insert(xs[1..], x);
      assert forall v :: v in rest ==> xs[0] < v;
      ConsIncreasing(xs[0], rest);
      assert xs == [xs[0]] + xs[1..];
      [xs[0]] + rest
  }

  lemma ConsIncreasing(h: int, t: seq<int>)
    requires StrictlyIncreasing(t)
    requires forall v :: v in t ==> h < v
    ensures StrictlyIncreasing([h] + t)
  {
    forall i, j | 0 <= i < j < |[h] + t| ensures ([h] + t)[i] < ([h] + t)[j] {
      assert t[j - 1] in t;
    }
  }

  /** `sorted(set(xs))`. */
  function SortedUnique(xs: seq<int>): (r: seq<int>)
    ensures StrictlyIncreasing(r)
    ensures forall v :: v in r <==> v in xs
  {
    if xs == [] then []
    else
      assert xs == xs[..|xs| - 1] + [xs[|xs| - 1]];
      Insert(SortedUnique(xs[..|xs| - 1]), xs[|xs| - 1])
  }

  /** Two strictly increasing lists with the same members are the same list. */
  lemma {:induction false} IncreasingByMembers(xs: seq<int>, ys: seq<int>)
    requires StrictlyIncreasing(xs) && StrictlyIncreasing(ys)
    requires forall v :: v in xs <==> v in ys
    ensures xs == ys
  {
    assert (xs != [] ==> xs[0] in xs && xs[0] in ys) && (ys != [] ==> ys[0] in ys && ys[0] in xs);
    if xs != [] && ys != [] {
      assert xs[0] == ys[0];
      forall v ensures v in xs[1..] <==> v in ys[1..] {
        if v in xs[1..] { assert v in xs && v != xs[0]; }
        if v in ys[1..] { assert v in ys && v != ys[0]; }
      }
      IncreasingByMembers(xs[1..], ys[1..]);
      assert xs == [xs[0]] + xs[1..] && ys == [ys[0]] + ys[1..];
    }
  }

  /** `sorted(set(xs))` is the one strictly increasing list holding exactly the members of `xs`. */
  lemma SortedUniqueCanonical(xs: seq<int>, ys: seq<int>)
    requires StrictlyIncreasing(ys) && forall v :: v in ys <==> v in xs
    ensures ys == SortedUnique(xs)
  {
    IncreasingByMembers(ys, SortedUnique(xs));
  }

  /** `sorted(set(result))` after the loop: increasing, and holding exactly the selected values. */
  function SortedIndices(parts: seq<Part>): (r: seq<int>)
    ensures StrictlyIncreasing(r)
    ensures forall v :: v in r <==> Chosen(parts, v)
  {
    CollectedMembers(parts);
    SortedUnique(Collected(parts))
  }

  /** The `/process-podcast` request body the scripts build around the parsed indices. */
  predicate DescribesRequest(payload: Dict, feedUrl: Value, limit: int, parsed: Option<seq<int>>,
                             splitSizeMb: real, includeTranscription: bool)
  {
    var indexed := parsed.Some? && parsed.value != [];
    Keys(payload) == ["feed_url", "limit_episodes", "split_size_mb", "include_transcription"]
                     + (if indexed then ["episode_indices"] else []) &&
    Get(payload, "feed_url") == Some(feedUrl) &&
    Get(payload, "limit_episodes") == Some(Int(if indexed then 0 else limit)) &&
    Get(payload, "split_size_mb") == Some(Float(splitSizeMb)) &&
    Get(payload, "include_transcription") == Some(Bool(includeTranscription)) &&
    Get(payload, "episode_indices") == (if indexed then Some(Ints(parsed.value)) else None)
  }

  /** The payload asks for episode `v` by index. */
  predicate Requests(payload: Dict, v: int)
  {
    match Get(payload, "episode_indices")
    case Some(List(items)) => Int(v) in items
    case _ => false
  }

  /** The four keys every request body has, in order. */
  function BaseRequest(feedUrl: Value, limit: int, splitSizeMb: real, includeTranscription: bool): (d: Dict)
    ensures Keys(d) == ["feed_url", "limit_episodes", "split_size_mb", "include_transcription"]
    ensures Get(d, "feed_url") == Some(feedUrl) && Get(d, "limit_episodes") == Some(Int(limit))
    ensures Get(d, "split_size_mb") == Some(Float(splitSizeMb))
    ensures Get(d, "include_transcription") == Some(Bool(includeTranscription))
    ensures !HasKey(d, "episode_indices")
  {
    var d := [
      ("feed_url", feedUrl),
      ("limit_episodes", Int(limit)),
      ("split_size_mb", Float(splitSizeMb)),
      ("include_transcription", Bool(includeTranscription))];
    assert Get(d[3..], "include_transcription") == Some(Bool(includeTranscription));
    assert Get(d[2..], "split_size_mb") == Some(Float(splitSizeMb));
    assert !HasKey(d[3..], "episode_indices");
    assert !HasKey(d[2..], "episode_indices");
    assert !HasKey(d[1..], "episode_indices");
    d
  }

  /**
   * The payload dict: the limit is replaced by 0 and the indices are added
   * exactly when the parsed list is non-empty.
   */
  method BuildRequest(feedUrl: Value, limit: int, parsed: Option<seq<int>>, splitSizeMb: real,
                      includeTranscription: bool) returns (payload: Dict)
    ensures DescribesRequest(payload, feedUrl, limit, parsed, splitSizeMb, includeTranscription)
  {
    var indexed := parsed.Some? && parsed.value != [];
    payload := BaseRequest(feedUrl, if !indexed then limit else 0, splitSizeMb, includeTranscription);
    if indexed {
      PutKeys(payload, "episode_indices", Ints(parsed.value));
      payload := Put(payload, "episode_indices", Ints(parsed.value));
    }
  }
}
