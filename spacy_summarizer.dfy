/**
 * The deterministic parts of `summarize_with_spacy`: the sentence-chunking
 * loop with its overlap and topic-shift flag, the per-label entity lists, the
 * chunk documents and their entity text, the global entity ranking, and the
 * strict key-point parse. Sentence splitting, entity recognition, the
 * embeddings behind the topic shifts and the chains are inputs.
 */
module SpacySummarizer {
  import opened Wrappers
  import opened Json
  import opened Strings
  import KeyPoints

  // ---------------------------------------------------------------------
  // Sentence chunking (lines 113-152)

  /** One entry of `chunks`. */
  datatype Chunk = Chunk(text: string, isTopicShift: bool, index: nat)

  /** The sentences a flushed chunk was joined from, with its topic-shift flag. */
  datatype Group = Group(sentences: seq<string>, isTopicShift: bool)

  /** The loop's state: the chunks emitted so far, `current_chunk`, `is_topic_shift`. */
  datatype Builder = Builder(groups: seq<Group>, current: seq<string>, shift: bool)

  /** `sum(len(s) for s in xs)`. */
  function SumLen(xs: seq<string>): nat
  {
    if xs == [] then 0 else SumLen(xs[..|xs| - 1]) + |xs[|xs| - 1]|
  }

  /** `int(a / b)` for a positive `b`: the quotient truncated toward zero. */
  function TruncDiv(a: int, b: int): (r: int)
    requires b > 0
  {
    if a >= 0 then a / b else -((-a) / b)
  }

  /**
   * The truncated quotient is the Euclidean one for a non-negative dividend,
   * and for a negative one the multiple of `b` at or above `a` nearest to it.
   */
  lemma TruncDivTowardZero(a: int, b: int)
    requires b > 0
    ensures var r := TruncDiv(a, b);
      (a >= 0 ==> r == a / b && r * b <= a < (r + 1) * b) &&
      (a < 0 ==> (r - 1) * b < a <= r * b)
  {
  }

  /** `min(int(chunk_overlap / sent_size) + 1, len(current_chunk))`. */
  function OverlapCount(chunkOverlap: int, sentSize: int, n: nat): (k: int)
    requires sentSize > 0
    ensures k <= n
  {
    var want := TruncDiv(chunkOverlap, sentSize) + 1;
    if want < n then want else n
  }

  /** `current_chunk[-k:]`, with Python's reading of a zero or negative `k`. */
  function KeepTail(current: seq<string>, k: int): seq<string>
  {
    PySlice(current, -k, |current|)
  }

  /** The flush test of line 126. */
  predicate Flushes(b: Builder, s: string, chunkSize: int)
  {
    SumLen(b.current) + |s| > chunkSize && b.current != []
  }

  /**
   * One iteration, for sentence `s` at position `i`. A flush emits exactly
   * the sentences gathered before `s`, carrying the flag, then resets the
   * flag; otherwise nothing is emitted and the flag only gains `i`'s shift.
   * A zero-length sentence at a flush divides by zero.
   */
  function Step(b: Builder, i: int, s: string, topicShifts: set<int>, chunkSize: int, chunkOverlap: int): (r: Result<Builder>)
    ensures r.Err? <==> Flushes(b, s, chunkSize) && |s| == 0
    ensures r.Ok? ==> r.value.current != [] && r.value.current[|r.value.current| - 1] == s
    ensures r.Ok? ==> |b.groups| <= |r.value.groups| <= |b.groups| + 1
    ensures r.Ok? ==> r.value.groups[..|b.groups|] == b.groups
    ensures r.Ok? ==> (|r.value.groups| == |b.groups| + 1 <==> Flushes(b, s, chunkSize))
    ensures r.Ok? && Flushes(b, s, chunkSize) ==>
      r.value.groups[|b.groups|] == Group(b.current, b.shift || i in topicShifts) && !r.value.shift
    ensures r.Ok? && !Flushes(b, s, chunkSize) ==>
      r.value.shift == (b.shift || i in topicShifts) && r.value.current == b.current + [s]
  {
    var shift := b.shift || i in topicShifts;
    if Flushes(b, s, chunkSize) then
      if |s| == 0 then Err("division by zero")
      else
        var kept := KeepTail(b.current, OverlapCount(chunkOverlap, |s|, |b.current|));
        Ok(Builder(b.groups + [Group(b.current, shift)], kept + [s], false))
    else Ok(Builder(b.groups, b.current + [s], shift))
  }

  /** The state after the loop has read `sentences`. */
  function Run(sentences: seq<string>, topicShifts: set<int>, chunkSize: int, chunkOverlap: int): Result<Builder>
  {
    if sentences == [] then Ok(Builder([], [], false))
    else
      var n := |sentences| - 1;
      match Run(sentences[..n], topicShifts, chunkSize, chunkOverlap)
      case Err(e) => Err(e)
      case Ok(b) => Step(b, n, sentences[n], topicShifts, chunkSize, chunkOverlap)
  }

  /** Lines 146-152: a non-empty `current_chunk` becomes the last chunk. */
  function Close(b: Builder): seq<Group>
  {
    if b.current != [] then b.groups + [Group(b.current, b.shift)] else b.groups
  }

  /** The emitted chunk records: the sentences joined by spaces, numbered by position. */
  function Chunks(groups: seq<Group>): (r: seq<Chunk>)
    ensures |r| == |groups|
    ensures forall j :: 0 <= j < |r| ==> r[j].index == j
  {
    if groups == [] then []
    else
      var g := groups[|groups| - 1];
      Chunks(groups[..|groups| - 1]) + [Chunk(Join(g.sentences, " "), g.isTopicShift, |groups| - 1)]
  }

  /** Chunk `j` is group `j` joined by spaces, with its flag. */
  lemma {:induction false} ChunksAt(groups: seq<Group>, j: nat)
    requires j < |groups|
    ensures Chunks(groups)[j] == Chunk(Join(groups[j].sentences, " "), groups[j].isTopicShift, j)
  {
    var init := groups[..|groups| - 1];
    if j < |init| {
      ChunksAt(init, j);
    }
  }

  function Chunked(sentences: seq<string>, topicShifts: set<int>, chunkSize: int, chunkOverlap: int): (r: Result<seq<Chunk>>)
    ensures r.Ok? ==> forall j :: 0 <= j < |r.value| ==> r.value[j].index == j
  {
    match Run(sentences, topicShifts, chunkSize, chunkOverlap)
    case Err(e) => Err(e)
    case Ok(b) => Ok(Chunks(Close(b)))
  }

  lemma SumLenAppend(xs: seq<string>, s: string)
    ensures SumLen(xs + [s]) == SumLen(xs) + |s|
  {
    assert (xs + [s])[..|xs|] == xs;
  }

  lemma ChunksAppend(groups: seq<Group>, g: Group)
    ensures Chunks(groups + [g]) == Chunks(groups) + [Chunk(Join(g.sentences, " "), g.isTopicShift, |groups|)]
  {
    assert (groups + [g])[..|groups|] == groups;
  }

  /** A flush at an empty sentence `i` makes the whole call raise. */
  lemma ChunkedRaises(sentences: seq<string>, i: nat, topicShifts: set<int>, chunkSize: int, chunkOverlap: int, b: Builder)
    requires i < |sentences|
    requires Run(sentences[..i], topicShifts, chunkSize, chunkOverlap) == Ok(b)
    requires Flushes(b, sentences[i], chunkSize) && |sentences[i]| == 0
    ensures Chunked(sentences, topicShifts, chunkSize, chunkOverlap) == Err("division by zero")
  {
    RunPrefix(sentences, i, topicShifts, chunkSize, chunkOverlap);
    RunErrSticks(sentences, topicShifts, chunkSize, chunkOverlap, i + 1);
  }

  /** When the loop ends in `b`, the result is `b`'s groups, closed and numbered. */
  lemma ChunkedAfterRun(sentences: seq<string>, topicShifts: set<int>, chunkSize: int, chunkOverlap: int, b: Builder)
    requires Run(sentences, topicShifts, chunkSize, chunkOverlap) == Ok(b)
    ensures Chunked(sentences, topicShifts, chunkSize, chunkOverlap) == Ok(Chunks(Close(b)))
  {
  }

  /**
   * A flush at sentence `i` of positive length: the run reaches the builder
   * with the flushed group, the retained tail and `s`; one more chunk is
   * numbered; the size is that of the tail plus `s`.
   */
  lemma FlushStep(sentences: seq<string>, i: nat, topicShifts: set<int>, chunkSize: int, chunkOverlap: int, b: Builder)
    requires i < |sentences|
    requires Run(sentences[..i], topicShifts, chunkSize, chunkOverlap) == Ok(b)
    requires Flushes(b, sentences[i], chunkSize) && |sentences[i]| > 0
    ensures var s, shift := sentences[i], b.shift || i in topicShifts;
      var tail := KeepTail(b.current, OverlapCount(chunkOverlap, |s|, |b.current|));
      Run(sentences[..i + 1], topicShifts, chunkSize, chunkOverlap) ==
        Ok(Builder(b.groups + [Group(b.current, shift)], tail + [s], false)) &&
      Chunks(b.groups + [Group(b.current, shift)]) == Chunks(b.groups) + [Chunk(Join(b.current, " "), shift, |b.groups|)] &&
      SumLen(tail + [s]) == SumLen(tail) + |s|
  {
    RunPrefix(sentences, i, topicShifts, chunkSize, chunkOverlap);
    var shift := b.shift || i in topicShifts;
    ChunksAppend(b.groups, Group(b.current, shift));
    SumLenAppend(KeepTail(b.current, OverlapCount(chunkOverlap, |sentences[i]|, |b.current|)), sentences[i]);
  }

  /** A sentence that causes no flush joins the current chunk. */
  lemma KeepStep(sentences: seq<string>, i: nat, topicShifts: set<int>, chunkSize: int, chunkOverlap: int, b: Builder)
    requires i < |sentences|
    requires Run(sentences[..i], topicShifts, chunkSize, chunkOverlap) == Ok(b)
    requires !Flushes(b, sentences[i], chunkSize)
    ensures Run(sentences[..i + 1], topicShifts, chunkSize, chunkOverlap) ==
      Ok(Builder(b.groups, b.current + [sentences[i]], b.shift || i in topicShifts))
    ensures SumLen(b.current + [sentences[i]]) == SumLen(b.current) + |sentences[i]|
  {
    RunPrefix(sentences, i, topicShifts, chunkSize, chunkOverlap);
    SumLenAppend(b.current, sentences[i]);
  }

  /** Reading sentence `i` after the sentences before it is one `Step`. */
  lemma RunPrefix(sentences: seq<string>, i: nat, topicShifts: set<int>, chunkSize: int, chunkOverlap: int)
    requires i < |sentences|
    ensures var p := Run(sentences[..i], topicShifts, chunkSize, chunkOverlap);
      Run(sentences[..i + 1], topicShifts, chunkSize, chunkOverlap) ==
        if p.Ok? then Step(p.value, i, sentences[i], topicShifts, chunkSize, chunkOverlap) else p
  {
    assert sentences[..i + 1][..i] == sentences[..i];
  }

  /** Once the loop has raised, the whole call raises the same error. */
  lemma {:induction false} RunErrSticks(sentences: seq<string>, topicShifts: set<int>, chunkSize: int, chunkOverlap: int, i: nat)
    requires i <= |sentences|
    requires Run(sentences[..i], topicShifts, chunkSize, chunkOverlap).Err?
    ensures Run(sentences, topicShifts, chunkSize, chunkOverlap) == Run(sentences[..i], topicShifts, chunkSize, chunkOverlap)
    decreases |sentences| - i
  {
    if i == |sentences| {
      assert sentences[..i] == sentences;
    } else {
      var p := sentences[..i + 1];
      assert p[..i] == sentences[..i];
      RunErrSticks(sentences, topicShifts, chunkSize, chunkOverlap, i + 1);
    }
  }

  /**
   * The chunking loop. `current_size` is kept equal to the summed lengths of
   * `current_chunk` throughout.
   */
  method ChunkSentences(sentences: seq<string>, topicShifts: set<int>, chunkSize: int, chunkOverlap: int)
    returns (r: Result<seq<Chunk>>)
    ensures r == Chunked(sentences, topicShifts, chunkSize, chunkOverlap)
  {
    var chunks: seq<Chunk> := [];
    var currentChunk: seq<string> := [];
    var currentSize := 0;
    var isTopicShift := false;
    ghost var groups: seq<Group> := [];
    for i := 0 to |sentences|
      invariant Run(sentences[..i], topicShifts, chunkSize, chunkOverlap) == Ok(Builder(groups, currentChunk, isTopicShift))
      invariant currentSize == SumLen(currentChunk)
      invariant chunks == Chunks(groups)
    {
      ghost var b := Builder(groups, currentChunk, isTopicShift);
      if i in topicShifts {
        isTopicShift := true;
      }
      var sentSize := |sentences[i]|;
      if currentSize + sentSize > chunkSize && currentChunk != [] {
        if sentSize == 0 {
          ChunkedRaises(sentences, i, topicShifts, chunkSize, chunkOverlap, b);
          return Err("division by zero");
        }
        FlushStep(sentences, i, topicShifts, chunkSize, chunkOverlap, b);
        var chunkText := Join(currentChunk, " ");
        chunks := chunks + [Chunk(chunkText, isTopicShift, |chunks|)];
        groups := groups + [Group(currentChunk, isTopicShift)];
        var overlapSentences := OverlapCount(chunkOverlap, sentSize, |currentChunk|);
        currentChunk := KeepTail(currentChunk, overlapSentences);
        currentSize := SumLen(currentChunk);
        isTopicShift := false;
      } else {
        KeepStep(sentences, i, topicShifts, chunkSize, chunkOverlap, b);
      }
      currentChunk := currentChunk + [sentences[i]];
      currentSize := currentSize + sentSize;
    }
    assert sentences[..|sentences|] == sentences;
    if currentChunk != [] {
      ChunksAppend(groups, Group(currentChunk, isTopicShift));
      chunks := chunks + [Chunk(Join(currentChunk, " "), isTopicShift, |chunks|)];
    }
    ChunkedAfterRun(sentences, topicShifts, chunkSize, chunkOverlap, Builder(groups, currentChunk, isTopicShift));
    r := Ok(chunks);
  }

  /** The loop holds sentences only after it has read one, and then always some. */
  lemma RunCurrent(sentences: seq<string>, topicShifts: set<int>, chunkSize: int, chunkOverlap: int)
    requires Run(sentences, topicShifts, chunkSize, chunkOverlap).Ok?
    ensures var b := Run(sentences, topicShifts, chunkSize, chunkOverlap).value;
      (b.current == [] <==> sentences == []) && (sentences == [] ==> b.groups == [])
  {
  }

  /** At least one chunk exists iff there is at least one sentence. */
  lemma ChunksExist(sentences: seq<string>, topicShifts: set<int>, chunkSize: int, chunkOverlap: int)
    requires Chunked(sentences, topicShifts, chunkSize, chunkOverlap).Ok?
    ensures Chunked(sentences, topicShifts, chunkSize, chunkOverlap).value != [] <==> sentences != []
  {
    RunCurrent(sentences, topicShifts, chunkSize, chunkOverlap);
  }

  /** `x` is in the current chunk or in an emitted one. */
  predicate Covered(b: Builder, x: string)
  {
    x in b.current || exists j :: 0 <= j < |b.groups| && x in b.groups[j].sentences
  }

  /** Every sentence the loop has held is one of the sentences it read. */
  predicate Drawn(b: Builder, sentences: seq<string>)
  {
    (forall x :: x in b.current ==> x in sentences) &&
    (forall j :: 0 <= j < |b.groups| ==> forall x :: x in b.groups[j].sentences ==> x in sentences)
  }

  lemma KeepTailWithin(current: seq<string>, k: int)
    ensures forall x :: x in KeepTail(current, k) ==> x in current
  {
  }

  /**
   * Every sentence read is held by the current chunk or by an emitted one,
   * and nothing else is held: a chunk emitted at sentence i holds only
   * sentences read before i.
   */
  lemma {:induction false} RunCovers(sentences: seq<string>, topicShifts: set<int>, chunkSize: int, chunkOverlap: int)
    requires Run(sentences, topicShifts, chunkSize, chunkOverlap).Ok?
    ensures forall k :: 0 <= k < |sentences| ==> Covered(Run(sentences, topicShifts, chunkSize, chunkOverlap).value, sentences[k])
    ensures Drawn(Run(sentences, topicShifts, chunkSize, chunkOverlap).value, sentences)
  {
    if sentences != [] {
      var n := |sentences| - 1;
      var init, s := sentences[..n], sentences[n];
      RunCovers(init, topicShifts, chunkSize, chunkOverlap);
      var b := Run(init, topicShifts, chunkSize, chunkOverlap).value;
      StepKeepsCover(b, n, s, topicShifts, chunkSize, chunkOverlap, init, sentences);
    }
  }

  /** The step the loop takes for `s` keeps every sentence read so far covered and drawn. */
  lemma StepKeepsCover(b: Builder, i: int, s: string, topicShifts: set<int>, chunkSize: int, chunkOverlap: int,
                       init: seq<string>, ss: seq<string>)
    requires Step(b, i, s, topicShifts, chunkSize, chunkOverlap).Ok?
    requires ss != [] && init == ss[..|ss| - 1] && s == ss[|ss| - 1]
    requires forall k :: 0 <= k < |init| ==> Covered(b, init[k])
    requires Drawn(b, init)
    ensures var b' := Step(b, i, s, topicShifts, chunkSize, chunkOverlap).value;
      (forall k :: 0 <= k < |ss| ==> Covered(b', ss[k])) && Drawn(b', ss)
  {
    StepHolds(b, i, s, topicShifts, chunkSize, chunkOverlap);
    assert ss == init + [s];
    StepCovers(b, Step(b, i, s, topicShifts, chunkSize, chunkOverlap).value, init, s, Flushes(b, s, chunkSize), ss);
  }

  /** After a step the current chunk ends with `s` and otherwise holds only sentences it held before. */
  lemma StepHolds(b: Builder, i: int, s: string, topicShifts: set<int>, chunkSize: int, chunkOverlap: int)
    requires Step(b, i, s, topicShifts, chunkSize, chunkOverlap).Ok?
    ensures var b' := Step(b, i, s, topicShifts, chunkSize, chunkOverlap).value;
      s in b'.current && forall x :: x in b'.current ==> x in b.current || x == s
  {
    if Flushes(b, s, chunkSize) {
      KeepTailWithin(b.current, OverlapCount(chunkOverlap, |s|, |b.current|));
    }
  }

  /**
   * One step keeps both halves of `RunCovers`: a flush moves the held
   * sentences into a new group and keeps some of them, otherwise `s` joins
   * the current chunk.
   */
  lemma StepCovers(b: Builder, b': Builder, init: seq<string>, s: string, flushed: bool, ss: seq<string>)
    requires ss == init + [s]
    requires forall k :: 0 <= k < |init| ==> Covered(b, init[k])
    requires Drawn(b, init)
    requires s in b'.current
    requires forall x :: x in b'.current ==> x in b.current || x == s
    requires flushed ==>
      |b'.groups| == |b.groups| + 1 && b'.groups[..|b.groups|] == b.groups && b'.groups[|b.groups|].sentences == b.current
    requires !flushed ==> b'.groups == b.groups && b'.current == b.current + [s]
    ensures forall k :: 0 <= k < |ss| ==> Covered(b', ss[k])
    ensures Drawn(b', ss)
  {
    forall k | 0 <= k < |ss|
      ensures Covered(b', ss[k])
    {
      if k < |init| {
        assert ss[k] == init[k];
        if ss[k] !in b.current {
          var j :| 0 <= j < |b.groups| && ss[k] in b.groups[j].sentences;
          assert b'.groups[j] == b.groups[j];
        } else if flushed {
          assert ss[k] in b'.groups[|b.groups|].sentences;
        }
      }
    }
    forall j | 0 <= j < |b'.groups|
      ensures forall x :: x in b'.groups[j].sentences ==> x in ss
    {
      if j < |b.groups| {
        assert b'.groups[j] == b.groups[j];
      }
    }
  }

  /** Every sentence lands in some chunk, whose text contains it. */
  lemma EverySentenceChunked(sentences: seq<string>, topicShifts: set<int>, chunkSize: int, chunkOverlap: int)
    requires Chunked(sentences, topicShifts, chunkSize, chunkOverlap).Ok?
    ensures var cs := Chunked(sentences, topicShifts, chunkSize, chunkOverlap).value;
      forall k :: 0 <= k < |sentences| ==> exists j :: 0 <= j < |cs| && Contains(cs[j].text, sentences[k])
  {
    var b := Run(sentences, topicShifts, chunkSize, chunkOverlap).value;
    var gs := Close(b);
    var cs := Chunks(gs);
    RunCovers(sentences, topicShifts, chunkSize, chunkOverlap);
    forall k | 0 <= k < |sentences|
      ensures exists j :: 0 <= j < |cs| && Contains(cs[j].text, sentences[k])
    {
      var x := sentences[k];
      var j: nat, p: nat;
      if x in b.current {
        j, p := |b.groups|, IndexIn(b.current, x);
      } else {
        j :| 0 <= j < |b.groups| && x in b.groups[j].sentences;
        p := IndexIn(b.groups[j].sentences, x);
      }
      assert j < |gs| && gs[j].sentences[p] == x;
      JoinContains(gs[j].sentences, " ", p);
      ChunksAt(gs, j);
    }
  }

  function IndexIn(xs: seq<string>, x: string): (p: nat)
    requires x in xs
    ensures p < |xs| && xs[p] == x
  {
    if xs[0] == x then 0 else 1 + IndexIn(xs[1..], x)
  }

  /**
   * With a non-negative overlap the retained tail keeps
   * min(overlap div size + 1, n) >= 1 sentences, ending with the last one.
   */
  lemma OverlapKeepsTail(current: seq<string>, chunkOverlap: int, sentSize: int)
    requires current != [] && sentSize > 0 && chunkOverlap >= 0
    ensures var k := OverlapCount(chunkOverlap, sentSize, |current|);
      var t := KeepTail(current, k);
      1 <= k && k == (if chunkOverlap / sentSize + 1 < |current| then chunkOverlap / sentSize + 1 else |current|) &&
      |t| == k && t == current[|current| - k..]
  {
  }

  /**
   * With a non-negative overlap, consecutive chunks share a sentence: after
   * a flush the new current chunk holds the emitted chunk's last sentence
   * right before the sentence just read.
   */
  lemma ConsecutiveChunksShare(b: Builder, i: int, s: string, topicShifts: set<int>, chunkSize: int, chunkOverlap: int)
    requires Flushes(b, s, chunkSize) && |s| > 0 && chunkOverlap >= 0
    ensures var r := Step(b, i, s, topicShifts, chunkSize, chunkOverlap);
      var g := r.value.groups[|b.groups|].sentences;
      var c := r.value.current;
      |c| >= 2 && c[|c| - 2] == g[|g| - 1]
  {
    OverlapKeepsTail(b.current, chunkOverlap, |s|);
  }

  lemma DivIsOne(x: int, b: int)
    requires 0 < b <= x < 2 * b
    ensures x / b == 1
  {
  }

  /**
   * A negative overlap with `int(overlap / size) == -1` makes the count 0,
   * and `current_chunk[-0:]` keeps the whole chunk.
   */
  lemma OverlapZeroKeepsAll(current: seq<string>, chunkOverlap: int, sentSize: int)
    requires sentSize > 0 && -2 * sentSize < chunkOverlap <= -sentSize
    ensures OverlapCount(chunkOverlap, sentSize, |current|) == 0
    ensures KeepTail(current, OverlapCount(chunkOverlap, sentSize, |current|)) == current
  {
    DivIsOne(-chunkOverlap, sentSize);
  }

  // ---------------------------------------------------------------------
  // Distinct values in first-seen order

  /** `xs` without repeats, each value where it first occurs. */
  function FirstSeen<T(==)>(xs: seq<T>): (r: seq<T>)
    ensures |r| <= |xs|
  {
    if xs == [] then []
    else
      var kept := FirstSeen(xs[..|xs| - 1]);
      if xs[|xs| - 1] in kept then kept else kept + [xs[|xs| - 1]]
  }

  predicate NoRepeats<T(==)>(r: seq<T>)
  {
    forall i, j :: 0 <= i < j < |r| ==> r[i] != r[j]
  }

  /** The same values as `xs`, none repeated. */
  lemma {:induction false} FirstSeenMembers<T>(xs: seq<T>)
    ensures forall x :: x in FirstSeen(xs) <==> x in xs
    ensures NoRepeats(FirstSeen(xs))
  {
    if xs != [] {
      var init := xs[..|xs| - 1];
      FirstSeenMembers(init);
      assert xs == init + [xs[|xs| - 1]];
    }
  }

  /** What is kept from a prefix is a prefix of what is kept: first-seen order. */
  lemma {:induction false} FirstSeenPrefix<T>(xs: seq<T>, i: nat)
    requires i <= |xs|
    ensures FirstSeen(xs[..i]) <= FirstSeen(xs)
    decreases |xs| - i
  {
    if i < |xs| {
      FirstSeenPrefix(xs, i + 1);
      assert xs[..i + 1][..i] == xs[..i];
    } else {
      assert xs[..i] == xs;
    }
  }

  // ---------------------------------------------------------------------
  // Entities per label (lines 156-162)

  /** The texts recognised with label `l`, in document order. */
  function TextsOf(ents: seq<(string, string)>, l: string): seq<string>
  {
    if ents == [] then []
    else
      var last := ents[|ents| - 1];
      TextsOf(ents[..|ents| - 1], l) + (if last.0 == l then [last.1] else [])
  }

  /** The `entities` dict after the loop has read `ents` (label, text). */
  function Collected(ents: seq<(string, string)>): map<string, seq<string>>
  {
    if ents == [] then map[]
    else
      var m := Collected(ents[..|ents| - 1]);
      var tag := ents[|ents| - 1].0;
      var text := ents[|ents| - 1].1;
      var list := if tag in m then m[tag] else [];
      if text in list then m[tag := list] else m[tag := list + [text]]
  }

  /**
   * A label has a list iff some entity carries it, and the list is that
   * label's texts, distinct, in first-seen order.
   */
  lemma {:induction false} CollectedLists(ents: seq<(string, string)>, l: string)
    ensures l in Collected(ents) <==> TextsOf(ents, l) != []
    ensures l in Collected(ents) ==> Collected(ents)[l] == FirstSeen(TextsOf(ents, l))
  {
    if ents != [] {
      var init := ents[..|ents| - 1];
      CollectedLists(init, l);
      var last := ents[|ents| - 1];
      var xs := TextsOf(ents, l);
      if last.0 == l {
        assert xs == TextsOf(init, l) + [last.1];
        assert xs[..|xs| - 1] == TextsOf(init, l);
        if l !in Collected(init) {
          assert TextsOf(init, l) == [];
        }
      } else {
        assert xs == TextsOf(init, l);
      }
    }
  }

  /** Each label's list holds distinct texts, exactly those seen with that label. */
  lemma EntityListsDistinct(ents: seq<(string, string)>, l: string)
    requires l in Collected(ents)
    ensures NoRepeats(Collected(ents)[l])
    ensures forall t :: t in Collected(ents)[l] <==> t in TextsOf(ents, l)
  {
    CollectedLists(ents, l);
    FirstSeenMembers(TextsOf(ents, l));
  }

  /** The loop over `doc.ents`, filling `entities` in place. */
  method CollectEntities(ents: seq<(string, string)>) returns (entities: map<string, seq<string>>)
    ensures entities == Collected(ents)
  {
    entities := map[];
    for i := 0 to |ents|
      invariant entities == Collected(ents[..i])
    {
      assert ents[..i + 1][..i] == ents[..i];
      var tag, text := ents[i].0, ents[i].1;
      if tag !in entities {
        entities := entities[tag := []];
      }
      if text !in entities[tag] {
        entities := entities[tag := entities[tag] + [text]];
      }
    }
    assert ents[..|ents|] == ents;
  }

  // ---------------------------------------------------------------------
  // Chunk documents and their entity text (lines 164-183, 287-292)

  datatype DocMeta = DocMeta(chunkId: int, totalChunks: int, isTopicShift: bool, entities: seq<string>)
  datatype Doc = Doc(content: string, meta: DocMeta)

  /**
   * The document loop; `entitiesOf` stands for recognising entities in a
   * chunk's text.
   */
  method BuildDocs(chunks: seq<Chunk>, entitiesOf: string -> seq<string>) returns (docs: seq<Doc>)
    ensures |docs| == |chunks|
    ensures forall i :: 0 <= i < |docs| ==>
      docs[i] == Doc(chunks[i].text, DocMeta(i + 1, |chunks|, chunks[i].isTopicShift, entitiesOf(chunks[i].text)))
  {
    docs := [];
    for i := 0 to |chunks|
      invariant |docs| == i
      invariant forall k :: 0 <= k < i ==>
        docs[k] == Doc(chunks[k].text, DocMeta(k + 1, |chunks|, chunks[k].isTopicShift, entitiesOf(chunks[k].text)))
    {
      var chunkEntities := entitiesOf(chunks[i].text);
      docs := docs + [Doc(chunks[i].text, DocMeta(i + 1, |chunks|, chunks[i].isTopicShift, chunkEntities))];
    }
  }

  const NoEntities := "No significant entities detected"

  /** `get_topic_shift_note`. */
  function TopicShiftNote(doc: Doc): (r: string)
    ensures r == "NOTE: This section contains a significant topic transition." <==> doc.meta.isTopicShift
  {
    if doc.meta.isTopicShift then "NOTE: This section contains a significant topic transition."
    else "This section continues the previous topic."
  }

  /** `get_entities_text`: at most the first five entities, or the fallback. */
  function EntitiesText(doc: Doc): (r: string)
    ensures doc.meta.entities == [] ==> r == NoEntities
    ensures doc.meta.entities != [] ==> r == Join(PyPrefix(doc.meta.entities, 5), ", ")
  {
    var entities := doc.meta.entities;
    if entities != [] then Join(PyPrefix(entities, 5), ", ") else NoEntities
  }

  /** Each of the first five entities appears in the entity text. */
  lemma EntitiesTextNames(doc: Doc, k: nat)
    requires k < |doc.meta.entities| && k < 5
    ensures Contains(EntitiesText(doc), doc.meta.entities[k])
  {
    var top := PyPrefix(doc.meta.entities, 5);
    assert top[k] == doc.meta.entities[k];
    JoinContains(top, ", ", k);
  }

  // ---------------------------------------------------------------------
  // Global entities (lines 294-309)

  /** `all_entities`: every document's entities, in order. */
  function Flatten(docs: seq<Doc>): seq<string>
  {
    if docs == [] then [] else Flatten(docs[..|docs| - 1]) + docs[|docs| - 1].meta.entities
  }

  /** `entity_counts[entity] = entity_counts.get(entity, 0) + 1` on an insertion-ordered dict. */
  function Bump(counts: seq<(string, nat)>, e: string): (r: seq<(string, nat)>)
  {
    if counts == [] then [(e, 1)]
    else if counts[0].0 == e then [(e, counts[0].1 + 1)] + counts[1..]
    else [counts[0]] + Bump(counts[1..], e)
  }

  /** `entity_counts` after the loop has read `xs`. */
  function Tally(xs: seq<string>): seq<(string, nat)>
  {
    if xs == [] then [] else Bump(Tally(xs[..|xs| - 1]), xs[|xs| - 1])
  }

  function Names(counts: seq<(string, nat)>): (r: seq<string>)
    ensures |r| == |counts|
  {
    seq(|counts|, k requires 0 <= k < |counts| => counts[k].0)
  }

  lemma BumpShape(counts: seq<(string, nat)>, e: string)
    requires NoRepeats(Names(counts))
    ensures Names(Bump(counts, e)) == if e in Names(counts) then Names(counts) else Names(counts) + [e]
    ensures forall k :: 0 <= k < |Bump(counts, e)| ==>
      Bump(counts, e)[k].1 == (if k < |counts| then counts[k].1 else 0) + (if Bump(counts, e)[k].0 == e then 1 else 0)
  {
    BumpNames(counts, e);
    BumpCounts(counts, e);
  }

  /** Counting `e` keeps the names, adding `e` at the end when it is new. */
  lemma {:induction false} BumpNames(counts: seq<(string, nat)>, e: string)
    ensures Names(Bump(counts, e)) == if e in Names(counts) then Names(counts) else Names(counts) + [e]
  {
    if counts != [] {
      assert Names(counts) == [counts[0].0] + Names(counts[1..]);
      if counts[0].0 != e {
        BumpNames(counts[1..], e);
        assert Names(Bump(counts, e)) == [counts[0].0] + Names(Bump(counts[1..], e));
      } else {
        assert Names(Bump(counts, e)) == Names(counts);
      }
    }
  }

  /** Counting `e` adds one to the entry named `e` and to no other. */
  lemma {:induction false} BumpCounts(counts: seq<(string, nat)>, e: string)
    requires NoRepeats(Names(counts))
    ensures forall k :: 0 <= k < |Bump(counts, e)| ==>
      Bump(counts, e)[k].1 == (if k < |counts| then counts[k].1 else 0) + (if Bump(counts, e)[k].0 == e then 1 else 0)
  {
    if counts != [] && counts[0].0 != e {
      NoRepeatsTail(counts);
      BumpCounts(counts[1..], e);
      var r, t := Bump(counts, e), Bump(counts[1..], e);
      assert r == [counts[0]] + t;
      forall k | 0 <= k < |r|
        ensures r[k].1 == (if k < |counts| then counts[k].1 else 0) + (if r[k].0 == e then 1 else 0)
      {
        if k > 0 {
          assert r[k] == t[k - 1];
          if k < |counts| {
            assert counts[1..][k - 1] == counts[k];
          }
        }
      }
    } else if counts != [] {
      forall k | 1 <= k < |counts|
        ensures counts[k].0 != e
      {
        assert Names(counts)[k] == counts[k].0 && Names(counts)[0] == e;
      }
    }
  }

  /** Dropping the first entry keeps the names distinct. */
  lemma NoRepeatsTail(counts: seq<(string, nat)>)
    requires counts != [] && NoRepeats(Names(counts))
    ensures NoRepeats(Names(counts[1..]))
  {
    forall i, j | 0 <= i < j < |counts| - 1
      ensures Names(counts[1..])[i] != Names(counts[1..])[j]
    {
      assert Names(counts[1..])[i] == Names(counts)[i + 1];
      assert Names(counts[1..])[j] == Names(counts)[j + 1];
    }
  }

  /**
   * The counted entities are the distinct entities in first-seen order, each
   * with the number of times it occurs.
   */
  lemma {:induction false} TallyCounts(xs: seq<string>)
    ensures Names(Tally(xs)) == FirstSeen(xs)
    ensures forall k :: 0 <= k < |Tally(xs)| ==> Tally(xs)[k].1 == multiset(xs)[Tally(xs)[k].0]
  {
    if xs != [] {
      var init := xs[..|xs| - 1];
      var e := xs[|xs| - 1];
      TallyCounts(init);
      FirstSeenMembers(init);
      BumpShape(Tally(init), e);
      assert xs == init + [e];
      var t := Tally(xs);
      forall k | 0 <= k < |t|
        ensures t[k].1 == multiset(xs)[t[k].0]
      {
        assert Names(t)[k] == t[k].0;
        if k < |Tally(init)| {
          assert Names(Tally(init))[k] == t[k].0;
        } else {
          assert t[k].0 == e && e !in init;
        }
      }
    }
  }

  /**
   * `sorted(..., key=count, reverse=True)` as an insertion sort: `x` goes
   * after every entry whose count is at least its own, which keeps equal
   * counts in their original order.
   */
  function Insert(x: (string, nat), s: seq<(string, nat)>): (r: seq<(string, nat)>)
    ensures |r| == |s| + 1
  {
    if s == [] then [x]
    else if s[|s| - 1].1 >= x.1 then s + [x]
    else Insert(x, s[..|s| - 1]) + [s[|s| - 1]]
  }

  function SortDesc(items: seq<(string, nat)>): (r: seq<(string, nat)>)
    ensures |r| == |items|
  {
    if items == [] then [] else Insert(items[|items| - 1], SortDesc(items[..|items| - 1]))
  }

  predicate Descending(s: seq<(string, nat)>)
  {
    forall i, j :: 0 <= i < j < |s| ==> s[i].1 >= s[j].1
  }

  /** The entries with count `c`, in order. */
  function WithCount(s: seq<(string, nat)>, c: nat): seq<(string, nat)>
  {
    if s == [] then [] else WithCount(s[..|s| - 1], c) + (if s[|s| - 1].1 == c then [s[|s| - 1]] else [])
  }

  lemma WithCountAppend(s: seq<(string, nat)>, t: seq<(string, nat)>, c: nat)
    ensures WithCount(s + t, c) == WithCount(s, c) + WithCount(t, c)
    decreases |t|
  {
    if t != [] {
      WithCountAppend(s, t[..|t| - 1], c);
      assert (s + t)[..|s + t| - 1] == s + t[..|t| - 1];
    } else {
      assert s + t == s;
    }
  }

  lemma {:induction false} InsertPerm(x: (string, nat), s: seq<(string, nat)>)
    ensures multiset(Insert(x, s)) == multiset(s) + multiset{x}
  {
    if s != [] {
      var init := s[..|s| - 1];
      assert s == init + [s[|s| - 1]];
      if s[|s| - 1].1 < x.1 {
        InsertPerm(x, init);
      }
    }
  }

  lemma {:induction false} InsertStable(x: (string, nat), s: seq<(string, nat)>, c: nat)
    ensures WithCount(Insert(x, s), c) == WithCount(s, c) + WithCount([x], c)
  {
    if s != [] {
      var init := s[..|s| - 1];
      var last := s[|s| - 1];
      assert s == init + [last];
      if last.1 >= x.1 {
        WithCountAppend(s, [x], c);
      } else {
        InsertStable(x, init, c);
        WithCountAppend(Insert(x, init), [last], c);
        WithCountAppend(init, [last], c);
      }
    }
  }

  lemma {:induction false} InsertMembers(x: (string, nat), s: seq<(string, nat)>)
    ensures forall y :: y in Insert(x, s) ==> y == x || y in s
  {
    if s != [] && s[|s| - 1].1 < x.1 {
      InsertMembers(x, s[..|s| - 1]);
    }
  }

  lemma {:induction false} InsertSorted(x: (string, nat), s: seq<(string, nat)>)
    requires Descending(s)
    ensures Descending(Insert(x, s))
  {
    if s != [] {
      var init := s[..|s| - 1];
      var last := s[|s| - 1];
      if last.1 < x.1 {
        assert Descending(init) by {
          forall i, j | 0 <= i < j < |init|
            ensures init[i].1 >= init[j].1
          {
            assert init[i] == s[i] && init[j] == s[j];
          }
        }
        InsertSorted(x, init);
        InsertMembers(x, init);
        var r0 := Insert(x, init);
        var r := r0 + [last];
        forall i, j | 0 <= i < j < |r|
          ensures r[i].1 >= r[j].1
        {
          if j == |r0| {
            assert r0[i] in r0;
            if r0[i] != x {
              var p :| 0 <= p < |init| && init[p] == r0[i];
              assert s[p] == init[p];
            }
          } else {
            assert r[i] == r0[i] && r[j] == r0[j];
          }
        }
      } else {
        var r := s + [x];
        forall i, j | 0 <= i < j < |r|
          ensures r[i].1 >= r[j].1
        {
          if j < |s| {
            assert r[i] == s[i] && r[j] == s[j];
          } else if i < |s| - 1 {
            assert r[i] == s[i];
          }
        }
      }
    }
  }

  lemma {:induction false} SortDescPerm(items: seq<(string, nat)>)
    ensures multiset(SortDesc(items)) == multiset(items)
  {
    if items != [] {
      var init := items[..|items| - 1];
      SortDescPerm(init);
      InsertPerm(items[|items| - 1], SortDesc(init));
      assert items == init + [items[|items| - 1]];
    }
  }

  lemma {:induction false} SortDescDescending(items: seq<(string, nat)>)
    ensures Descending(SortDesc(items))
  {
    if items != [] {
      var init := items[..|items| - 1];
      SortDescDescending(init);
      InsertSorted(items[|items| - 1], SortDesc(init));
    }
  }

  lemma {:induction false} SortDescStable(items: seq<(string, nat)>, c: nat)
    ensures WithCount(SortDesc(items), c) == WithCount(items, c)
  {
    if items != [] {
      var init := items[..|items| - 1];
      var x := items[|items| - 1];
      SortDescStable(init, c);
      InsertStable(x, SortDesc(init), c);
      WithCountAppend(init, [x], c);
      assert items == init + [x];
    }
  }

  /**
   * The ranking is a permutation of the counted entities, by count
   * descending, with equal counts in first-seen order.
   */
  lemma SortDescRanks(items: seq<(string, nat)>)
    ensures multiset(SortDesc(items)) == multiset(items)
    ensures Descending(SortDesc(items))
    ensures forall c :: WithCount(SortDesc(items), c) == WithCount(items, c)
  {
    SortDescPerm(items);
    SortDescDescending(items);
    forall c
      ensures WithCount(SortDesc(items), c) == WithCount(items, c)
    {
      SortDescStable(items, c);
    }
  }

  /** The names of the (at most) ten most frequent entities. */
  function TopEntities(docs: seq<Doc>): (r: seq<string>)
    ensures |r| <= 10
  {
    Names(PyPrefix(SortDesc(Tally(Flatten(docs))), 10))
  }

  /** `get_global_entities`. */
  function GlobalEntitiesText(docs: seq<Doc>): (r: string)
    ensures TopEntities(docs) == [] ==> r == NoEntities
    ensures TopEntities(docs) != [] ==> r == Join(TopEntities(docs), ", ")
  {
    var top := TopEntities(docs);
    if top != [] then Join(top, ", ") else NoEntities
  }

  /**
   * No entity left out of the top ten occurs more often than one in it, and
   * the fallback text appears only when no document has an entity.
   */
  lemma TopAreMostFrequent(docs: seq<Doc>, i: nat, j: nat)
    requires var ranked := SortDesc(Tally(Flatten(docs)));
      i < 10 && 10 <= j < |ranked|
    ensures var ranked := SortDesc(Tally(Flatten(docs)));
      ranked[i].1 >= ranked[j].1 && ranked[i].0 == TopEntities(docs)[i]
  {
    SortDescRanks(Tally(Flatten(docs)));
  }

  lemma TopEmptyIffNoEntities(docs: seq<Doc>)
    ensures TopEntities(docs) == [] <==> Flatten(docs) == []
  {
    var xs := Flatten(docs);
    TallyCounts(xs);
    FirstSeenMembers(xs);
    if xs != [] {
      assert xs[0] in FirstSeen(xs);
    }
  }

  /** The two accumulation loops of `get_global_entities`, then the ranking. */
  method GlobalEntities(docs: seq<Doc>) returns (text: string)
    ensures text == GlobalEntitiesText(docs)
  {
    var allEntities: seq<string> := [];
    for i := 0 to |docs|
      invariant allEntities == Flatten(docs[..i])
    {
      assert docs[..i + 1][..i] == docs[..i];
      allEntities := allEntities + docs[i].meta.entities;
    }
    assert docs[..|docs|] == docs;
    var entityCounts: seq<(string, nat)> := [];
    for i := 0 to |allEntities|
      invariant entityCounts == Tally(allEntities[..i])
    {
      assert allEntities[..i + 1][..i] == allEntities[..i];
      entityCounts := Bump(entityCounts, allEntities[i]);
    }
    assert allEntities[..|allEntities|] == allEntities;
    var sortedEntities := SortDesc(entityCounts);
    var topEntities := Names(PyPrefix(sortedEntities, 10));
    text := if topEntities != [] then Join(topEntities, ", ") else NoEntities;
  }

  // ---------------------------------------------------------------------
  // Key points and highlights (lines 401-421, 481)

  datatype Outputs = Outputs(summary: string, keyPoints: Value, highlights: seq<string>)

  /**
   * The key-point chain's text parsed with the strict pattern (a '.' or ')'
   * must follow the number) and wrapped as `{"points": ...}`; the highlight
   * chain's text split into its non-blank stripped lines.
   */
  function Finish(summary: string, keyPointsText: string, highlightsText: string): (r: Outputs)
    ensures r.summary == summary
  {
    Outputs(summary,
            Obj([("points", Obj(KeyPoints.KeyPoints(keyPointsText, true)))]),
            KeyPoints.Highlights(highlightsText))
  }

  /**
   * The key points are `{"points": d}`, non-empty iff the text has a
   * non-blank line.
   */
  lemma FinishParsed(summary: string, keyPointsText: string, highlightsText: string)
    ensures var r := Finish(summary, keyPointsText, highlightsText);
      r.keyPoints.Obj? && Keys(r.keyPoints.fields) == ["points"] &&
      Get(r.keyPoints.fields, "points").Some? &&
      Get(r.keyPoints.fields, "points").value.Obj? &&
      (Get(r.keyPoints.fields, "points").value.fields != [] <==>
        exists i :: 0 <= i < |KeyPoints.Lines(keyPointsText)| && Strip(KeyPoints.Lines(keyPointsText)[i]) != [])
  {
    KeyPoints.KeyPointsNonEmpty(keyPointsText, true);
  }
}
