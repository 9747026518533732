/**
 * `processors/summarization.py`: the method check of `summarize`, the
 * result record and its dict form, and the rules `analyze_transcript_features`
 * uses to recommend chunk settings and a method. The regex scans of the
 * transcript are inputs: the distinct matches of each speaker pattern and
 * the match count of each technical-term pattern.
 */
module Summarization {
  import opened Wrappers
  import opened Json

  /** The keys of `AVAILABLE_METHODS`: only "langchain" is registered. */
  const AvailableMethods: seq<string> := ["langchain"]

  // ---------------------------------------------------------------------
  // The result record

  datatype SummaryResult = SummaryResult(
    summary: string, keyPoints: Value, highlights: seq<string>, methodName: string, executionTime: real)

  /** `SummaryResult.to_dict`. */
  function ToDict(r: SummaryResult): (d: Dict)
    ensures Keys(d) == ["summary", "key_points", "highlights", "metadata"]
  {
    [("summary", Str(r.summary)),
     ("key_points", r.keyPoints),
     ("highlights", Strs(r.highlights)),
     ("metadata", Obj([("method", Str(r.methodName)), ("execution_time_seconds", Float(r.executionTime))]))]
  }

  /** Reads a result back from its dict form. */
  function FromDict(d: Dict): (r: Option<SummaryResult>)
  {
    var summary, keyPoints, hs, meta := Get(d, "summary"), Get(d, "key_points"), Get(d, "highlights"), Get(d, "metadata");
    if summary.Some? && summary.value.Str? && keyPoints.Some? && hs.Some? && meta.Some? && meta.value.Obj? then
      var highlights := AsStrs(hs.value);
      var m, t := Get(meta.value.fields, "method"), Get(meta.value.fields, "execution_time_seconds");
      if highlights.Some? && m.Some? && m.value.Str? && t.Some? && t.value.Float? then
        Some(SummaryResult(summary.value.s, keyPoints.value, highlights.value, m.value.s, t.value.f))
      else None
    else None
  }

  /** The dict form loses nothing: every field can be read back. */
  lemma ToDictRoundTrip(r: SummaryResult)
    ensures FromDict(ToDict(r)) == Some(r)
  {
    var d := ToDict(r);
    assert Get(d, "summary") == Some(Str(r.summary));
    assert Get(d, "key_points") == Some(r.keyPoints) by {
      assert d[1..][0].0 == "key_points";
    }
    assert Get(d, "highlights") == Some(Strs(r.highlights)) by {
      assert d[1..][1..][0].0 == "highlights";
    }
    var meta := [("method", Str(r.methodName)), ("execution_time_seconds", Float(r.executionTime))];
    assert Get(d, "metadata") == Some(Obj(meta)) by {
      var tail := d[1..][1..];
      assert Get(d, "metadata") == Get(tail, "metadata");
      assert tail[0].0 != "metadata" && tail[1..][0].0 == "metadata";
    }
    assert Get(meta, "execution_time_seconds") == Some(Float(r.executionTime)) by {
      assert meta[1..][0].0 == "execution_time_seconds";
    }
    AsStrsStrs(r.highlights);
  }

  // ---------------------------------------------------------------------
  // summarize (lines 68-146)

  /** What a summarizer's `summarize_sync` returns. */
  datatype Output = Output(summary: string, keyPointsDict: Dict, highlights: seq<string>)

  /** The chunk size and overlap handed to the summarizer: quarters for "llamaindex". */
  function CallSizes(methodName: string, chunkSize: int, chunkOverlap: int): (r: (int, int))
    ensures methodName == "llamaindex" ==>
      r.0 * 4 <= chunkSize < r.0 * 4 + 4 && r.1 * 4 <= chunkOverlap < r.1 * 4 + 4
    ensures methodName != "llamaindex" ==> r == (chunkSize, chunkOverlap)
  {
    if methodName == "llamaindex" then (chunkSize / 4, chunkOverlap / 4) else (chunkSize, chunkOverlap)
  }

  /**
   * `summarize`; `run` stands for the registered summarizer's call with the
   * given sizes and `elapsed` for the measured time.
   */
  function Summarize(methodName: string, chunkSize: int, chunkOverlap: int,
                     run: (int, int) -> Output, elapsed: real): (r: Result<SummaryResult>)
    ensures methodName !in AvailableMethods ==>
      r == Err("Method '" + methodName + "' is not available. Choose from: langchain")
    ensures r.Ok? ==> methodName == "langchain"
    ensures r.Ok? ==> r.value.methodName == methodName && r.value.executionTime == elapsed
    ensures r.Ok? ==> var out := run(chunkSize, chunkOverlap);
      r.value.summary == out.summary && r.value.highlights == out.highlights &&
      Get(out.keyPointsDict, "points") == Some(r.value.keyPoints)
    ensures methodName in AvailableMethods && Get(run(chunkSize, chunkOverlap).keyPointsDict, "points").None? ==> r.Err?
  {
    if methodName !in AvailableMethods then
      Err("Method '" + methodName + "' is not available. Choose from: langchain")
    else
      var sizes := CallSizes(methodName, chunkSize, chunkOverlap);
      var out := run(sizes.0, sizes.1);
      match Get(out.keyPointsDict, "points")
      case None => Err("KeyError: 'points'")
      case Some(points) => Ok(SummaryResult(out.summary, points, out.highlights, methodName, elapsed))
  }

  /** The default method "ensemble" (and "llamaindex", "spacy") always raise. */
  lemma DefaultMethodRaises(chunkSize: int, chunkOverlap: int, run: (int, int) -> Output, elapsed: real, m: string)
    requires m == "ensemble" || m == "llamaindex" || m == "spacy"
    ensures Summarize(m, chunkSize, chunkOverlap, run, elapsed).Err?
  {
  }

  // ---------------------------------------------------------------------
  // analyze_transcript_features and get_recommended_settings (lines 148-299)

  /** `found[i]` is the first non-empty entry. */
  predicate FirstNonEmpty(found: seq<set<string>>, i: nat)
  {
    i < |found| && found[i] != {} && forall j :: 0 <= j < i ==> found[j] == {}
  }

  /** The first speaker pattern with matches, and how many distinct matches it has. */
  function SpeakerInfo(found: seq<set<string>>): (r: (bool, nat))
    ensures r.0 <==> exists i :: 0 <= i < |found| && found[i] != {}
    ensures !r.0 ==> r.1 == 0
    ensures r.0 ==> exists i :: 0 <= i < |found| && found[i] != {} && r.1 == |found[i]| && FirstNonEmpty(found, i)
  {
    if found == [] then (false, 0)
    else if found[0] != {} then (true, |found[0]|)
    else
      var r := SpeakerInfo(found[1..]);
      assert forall i :: 0 <= i < |found[1..]| ==> found[1..][i] == found[i + 1];
      if r.0 then
        var i :| 0 <= i < |found[1..]| && found[1..][i] != {} && r.1 == |found[1..][i]| && FirstNonEmpty(found[1..], i);
        assert FirstNonEmpty(found, i + 1) by {
          forall j | 0 <= j < i + 1
            ensures found[j] == {}
          {
            if j > 0 {
              assert found[j] == found[1..][j - 1];
            }
          }
        }
        r
      else r
  }

  function Sum(xs: seq<nat>): nat
  {
    if xs == [] then 0 else Sum(xs[..|xs| - 1]) + xs[|xs| - 1]
  }

  /** `technical_term_count / word_count`, or 0 without words. */
  function TechnicalDensity(termCount: nat, wordCount: nat): real
  {
    if wordCount > 0 then termCount as real / wordCount as real else 0.0
  }

  /** The transcript is technical iff more than one word in a hundred is a technical term. */
  lemma TechnicalIff(termCount: nat, wordCount: nat)
    ensures TechnicalDensity(termCount, wordCount) > 0.01 <==> wordCount > 0 && termCount * 100 > wordCount
  {
    if wordCount > 0 {
      DivAbove(termCount as real, wordCount as real, 0.01);
    }
  }

  lemma DivAbove(x: real, w: real, c: real)
    requires w > 0.0
    ensures x / w > c <==> x > c * w
  {
    var q := x / w;
    assert q * w == x;
    if q > c {
      MulMonotone(c, q, w);
    } else {
      MulMonotone(q, c, w);
    }
  }

  lemma MulMonotone(a: real, b: real, w: real)
    requires w > 0.0 && a <= b
    ensures a * w <= b * w && (a < b ==> a * w < b * w)
  {
  }

  /** The recommended (chunk size, overlap), by transcript length. */
  function RecommendedChunks(length: nat): (r: (int, int))
    ensures length > 100000 ==> r == (6000, 800)
    ensures 50000 < length <= 100000 ==> r == (5000, 600)
    ensures length <= 50000 ==> r == (4000, 500)
  {
    if length > 100000 then (6000, 800)
    else if length > 50000 then (5000, 600)
    else (4000, 500)
  }

  /** Longer transcripts never get smaller chunks or overlaps, and overlap stays below a chunk. */
  lemma RecommendedChunksMonotone(a: nat, b: nat)
    requires a <= b
    ensures RecommendedChunks(a).0 <= RecommendedChunks(b).0
    ensures RecommendedChunks(a).1 <= RecommendedChunks(b).1
    ensures 0 < RecommendedChunks(a).1 < RecommendedChunks(a).0
  {
  }

  /** The recommended method and its reason. */
  function RecommendedMethod(hasSpeakers: bool, speakerCount: nat, length: nat, isTechnical: bool): (r: (string, string))
    ensures r.0 == "spacy" <==> hasSpeakers && speakerCount >= 2
    ensures r.0 == "llamaindex" <==> !(hasSpeakers && speakerCount >= 2) && length > 50000
    ensures r.0 == "ensemble" <==> !(hasSpeakers && speakerCount >= 2) && length <= 50000 && isTechnical
    ensures r.0 == "langchain" <==> !(hasSpeakers && speakerCount >= 2) && length <= 50000 && !isTechnical
  {
    if hasSpeakers && speakerCount >= 2 then ("spacy", "Speaker annotations detected with multiple speakers")
    else if length > 50000 then ("llamaindex", "Long transcript detected")
    else if isTechnical then ("ensemble", "Technical content detected, multiple methods may provide better results")
    else ("langchain", "Standard transcript")
  }

  datatype Features = Features(
    length: nat, wordCount: nat,
    hasSpeakerAnnotations: bool, speakerCount: nat,
    technicalTermCount: nat, technicalDensity: real, isTechnical: bool,
    recommendedChunkSize: int, recommendedChunkOverlap: int,
    recommendedMethod: string, methodReason: string)

  /** The features the recommendation reads, from the scan results. */
  function FeaturesOf(length: nat, wordCount: nat, speakerMatches: seq<set<string>>, termMatches: seq<nat>): Features
  {
    var (has, count) := SpeakerInfo(speakerMatches);
    var terms := Sum(termMatches);
    var density := TechnicalDensity(terms, wordCount);
    var chunks := RecommendedChunks(length);
    var m := RecommendedMethod(has, count, length, density > 0.01);
    Features(length, wordCount, has, count, terms, density, density > 0.01, chunks.0, chunks.1, m.0, m.1)
  }

  /**
   * `analyze_transcript_features`: the speaker loop stops at the first
   * pattern with matches; the term loop adds up every pattern's matches.
   */
  method AnalyzeFeatures(length: nat, wordCount: nat, speakerMatches: seq<set<string>>, termMatches: seq<nat>)
    returns (features: Features)
    ensures features == FeaturesOf(length, wordCount, speakerMatches, termMatches)
  {
    var hasSpeakers := false;
    var speakerCount := 0;
    var p := 0;
    while p < |speakerMatches|
      invariant 0 <= p <= |speakerMatches|
      invariant SpeakerInfo(speakerMatches) == if hasSpeakers then (true, speakerCount) else SpeakerInfo(speakerMatches[p..])
      invariant !hasSpeakers ==> speakerCount == 0
      decreases |speakerMatches| - p, if hasSpeakers then 0 else 1
    {
      assert speakerMatches[p..][1..] == speakerMatches[p + 1..];
      if speakerMatches[p] != {} {
        hasSpeakers := true;
        speakerCount := if speakerCount < |speakerMatches[p]| then |speakerMatches[p]| else speakerCount;
        break;
      }
      p := p + 1;
    }
    var termCount := 0;
    for i := 0 to |termMatches|
      invariant termCount == Sum(termMatches[..i])
    {
      assert termMatches[..i + 1][..i] == termMatches[..i];
      termCount := termCount + termMatches[i];
    }
    assert termMatches[..|termMatches|] == termMatches;
    var density := TechnicalDensity(termCount, wordCount);
    var chunks := RecommendedChunks(length);
    var m := RecommendedMethod(hasSpeakers, speakerCount, length, density > 0.01);
    features := Features(length, wordCount, hasSpeakers, speakerCount, termCount, density, density > 0.01,
                         chunks.0, chunks.1, m.0, m.1);
  }

  /** `get_recommended_settings`: the three recommended values. */
  function RecommendedSettings(f: Features): (r: (string, int, int))
    ensures r.0 == f.recommendedMethod && r.1 == f.recommendedChunkSize && r.2 == f.recommendedChunkOverlap
  {
    (f.recommendedMethod, f.recommendedChunkSize, f.recommendedChunkOverlap)
  }

  /**
   * The recommended method follows the priority speakers, length, technical
   * content; "llamaindex" comes with chunks of at least 5000 characters, and
   * "ensemble" only when more than one word in a hundred is technical.
   */
  lemma RecommendationPriority(length: nat, wordCount: nat, speakerMatches: seq<set<string>>, termMatches: seq<nat>)
    ensures var f := FeaturesOf(length, wordCount, speakerMatches, termMatches);
      (f.recommendedMethod == "spacy" <==> f.hasSpeakerAnnotations && f.speakerCount >= 2) &&
      (f.recommendedMethod == "llamaindex" ==> f.recommendedChunkSize >= 5000) &&
      (f.recommendedMethod == "ensemble" ==> wordCount > 0 && Sum(termMatches) * 100 > wordCount)
  {
    TechnicalIff(Sum(termMatches), wordCount);
  }
}
