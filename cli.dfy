/**
 * The command-line client: its episode-index parser and the body of its
 * `/process-podcast` request. The HTTP call and the printing are not modelled.
 */
module Cli {
  import opened Wrappers
  import opened Json
  import opened EpisodeIndices

  /** The feed processed when no feed URL is given. */
  const DefaultFeedUrl: string := "https://feeds.buzzsprout.com/1459246.rss"

  /**
   * `parse_episode_indices` of the CLI: `None` for a falsy argument; otherwise
   * the increasing list of exactly the selected values, which may be empty.
   */
  function Indices(a: Arg): (r: Option<seq<int>>)
    ensures r.None? <==> !ArgTruthy(a)
    ensures r.Some? ==> StrictlyIncreasing(r.value) && forall v :: v in r.value <==> Chosen(ArgParts(a), v)
  {
    if !ArgTruthy(a) then None else Some(SortedIndices(ArgParts(a)))
  }

  method ParseEpisodeIndices(a: Arg) returns (r: Option<seq<int>>)
    ensures r == Indices(a)
  {
    if !ArgTruthy(a) {
      return None;
    }
    var result := CollectIndices(ArgParts(a));
    r := Some(SortedUnique(result));
  }

  /** `parse_episode_indices(x) if x else None` for an optional argument. */
  function ParsedArg(indices: Option<Arg>): (r: Option<seq<int>>)
    ensures r.Some? <==> indices.Some? && ArgTruthy(indices.value)
  {
    if indices.Some? && ArgTruthy(indices.value) then Indices(indices.value) else None
  }

  /** The request body `test_podcast_processing` posts; a missing feed URL becomes the default feed. */
  method TestPodcastProcessing(feedUrl: Option<string>, limit: int, indices: Option<Arg>, splitSizeMb: real,
                               includeTranscription: bool) returns (payload: Dict)
    ensures DescribesRequest(payload, Str(feedUrl.GetOr(DefaultFeedUrl)), limit, ParsedArg(indices),
                             splitSizeMb, includeTranscription)
  {
    var url := if feedUrl.None? then DefaultFeedUrl else feedUrl.value;
    var parsed: Option<seq<int>> := None;
    if indices.Some? && ArgTruthy(indices.value) {
      parsed := ParseEpisodeIndices(indices.value);
    }
    payload := BuildRequest(Str(url), limit, parsed, splitSizeMb, includeTranscription);
  }

  /** The body asks for exactly the episodes the argument selects. */
  lemma RequestAsksForSelection(payload: Dict, feedUrl: Value, limit: int, indices: Option<Arg>,
                                splitSizeMb: real, includeTranscription: bool, v: int)
    requires DescribesRequest(payload, feedUrl, limit, ParsedArg(indices), splitSizeMb, includeTranscription)
    ensures Requests(payload, v) <==> indices.Some? && Chosen(ArgParts(indices.value), v)
  {
    var parsed := ParsedArg(indices);
    if parsed.Some? && parsed.value != [] {
      IntsHas(parsed.value, v);
    }
  }
}
