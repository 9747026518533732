/**
 * The reusable core of the API test script: its episode-index parser, which
 * returns an empty list rather than `None` for a falsy argument, and its
 * `/process-podcast` request body.
 */
module ApiTestCore {
  import opened Wrappers
  import opened Json
  import opened EpisodeIndices
  import Cli

  /** `parse_episode_indices` of the core: `[]` for a falsy argument, else the selected values in increasing order. */
  function Indices(a: Arg): (r: seq<int>)
    ensures !ArgTruthy(a) ==> r == []
    ensures StrictlyIncreasing(r)
    ensures forall v :: v in r <==> ArgTruthy(a) && Chosen(ArgParts(a), v)
  {
    if !ArgTruthy(a) then [] else SortedIndices(ArgParts(a))
  }

  method ParseEpisodeIndices(a: Arg) returns (r: seq<int>)
    ensures r == Indices(a)
  {
    if !ArgTruthy(a) {
      return [];
    }
    var result := CollectIndices(ArgParts(a));
    r := SortedUnique(result);
  }

  /** The core and the CLI parse alike, except that a falsy argument gives `[]` instead of `None`. */
  lemma AgreesWithCli(a: Arg)
    ensures Indices(a) == Cli.Indices(a).GetOr([])
  {
  }

  function ParsedArg(indices: Option<Arg>): Option<seq<int>>
  {
    if indices.Some? && ArgTruthy(indices.value) then Some(Indices(indices.value)) else None
  }

  /** The request body `process_podcast` sends; a missing feed URL is sent as `None`. */
  method ProcessPodcast(feedUrl: Option<string>, limit: int, indices: Option<Arg>, splitSizeMb: real,
                        includeTranscription: bool) returns (payload: Dict)
    ensures DescribesRequest(payload, if feedUrl.None? then Null else Str(feedUrl.value), limit,
                             ParsedArg(indices), splitSizeMb, includeTranscription)
  {
    var parsed: Option<seq<int>> := None;
    if indices.Some? && ArgTruthy(indices.value) {
      var xs := ParseEpisodeIndices(indices.value);
      parsed := Some(xs);
    }
    var feed := if feedUrl.None? then Null else Str(feedUrl.value);
    payload := BuildRequest(feed, limit, parsed, splitSizeMb, includeTranscription);
  }
}
