/**
 * The API test script's `/process-podcast` request. Its
 * `parse_episode_indices` is the same text as the CLI's (`Cli.Indices`); unlike
 * the CLI it passes a missing feed URL on as `None`.
 */
module ApiTest {
  import opened Wrappers
  import opened Json
  import opened EpisodeIndices
  import Cli

  function FeedValue(feedUrl: Option<string>): Value
  {
    if feedUrl.None? then Null else Str(feedUrl.value)
  }

  /** The request body `test_podcast_processing` sends. */
  method TestPodcastProcessing(feedUrl: Option<string>, limit: int, indices: Option<Arg>, splitSizeMb: real,
                               includeTranscription: bool) returns (payload: Dict)
    ensures DescribesRequest(payload, FeedValue(feedUrl), limit, Cli.ParsedArg(indices),
                             splitSizeMb, includeTranscription)
  {
    var parsed: Option<seq<int>> := None;
    if indices.Some? && ArgTruthy(indices.value) {
      parsed := Cli.ParseEpisodeIndices(indices.value);
    }
    payload := BuildRequest(FeedValue(feedUrl), limit, parsed, splitSizeMb, includeTranscription);
  }
}
