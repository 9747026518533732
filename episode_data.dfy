/**
 * Episode selection for processing: the stored episodes of a podcast are
 * narrowed by 1-based indices, by a start episode and count, or by a limit,
 * and each becomes a record; when that yields nothing, the feed-download path
 * is used instead. The database list, the downloaded files and `uuid4` come
 * in as parameters.
 */
module EpisodeData {
  import opened Wrappers
  import opened Json
  import opened Strings
  import opened FeedProcessor

  // ---------------------------------------------------------------------
  // filter_episodes

  /** `start_idx` of the start mode: `max(0, start - 1)`, reset to 0 when past the end. */
  function StartIndex(n: nat, start: int): nat
  {
    var s := if start - 1 > 0 then start - 1 else 0;
    if s >= n then 0 else s
  }

  /** `end_idx` of the start mode: the end, or `min(start_idx + count, n)` when a count is given. */
  function EndIndex(n: nat, startIdx: nat, count: Option<int>): int
  {
    match count
    case None => n
    case Some(c) => if startIdx + c < n then startIdx + c else n
  }

  /** `filter_episodes`: indices, else start/count, else a truthy limit, else everything. */
  function Filter<T>(episodes: seq<T>, request: FeedRequest): seq<T>
  {
    if HasIndices(request) then ByIndex(episodes, request.episodeIndices.value)
    else if request.startEpisode.Some? then
      var lo := StartIndex(|episodes|, request.startEpisode.value);
      PySlice(episodes, lo, EndIndex(|episodes|, lo, request.episodeCount))
    else if HasLimit(request) then PyPrefix(episodes, request.limitEpisodes.value)
    else episodes
  }

  method FilterEpisodes<T>(episodes: seq<T>, request: FeedRequest) returns (selected: seq<T>)
    ensures selected == Filter(episodes, request)
  {
    if HasIndices(request) {
      selected := SelectByIndex(episodes, request.episodeIndices.value);
      return;
    } else if request.startEpisode.Some? {
      var startIdx := StartIndex(|episodes|, request.startEpisode.value);
      var endIdx := EndIndex(|episodes|, startIdx, request.episodeCount);
      return PySlice(episodes, startIdx, endIdx);
    } else if HasLimit(request) {
      return PyPrefix(episodes, request.limitEpisodes.value);
    }
    return episodes;
  }

  function Min(a: int, b: int): int { if a < b then a else b }

  /**
   * Index mode: the episodes at the in-range 1-based indices, in request
   * order with repeats kept; never more episodes than indices.
   */
  lemma IndexMode<T>(episodes: seq<T>, request: FeedRequest)
    requires HasIndices(request)
    ensures var r, inRange := Filter(episodes, request), InRange(|episodes|, request.episodeIndices.value);
      |r| == |inRange| && |r| <= |request.episodeIndices.value| &&
      forall j :: 0 <= j < |r| ==> r[j] == episodes[inRange[j] - 1]
  {
    assert Filter(episodes, request) == ByIndex(episodes, request.episodeIndices.value);
    ByIndexSelects(episodes, request.episodeIndices.value);
  }

  /**
   * Start mode: a contiguous run beginning at episode `start` (at the first
   * episode when `start` is not a valid position), to the end or for `count`
   * episodes.
   */
  lemma StartMode<T>(episodes: seq<T>, request: FeedRequest)
    requires !HasIndices(request) && request.startEpisode.Some?
    ensures var s := request.startEpisode.value;
      var lo := if 1 <= s <= |episodes| then s - 1 else 0;
      (request.episodeCount.None? ==> Filter(episodes, request) == episodes[lo..]) &&
      (request.episodeCount.Some? && request.episodeCount.value >= 0 ==>
        Filter(episodes, request) == episodes[lo..Min(lo + request.episodeCount.value, |episodes|)])
  {
    var s := request.startEpisode.value;
    var lo := StartIndex(|episodes|, s);
    assert lo == if 1 <= s <= |episodes| then s - 1 else 0;
    if lo == |episodes| {
      assert episodes[lo..] == [];
    }
  }

  /** Limit mode: a positive limit keeps a prefix; a missing or zero limit keeps every episode. */
  lemma LimitMode<T>(episodes: seq<T>, request: FeedRequest)
    requires !HasIndices(request) && request.startEpisode.None?
    ensures request.limitEpisodes.Some? && request.limitEpisodes.value > 0 ==>
      Filter(episodes, request) == episodes[..Min(request.limitEpisodes.value, |episodes|)]
    ensures !HasLimit(request) ==> Filter(episodes, request) == episodes
  {
  }

  /**
   * Precedence: non-empty indices decide alone; otherwise a start episode
   * decides and the limit is ignored.
   */
  lemma Precedence<T>(episodes: seq<T>, request: FeedRequest, start: Option<int>, count: Option<int>, limit: Option<int>)
    ensures HasIndices(request) ==>
      Filter(episodes, request.(startEpisode := start, episodeCount := count, limitEpisodes := limit)) == Filter(episodes, request)
    ensures !HasIndices(request) && request.startEpisode.Some? ==>
      Filter(episodes, request.(limitEpisodes := limit)) == Filter(episodes, request)
  {
  }

  /** Without a start episode, the feed path keeps exactly the files `filter_episodes` would. */
  lemma FeedSelectionAgrees(request: FeedRequest, files: seq<string>)
    requires request.startEpisode.None?
    ensures SelectFiles(request, files) == Filter(files, request)
  {
    if HasIndices(request) && files == [] {
      ByIndexOfNothing(files, request.episodeIndices.value);
    }
  }

  // ---------------------------------------------------------------------
  // get_episode_data

  /** The dict built from a stored episode, keys in the order written. */
  datatype EpisodeRecord = EpisodeRecord(
    id: Value,
    podcastId: string,
    title: Value,
    publishedDate: Value,
    audioUrl: Value,
    transcriptUrl: Value,
    publisherTranscriptUrl: Value)

  /** What `get_episode_data` returns: stored episodes, or the records of the feed path. */
  datatype Episodes = Stored(records: seq<EpisodeRecord>) | Downloaded(files: seq<FileEpisode>)

  /** `"id" not in episode or not episode["id"]`. */
  predicate NeedsId(episode: Dict)
  {
    !HasKey(episode, "id") || !Truthy(Get(episode, "id").value)
  }

  /** The stored episode after a missing or empty id has been replaced by a fresh one. */
  function WithId(episode: Dict, newId: string): Dict
  {
    if NeedsId(episode) then Put(episode, "id", Str(newId)) else episode
  }

  /** The record for one stored episode, with the defaults of the `.get` calls. */
  function StoredRecord(episode: Dict, podcastId: string, newId: string): EpisodeRecord
  {
    var e := WithId(episode, newId);
    EpisodeRecord(
      GetOr(e, "id", Null),
      podcastId,
      GetOr(e, "title", Str("Unknown Episode")),
      GetOr(e, "published_at", Null),
      GetOr(e, "audio_url", Str("")),
      GetOr(e, "transcript_url", Null),
      GetOr(e, "publisher_transcript_url", Null))
  }

  /** `f` applied to each element and its position, in order. */
  function Indexed<A, B>(xs: seq<A>, f: (A, nat) -> B): (r: seq<B>)
    ensures |r| == |xs|
  {
    if xs == [] then [] else Indexed(xs[..|xs| - 1], f) + [f(xs[|xs| - 1], |xs| - 1)]
  }

  /** Element `k` of `Indexed`, by induction on the length. */
  lemma {:induction false} IndexedAt<A, B>(xs: seq<A>, f: (A, nat) -> B, k: nat)
    requires k < |xs|
    ensures Indexed(xs, f)[k] == f(xs[k], k)
  {
    var n := |xs| - 1;
    if k < n {
      IndexedAt(xs[..n], f, k);
      assert xs[..n][k] == xs[k];
    }
  }

  /** One record per episode, in order, the k-th offered the k-th generated id. */
  function StoredRecords(episodes: seq<Dict>, podcastId: string, ids: nat -> string): (r: seq<EpisodeRecord>)
    ensures |r| == |episodes|
  {
    Indexed(episodes, (e: Dict, i: nat) => StoredRecord(e, podcastId, ids(i)))
  }

  lemma StoredRecordsAt(episodes: seq<Dict>, podcastId: string, ids: nat -> string)
    ensures forall k :: 0 <= k < |episodes| ==>
      StoredRecords(episodes, podcastId, ids)[k] == StoredRecord(episodes[k], podcastId, ids(k))
  {
    forall k | 0 <= k < |episodes|
      ensures StoredRecords(episodes, podcastId, ids)[k] == StoredRecord(episodes[k], podcastId, ids(k))
    {
      IndexedAt(episodes, (e: Dict, i: nat) => StoredRecord(e, podcastId, ids(i)), k);
    }
  }

  /** The result of `get_episode_data`: the stored path when it yields records, else the feed path. */
  function EpisodeDataOf(request: FeedRequest, podcastId: Option<string>, stored: seq<Dict>,
                         files: seq<string>, ids: nat -> string): Episodes
  {
    var records :=
      if podcastId.Some? && podcastId.value != [] && stored != [] then
        StoredRecords(Filter(stored, request), podcastId.value, ids)
      else [];
    if records != [] then Stored(records) else Downloaded(FromFeed(request, files, ids))
  }

  /** The record loop over the filtered stored episodes. */
  method BuildStoredRecords(episodes: seq<Dict>, podcastId: string, ids: nat -> string)
    returns (records: seq<EpisodeRecord>)
    ensures records == StoredRecords(episodes, podcastId, ids)
  {
    records := [];
    for k := 0 to |episodes|
      invariant records == StoredRecords(episodes[..k], podcastId, ids)
    {
      assert episodes[..k + 1][..k] == episodes[..k];
      var episode := episodes[k];
      if !HasKey(episode, "id") || !Truthy(Get(episode, "id").value) {
        episode := Put(episode, "id", Str(ids(k)));
      }
      records := records + [EpisodeRecord(
        GetOr(episode, "id", Null),
        podcastId,
        GetOr(episode, "title", Str("Unknown Episode")),
        GetOr(episode, "published_at", Null),
        GetOr(episode, "audio_url", Str("")),
        GetOr(episode, "transcript_url", Null),
        GetOr(episode, "publisher_transcript_url", Null))];
    }
    assert episodes[..|episodes|] == episodes;
  }

  /**
   * `get_episode_data`: `stored` is what the episode table lists for the
   * podcast (read only when `podcastId` is truthy), `files` what the feed
   * download produces.
   */
  method GetEpisodeData(request: FeedRequest, podcastId: Option<string>, stored: seq<Dict>,
                        files: seq<string>, ids: nat -> string) returns (data: Episodes)
    ensures data == EpisodeDataOf(request, podcastId, stored, files, ids)
  {
    var records: seq<EpisodeRecord> := [];
    if podcastId.Some? && podcastId.value != [] {
      if stored != [] {
        var selected := FilterEpisodes(stored, request);
        records := BuildStoredRecords(selected, podcastId.value, ids);
      }
    }
    if records == [] {
      var downloaded := DownloadEpisodesFromFeed(request, files, ids);
      return Downloaded(downloaded);
    }
    return Stored(records);
  }

  /**
   * Every stored record carries the given podcast id, a truthy id (the
   * episode's own when it had one), and the title and audio URL defaults.
   */
  lemma StoredRecordFields(episode: Dict, podcastId: string, newId: string)
    requires newId != []
    ensures var r := StoredRecord(episode, podcastId, newId);
      r.podcastId == podcastId && Truthy(r.id) &&
      (!NeedsId(episode) ==> Some(r.id) == Get(episode, "id")) &&
      (NeedsId(episode) ==> r.id == Str(newId)) &&
      (!HasKey(episode, "title") ==> r.title == Str("Unknown Episode")) &&
      (!HasKey(episode, "audio_url") ==> r.audioUrl == Str("")) &&
      (HasKey(episode, "title") ==> Some(r.title) == Get(episode, "title"))
  {
  }

  /** The feed path runs exactly when the stored path yields no record. */
  lemma FallsBackToFeed(request: FeedRequest, podcastId: Option<string>, stored: seq<Dict>,
                        files: seq<string>, ids: nat -> string)
    ensures EpisodeDataOf(request, podcastId, stored, files, ids).Downloaded? <==>
      (podcastId.None? || podcastId.value == [] || Filter(stored, request) == [])
    ensures EpisodeDataOf(request, podcastId, stored, files, ids).Stored? ==>
      EpisodeDataOf(request, podcastId, stored, files, ids).records ==
        StoredRecords(Filter(stored, request), podcastId.value, ids)
  {
    if stored == [] {
      assert Filter(stored, request) == [] by {
        if HasIndices(request) {
          ByIndexOfNothing(stored, request.episodeIndices.value);
        }
      }
    }
  }
}
