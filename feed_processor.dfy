/**
 * The feed-download path of episode selection: the audio files the downloader
 * produced are narrowed by 1-based index or by a limit, and each kept file
 * becomes one episode record. The downloader itself and `uuid4` are outside
 * the model: the file list and the fresh ids come in as parameters.
 */
module FeedProcessor {
  import opened Wrappers
  import opened Json
  import opened Strings

  /** The fields of a `PodcastFeedRequest` that episode selection reads. */
  datatype FeedRequest = FeedRequest(
    feedUrl: string,
    podcastId: Option<string>,
    limitEpisodes: Option<int>,
    episodeIndices: Option<seq<int>>,
    startEpisode: Option<int>,
    episodeCount: Option<int>)

  /** `request.episode_indices` is truthy. */
  predicate HasIndices(request: FeedRequest)
  {
    request.episodeIndices.Some? && request.episodeIndices.value != []
  }

  /** `request.limit_episodes` is truthy. */
  predicate HasLimit(request: FeedRequest)
  {
    request.limitEpisodes.Some? && request.limitEpisodes.value != 0
  }

  // ---------------------------------------------------------------------
  // Selection by 1-based index

  /** What one index picks: the item at that 1-based position, or nothing when out of range. */
  function Pick<T>(items: seq<T>, idx: int): (r: seq<T>)
    ensures |r| <= 1
    ensures r != [] <==> 1 <= idx <= |items|
  {
    if 1 <= idx <= |items| then [items[idx - 1]] else []
  }

  /** The items picked by 1-based index, in request order; an index out of range picks nothing. */
  function ByIndex<T>(items: seq<T>, indices: seq<int>): (r: seq<T>)
    ensures |r| <= |indices|
  {
    if indices == [] then []
    else ByIndex(items, indices[..|indices| - 1]) + Pick(items, indices[|indices| - 1])
  }

  predicate AllInRange(n: nat, indices: seq<int>)
  {
    forall j :: 0 <= j < |indices| ==> 1 <= indices[j] <= n
  }

  /** The indices that are in range for `n` items, in order, repeats kept. */
  function InRange(n: nat, indices: seq<int>): (r: seq<int>)
    ensures |r| <= |indices|
    ensures AllInRange(n, r)
  {
    if indices == [] then []
    else
      var idx := indices[|indices| - 1];
      InRange(n, indices[..|indices| - 1]) + (if 1 <= idx <= n then [idx] else [])
  }

  /** Indices out of range are dropped and nothing else: selection only sees the in-range ones. */
  lemma {:induction false} ByIndexInRange<T>(items: seq<T>, indices: seq<int>)
    ensures ByIndex(items, indices) == ByIndex(items, InRange(|items|, indices))
  {
    if indices != [] {
      var init, idx := indices[..|indices| - 1], indices[|indices| - 1];
      ByIndexInRange(items, init);
      var kept := InRange(|items|, init);
      assert ByIndex(items, indices) == ByIndex(items, init) + Pick(items, idx);
      if 1 <= idx <= |items| {
        var ks := kept + [idx];
        assert InRange(|items|, indices) == ks;
        assert ks[..|ks| - 1] == kept && ks[|ks| - 1] == idx;
        assert ByIndex(items, ks) == ByIndex(items, kept) + Pick(items, idx);
      } else {
        assert Pick(items, idx) == [];
        assert ByIndex(items, init) + [] == ByIndex(items, init);
        assert InRange(|items|, indices) == kept + [];
        assert kept + [] == kept;
      }
    }
  }

  /** Selection by indices: the items at the in-range 1-based indices, in request order, never more than the indices. */
  lemma ByIndexSelects<T>(items: seq<T>, indices: seq<int>)
    ensures |ByIndex(items, indices)| == |InRange(|items|, indices)| <= |indices|
    ensures forall j :: 0 <= j < |InRange(|items|, indices)| ==>
      ByIndex(items, indices)[j] == items[InRange(|items|, indices)[j] - 1]
  {
    var inRange := InRange(|items|, indices);
    var r, q := ByIndex(items, indices), ByIndex(items, inRange);
    ByIndexInRange(items, indices);
    ByIndexExact(items, inRange);
    forall j | 0 <= j < |inRange|
      ensures r[j] == items[inRange[j] - 1]
    {
      SameAt(r, q, j);
    }
  }

  /** Equal sequences agree at every position. */
  lemma SameAt<T>(r: seq<T>, q: seq<T>, j: nat)
    requires r == q && j < |q|
    ensures r[j] == q[j]
  {
  }

  /** With every index in range, the j-th item picked is the item at position `indices[j]`. */
  lemma {:induction false} ByIndexExact<T>(items: seq<T>, indices: seq<int>)
    requires AllInRange(|items|, indices)
    ensures |ByIndex(items, indices)| == |indices|
    ensures forall j :: 0 <= j < |indices| ==> ByIndex(items, indices)[j] == items[indices[j] - 1]
  {
    if indices != [] {
      var init, idx := indices[..|indices| - 1], indices[|indices| - 1];
      assert AllInRange(|items|, init) by {
        assert forall j :: 0 <= j < |init| ==> init[j] == indices[j];
      }
      ByIndexExact(items, init);
      assert 1 <= idx <= |items|;
      var r := ByIndex(items, init);
      var tail := Pick(items, idx);
      assert ByIndex(items, indices) == r + tail;
      assert tail == [items[idx - 1]];
      var all := r + tail;
      forall j | 0 <= j < |indices| ensures all[j] == items[indices[j] - 1] {
        if j < |init| {
          assert all[j] == r[j];
          assert indices[j] == init[j];
        } else {
          assert all[j] == items[idx - 1];
        }
      }
    }
  }

  /** Nothing can be picked from an empty list. */
  lemma {:induction false} ByIndexOfNothing<T>(items: seq<T>, indices: seq<int>)
    requires items == []
    ensures ByIndex(items, indices) == []
  {
    if indices != [] {
      ByIndexOfNothing(items, indices[..|indices| - 1]);
    }
  }

  /** The selection loop: `items[idx - 1]` appended for each in-range `idx`. */
  method SelectByIndex<T>(items: seq<T>, indices: seq<int>) returns (selected: seq<T>)
    ensures selected == ByIndex(items, indices)
  {
    selected := [];
    for k := 0 to |indices|
      invariant selected == ByIndex(items, indices[..k])
    {
      assert indices[..k + 1][..k] == indices[..k];
      var idx := indices[k];
      if 0 <= idx - 1 < |items| {
        selected := selected + [items[idx - 1]];
      }
    }
    assert indices[..|indices|] == indices;
  }

  // ---------------------------------------------------------------------
  // download_episodes_from_feed

  /** The files kept: by index when indices were asked for and there are files, else by a truthy limit. */
  function SelectFiles(request: FeedRequest, files: seq<string>): seq<string>
  {
    if HasIndices(request) && files != [] then ByIndex(files, request.episodeIndices.value)
    else if HasLimit(request) then PyPrefix(files, request.limitEpisodes.value)
    else files
  }

  /** The dict built for each kept file: `id`, `podcast_id`, `title`, `audio_file_path`, in that order. */
  datatype FileEpisode = FileEpisode(id: string, podcastId: Option<string>, title: string, audioFilePath: string)

  /** The record built for one kept file: its stem as title, the file itself as audio path. */
  function FileRecord(file: string, podcastId: Option<string>, id: string): (e: FileEpisode)
  {
    FileEpisode(id, podcastId, Stem(file), file)
  }

  /** One record per file, in order, the k-th with the k-th generated id. */
  function FileRecords(files: seq<string>, podcastId: Option<string>, ids: nat -> string): (r: seq<FileEpisode>)
    ensures |r| == |files|
  {
    if files == [] then []
    else FileRecords(files[..|files| - 1], podcastId, ids) + [FileRecord(files[|files| - 1], podcastId, ids(|files| - 1))]
  }

  /** The k-th record describes the k-th file, under the k-th generated id. */
  lemma FileRecordsAt(files: seq<string>, podcastId: Option<string>, ids: nat -> string)
    ensures forall k :: 0 <= k < |files| ==> FileRecords(files, podcastId, ids)[k] == FileRecord(files[k], podcastId, ids(k))
  {
    forall k | 0 <= k < |files| ensures FileRecords(files, podcastId, ids)[k] == FileRecord(files[k], podcastId, ids(k)) {
      FileRecordAt(files, podcastId, ids, k);
    }
  }

  /** Record `k` alone, by induction on the number of files. */
  lemma {:induction false} FileRecordAt(files: seq<string>, podcastId: Option<string>, ids: nat -> string, k: nat)
    requires k < |files|
    ensures FileRecords(files, podcastId, ids)[k] == FileRecord(files[k], podcastId, ids(k))
  {
    var init := files[..|files| - 1];
    var r := FileRecords(files, podcastId, ids);
    assert r == FileRecords(init, podcastId, ids) + [FileRecord(files[|files| - 1], podcastId, ids(|files| - 1))];
    if k < |init| {
      FileRecordAt(init, podcastId, ids, k);
      assert files[k] == init[k];
      assert r[k] == FileRecords(init, podcastId, ids)[k];
    } else {
      assert r[k] == FileRecord(files[|files| - 1], podcastId, ids(|files| - 1));
    }
  }

  /** What `download_episodes_from_feed` returns for the files the downloader produced. */
  function FromFeed(request: FeedRequest, files: seq<string>, ids: nat -> string): seq<FileEpisode>
  {
    FileRecords(SelectFiles(request, files), request.podcastId, ids)
  }

  /** The filtering step: the selection loop for indices, a slice for a limit. */
  method KeepFiles(request: FeedRequest, files: seq<string>) returns (kept: seq<string>)
    ensures kept == SelectFiles(request, files)
  {
    kept := files;
    if HasIndices(request) && files != [] {
      kept := SelectByIndex(files, request.episodeIndices.value);
    } else if HasLimit(request) {
      kept := PyPrefix(files, request.limitEpisodes.value);
    }
  }

  /** The record loop: one record per file, in order. */
  method BuildFileRecords(files: seq<string>, podcastId: Option<string>, ids: nat -> string)
    returns (data: seq<FileEpisode>)
    ensures data == FileRecords(files, podcastId, ids)
  {
    data := [];
    for k := 0 to |files|
      invariant data == FileRecords(files[..k], podcastId, ids)
    {
      FileRecordsSnoc(files, k, podcastId, ids);
      data := data + [FileRecord(files[k], podcastId, ids(k))];
    }
    assert files[..|files|] == files;
  }

  /** Extending the prefix by one file appends that file's record. */
  lemma FileRecordsSnoc(files: seq<string>, k: nat, podcastId: Option<string>, ids: nat -> string)
    requires k < |files|
    ensures FileRecords(files[..k + 1], podcastId, ids) == FileRecords(files[..k], podcastId, ids) + [FileRecord(files[k], podcastId, ids(k))]
  {
    var p := files[..k + 1];
    assert p[..|p| - 1] == files[..k];
  }

  /** `download_episodes_from_feed` after the download: filter the files, then build the records. */
  method DownloadEpisodesFromFeed(request: FeedRequest, files: seq<string>, ids: nat -> string)
    returns (data: seq<FileEpisode>)
    ensures data == FromFeed(request, files, ids)
  {
    var kept := KeepFiles(request, files);
    data := BuildFileRecords(kept, request.podcastId, ids);
  }

  // ---------------------------------------------------------------------
  // Properties

  /** One record per kept file, in order, each naming its file, its stem and the request's podcast. */
  lemma FromFeedRecords(request: FeedRequest, files: seq<string>, ids: nat -> string)
    ensures var kept, data := SelectFiles(request, files), FromFeed(request, files, ids);
      |data| == |kept| &&
      forall k :: 0 <= k < |data| ==>
        data[k].id == ids(k) && data[k].podcastId == request.podcastId &&
        data[k].title == Stem(kept[k]) && data[k].audioFilePath == kept[k]
  {
    FileRecordsAt(SelectFiles(request, files), request.podcastId, ids);
  }

  /** With indices and files, every in-range index picks the file at that 1-based position, in request order. */
  lemma SelectFilesByIndex(request: FeedRequest, files: seq<string>)
    requires HasIndices(request) && files != []
    ensures var kept, inRange := SelectFiles(request, files), InRange(|files|, request.episodeIndices.value);
      |kept| == |inRange| && |kept| <= |request.episodeIndices.value| &&
      forall j :: 0 <= j < |kept| ==> kept[j] == files[inRange[j] - 1]
  {
    assert SelectFiles(request, files) == ByIndex(files, request.episodeIndices.value);
    ByIndexSelects(files, request.episodeIndices.value);
  }

  /** Without indices (or without files), a positive limit keeps that many files from the front. */
  lemma SelectFilesByLimit(request: FeedRequest, files: seq<string>)
    requires !(HasIndices(request) && files != [])
    ensures request.limitEpisodes.Some? && request.limitEpisodes.value > 0 ==>
      SelectFiles(request, files) == files[..if request.limitEpisodes.value < |files| then request.limitEpisodes.value else |files|]
    ensures !HasLimit(request) ==> SelectFiles(request, files) == files
  {
  }

  /** The feed path has no start/count mode: those fields never change which files are kept. */
  lemma SelectFilesIgnoresStart(request: FeedRequest, files: seq<string>, start: Option<int>, count: Option<int>)
    ensures SelectFiles(request.(startEpisode := start, episodeCount := count), files) == SelectFiles(request, files)
  {
  }
}
