/**
 * The stand-alone downloader script's `download_podcast`: parse the feed,
 * keep the first `limit` episodes when asked, and download each one into the
 * podcast's directory. The script repeats `Episode`, `parse_feed`,
 * `handle_platform_specific_url` and `download_episode` of the package's
 * downloader with the same logic (only the logging differs), so it uses the `Downloader` module's definitions.
 */
module PodcastDownloader {
  import opened Wrappers
  import opened Strings
  import opened Downloader

  /** The retry count `download_podcast` leaves at its default. */
  const DefaultRetries := 3

  /** Lines 285-287: a truthy limit below the episode count keeps `episodes[:limit]`. */
  function Selected(episodes: seq<Episode>, limit: Option<int>): (r: seq<Episode>)
    ensures |r| <= |episodes| && r == episodes[..|r|]
  {
    if limit.Some? && limit.value != 0 && limit.value < |episodes| then PyPrefix(episodes, limit.value)
    else episodes
  }

  /**
   * A positive limit keeps that many episodes (all of them when there are
   * fewer); no limit or a zero one keeps all; a negative one, as Python
   * slicing does, drops that many from the end.
   */
  lemma SelectedCount(episodes: seq<Episode>, limit: Option<int>)
    ensures limit.None? || limit.value == 0 ==> Selected(episodes, limit) == episodes
    ensures limit.Some? && limit.value > 0 ==>
      |Selected(episodes, limit)| == if limit.value < |episodes| then limit.value else |episodes|
    ensures limit.Some? && limit.value < 0 ==>
      |Selected(episodes, limit)| == if |episodes| + limit.value < 0 then 0 else |episodes| + limit.value
  {
  }

  /** The files the downloads of `episodes` into `dir` produce, in episode order. */
  function Downloads(w: World, episodes: seq<Episode>, dir: string): seq<string>
  {
    if episodes == [] then []
    else
      var last := episodes[|episodes| - 1];
      var f := Fetched(w, last, dir, DefaultRetries);
      Downloads(w, episodes[..|episodes| - 1], dir) + if f.Some? then [f.value] else []
  }

  /** Every file downloaded is the output file of one of the episodes, so at most one per episode. */
  lemma {:induction false} DownloadsFromEpisodes(w: World, episodes: seq<Episode>, dir: string)
    ensures |Downloads(w, episodes, dir)| <= |episodes|
    ensures forall f :: f in Downloads(w, episodes, dir) ==> exists e :: e in episodes && f == OutputFile(dir, e)
  {
    if episodes != [] {
      var init, last := episodes[..|episodes| - 1], episodes[|episodes| - 1];
      DownloadsFromEpisodes(w, init, dir);
      FetchedFile(w, last, dir, DefaultRetries);
      forall f | f in Downloads(w, episodes, dir)
        ensures exists e :: e in episodes && f == OutputFile(dir, e)
      {
        if f in Downloads(w, init, dir) {
          var e :| e in init && f == OutputFile(dir, e);
          assert e in episodes;
        } else {
          assert last in episodes;
        }
      }
    }
  }

  /** Lines 257-311: the files downloaded from what `parse_feed` returned; a parse error gives none. */
  function PodcastFiles(w: World, parsed: Result<(string, seq<Episode>)>, baseDir: string, limit: Option<int>)
    : seq<string>
  {
    match parsed
    case Err(_) => []
    case Ok((title, episodes)) => Downloads(w, Selected(episodes, limit), baseDir + "/" + title)
  }

  /**
   * A feed that does not parse downloads nothing; otherwise every file lies in
   * the podcast's directory, and a positive limit bounds their number.
   */
  lemma PodcastFilesBound(w: World, parsed: Result<(string, seq<Episode>)>, baseDir: string, limit: Option<int>)
    ensures parsed.Err? ==> PodcastFiles(w, parsed, baseDir, limit) == []
    ensures limit.Some? && limit.value > 0 ==> |PodcastFiles(w, parsed, baseDir, limit)| <= limit.value
    ensures parsed.Ok? ==>
      var dir := baseDir + "/" + parsed.value.0;
      forall f :: f in PodcastFiles(w, parsed, baseDir, limit) ==> |f| > |dir| + 1 && f[..|dir| + 1] == dir + "/"
  {
    if parsed.Ok? {
      var (title, episodes) := parsed.value;
      var dir := baseDir + "/" + title;
      var selected := Selected(episodes, limit);
      DownloadsFromEpisodes(w, selected, dir);
      SelectedCount(episodes, limit);
      forall f | f in PodcastFiles(w, parsed, baseDir, limit)
        ensures |f| > |dir| + 1 && f[..|dir| + 1] == dir + "/"
      {
        var e :| e in selected && f == OutputFile(dir, e);
        OutputFileInDir(dir, e);
      }
    }
  }

  /** The download loop of lines 292-305, one episode after another. */
  method DownloadAll(w: World, selected: seq<Episode>, dir: string) returns (files: seq<string>)
    ensures files == Downloads(w, selected, dir)
  {
    files := [];
    var i := 0;
    while i < |selected|
      invariant 0 <= i <= |selected|
      invariant files == Downloads(w, selected[..i], dir)
    {
      var path, _ := DownloadEpisode(w, selected[i], dir, DefaultRetries);
      assert selected[..i + 1][..i] == selected[..i];
      if path.Some? {
        files := files + [path.value];
      }
      i := i + 1;
    }
    assert selected[..i] == selected;
  }

  /** `download_podcast`. */
  method DownloadPodcast(w: World, feed: Feed, baseDir: string, limit: Option<int>) returns (files: seq<string>)
    ensures files == PodcastFiles(w, Parsed(feed), baseDir, limit)
  {
    var parsed := ParseFeed(feed);
    if parsed.Err? {
      return [];
    }
    var (title, episodes) := parsed.value;
    var selected := episodes;
    if limit.Some? && limit.value != 0 && limit.value < |episodes| {
      selected := PyPrefix(episodes, limit.value);
    }
    files := DownloadAll(w, selected, baseDir + "/" + title);
  }
}
