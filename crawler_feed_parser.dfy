/**
 * `parse_podcast_site_async`: the items a web crawl extracted from a podcast
 * site become a podcast record and one episode record per item. The crawler
 * and `json.loads` are outside the model: the crawl's outcome and the decoded
 * items come in as values, keys an item lacks as None, and the clock's
 * reading as `now`.
 */
module CrawlerFeedParser {
  import opened Wrappers
  import opened Strings

  /** One extracted episode; None where the item lacks the key. */
  datatype CrawledEpisode = CrawledEpisode(title: Option<string>, notes: Option<string>, published: Option<string>,
                                           audioUrl: Option<string>, transcriptUrl: Option<string>)

  /** One extracted page item: podcast title, description and episodes. */
  datatype CrawledPage = CrawledPage(podcastTitle: Option<string>, podcastDescription: Option<string>,
                                     episodes: Option<seq<CrawledEpisode>>)

  /**
   * The crawl's result: `success`, `error_message`, and the decoded extracted
   * content (Err carrying the JSON decoder's message when it is not JSON).
   */
  datatype Crawl = Crawl(success: bool, errorMessage: string, extracted: Result<seq<CrawledPage>>)

  /** The `podcast_data` dict of lines 106-113. */
  datatype PodcastRecord = PodcastRecord(title: string, description: string, author: string, artworkUrl: string,
                                         feedUrl: string, lastFetchedAt: string)

  /** The `episode_data` dict of lines 125-131. */
  datatype EpisodeRecord = EpisodeRecord(title: string, description: string, publishedAt: string, audioUrl: string,
                                         publisherTranscriptUrl: string)

  datatype ParsedSite = ParsedSite(podcast: PodcastRecord, episodes: seq<EpisodeRecord>)

  const Failed := "Failed to parse podcast site: "

  /** Lines 121-123: the first 25 characters of the notes and "..." when longer, else "Unknown Episode" if empty. */
  function FallbackTitle(notes: string): (r: string)
    ensures 0 < |r| <= 28
  {
    var t := if |notes| > 25 then notes[..25] + "..." else notes;
    if t == "" then "Unknown Episode" else t
  }

  /** A fallback title is the notes when short, their first 25 characters and "..." when long. */
  lemma FallbackTitleShape(notes: string)
    ensures 0 < |notes| <= 25 ==> FallbackTitle(notes) == notes
    ensures |notes| > 25 ==> |FallbackTitle(notes)| == 28 && FallbackTitle(notes)[..25] == notes[..25] &&
                             FallbackTitle(notes)[25..] == "..."
    ensures notes == [] ==> FallbackTitle(notes) == "Unknown Episode"
  {
  }

  /** Lines 119-123: the item's own title when non-empty, else the fallback. */
  function EpisodeTitle(episode: CrawledEpisode): (r: string)
    ensures r != ""
    ensures episode.title.Some? && episode.title.value != "" ==> r == episode.title.value
  {
    var title := episode.title.GetOr("");
    if title != "" then title else FallbackTitle(episode.notes.GetOr(""))
  }

  /** Lines 125-131. */
  function Record(episode: CrawledEpisode, now: string): EpisodeRecord
  {
    EpisodeRecord(EpisodeTitle(episode), episode.notes.GetOr(""), episode.published.GetOr(now),
                  episode.audioUrl.GetOr(""), episode.transcriptUrl.GetOr(""))
  }

  /** Lines 116-132: the records built so far, in item order. */
  function Records(episodes: seq<CrawledEpisode>, now: string): seq<EpisodeRecord>
  {
    if episodes == [] then []
    else Records(episodes[..|episodes| - 1], now) + [Record(episodes[|episodes| - 1], now)]
  }

  /** Each record has a non-empty title, at most 28 characters when the item had none, and the notes as description. */
  lemma RecordFields(episode: CrawledEpisode, now: string)
    ensures var r := Record(episode, now);
      r.title != "" && r.description == episode.notes.GetOr("") &&
      (episode.title.None? || episode.title.value == "" ==> r.title == FallbackTitle(episode.notes.GetOr("")))
  {
  }

  /** One record per item, in item order. */
  lemma {:induction false} RecordsPerEpisode(episodes: seq<CrawledEpisode>, now: string)
    ensures var r := Records(episodes, now);
      |r| == |episodes| && forall i :: 0 <= i < |r| ==> r[i] == Record(episodes[i], now)
  {
    if episodes != [] {
      var init := episodes[..|episodes| - 1];
      RecordsPerEpisode(init, now);
      assert forall i :: 0 <= i < |init| ==> init[i] == episodes[i];
    }
  }

  /** Lines 74-139. */
  function ParseSite(crawl: Crawl, url: string, now: string): (r: Result<ParsedSite>)
    ensures !crawl.success ==> r == Err(Failed + "Failed to crawl podcast site: " + crawl.errorMessage)
    ensures r.Ok? <==> crawl.success && crawl.extracted.Ok? && crawl.extracted.value != []
    ensures r.Ok? ==>
      var page := crawl.extracted.value[0];
      r.value.podcast.feedUrl == url && r.value.podcast.title == page.podcastTitle.GetOr("Unknown Podcast") &&
      r.value.episodes == Records(page.episodes.GetOr([]), now)
    ensures r.Err? ==> StartsWith(r.error, Failed)
  {
    if !crawl.success then Err(Failed + "Failed to crawl podcast site: " + crawl.errorMessage)
    else if crawl.extracted.Err? then Err(Failed + crawl.extracted.error)
    else if crawl.extracted.value == [] then Err(Failed + "list index out of range")
    else
      var page := crawl.extracted.value[0];
      var podcast := PodcastRecord(page.podcastTitle.GetOr("Unknown Podcast"), page.podcastDescription.GetOr(""),
                                   "", "", url, now);
      Ok(ParsedSite(podcast, Records(page.episodes.GetOr([]), now)))
  }

  /** The loop of lines 116-132. */
  method CollectRecords(episodes: seq<CrawledEpisode>, now: string) returns (records: seq<EpisodeRecord>)
    ensures records == Records(episodes, now)
  {
    records := [];
    var i := 0;
    while i < |episodes|
      invariant 0 <= i <= |episodes|
      invariant records == Records(episodes[..i], now)
    {
      assert episodes[..i + 1][..i] == episodes[..i];
      records := records + [Record(episodes[i], now)];
      i := i + 1;
    }
    assert episodes[..i] == episodes;
  }

  /** `parse_podcast_site_async` on the crawl's result. */
  method ParsePodcastSite(crawl: Crawl, url: string, now: string) returns (r: Result<ParsedSite>)
    ensures r == ParseSite(crawl, url, now)
  {
    if !crawl.success {
      return Err(Failed + "Failed to crawl podcast site: " + crawl.errorMessage);
    }
    if crawl.extracted.Err? {
      return Err(Failed + crawl.extracted.error);
    }
    if crawl.extracted.value == [] {
      return Err(Failed + "list index out of range");
    }
    var page := crawl.extracted.value[0];
    var podcast := PodcastRecord(page.podcastTitle.GetOr("Unknown Podcast"), page.podcastDescription.GetOr(""),
                                 "", "", url, now);
    var records := CollectRecords(page.episodes.GetOr([]), now);
    r := Ok(ParsedSite(podcast, records));
  }
}
