/**
 * `parse_podcast_feed`: a fetched RSS feed becomes a podcast record and one
 * episode record per entry. Fetching the feed and feedparser are outside the
 * model: the parsed feed comes in as a value, attributes it may lack as
 * Options, and the clock's reading as `now`.
 */
module FeedParser {
  import opened Wrappers
  import opened Strings

  /** A link of an entry; `type` and `href` are None when the attribute is absent. */
  datatype Link = Link(kind: Option<string>, href: Option<string>)

  /** An entry; `links` is None when the entry has no such attribute. */
  datatype RssEntry = RssEntry(title: Option<string>, description: Option<string>, published: Option<string>,
                               links: Option<seq<Link>>)

  /** `feed.feed` (title, description, author, image href) and `feed.entries`. */
  datatype RssFeed = RssFeed(title: Option<string>, description: Option<string>, author: Option<string>,
                             imageHref: Option<string>, entries: seq<RssEntry>)

  /** The `podcast_data` dict of lines 32-39. */
  datatype PodcastRecord = PodcastRecord(title: string, description: string, author: string, artworkUrl: string,
                                         feedUrl: string, lastFetchedAt: string)

  /** The episode dict of lines 44-50. */
  datatype EpisodeRecord = EpisodeRecord(title: string, description: string, publishedAt: string, audioUrl: string)

  datatype ParsedFeed = ParsedFeed(podcast: PodcastRecord, episodes: seq<EpisodeRecord>)

  const Failed := "Failed to parse podcast feed: "

  /** The AttributeError feedparser raises for a missing attribute. */
  function NoAttribute(name: string): string
  {
    "object has no attribute '" + name + "'"
  }

  /** Line 48: a link whose type mentions "audio". */
  predicate IsAudioLink(link: Link)
  {
    link.kind.Some? && Contains(link.kind.value, "audio")
  }

  /**
   * Line 48: the href of the first audio link, "" when there is none; an
   * audio link without an href raises.
   */
  function FirstAudioHref(links: seq<Link>): (r: Result<string>)
    ensures (forall i :: 0 <= i < |links| ==> !IsAudioLink(links[i])) ==> r == Ok("")
    ensures (exists i :: 0 <= i < |links| && IsAudioLink(links[i])) ==>
      exists i :: 0 <= i < |links| && IsAudioLink(links[i]) && (forall j :: 0 <= j < i ==> !IsAudioLink(links[j])) &&
        r == (if links[i].href.Some? then Ok(links[i].href.value) else Err(NoAttribute("href")))
  {
    if links == [] then Ok("")
    else if IsAudioLink(links[0]) then (if links[0].href.Some? then Ok(links[0].href.value) else Err(NoAttribute("href")))
    else
      var r := FirstAudioHref(links[1..]);
      assert forall i :: 1 <= i < |links| ==> links[i] == links[1..][i - 1];
      r
  }

  /** Lines 44-50: the record of one entry, or the AttributeError for a missing title. */
  function Record(entry: RssEntry): (r: Result<EpisodeRecord>)
    ensures r.Ok? ==> Some(r.value.title) == entry.title
  {
    if entry.title.None? then Err(NoAttribute("title"))
    else
      var audio := if entry.links.Some? then FirstAudioHref(entry.links.value) else Ok("");
      if audio.Err? then Err(audio.error)
      else Ok(EpisodeRecord(entry.title.value, entry.description.GetOr(""), entry.published.GetOr(""), audio.value))
  }

  /** Lines 42-51: the records of the entries, stopping at the first error. */
  function Records(entries: seq<RssEntry>): Result<seq<EpisodeRecord>>
  {
    if entries == [] then Ok([])
    else
      var prev := Records(entries[..|entries| - 1]);
      if prev.Err? then prev
      else
        var last := Record(entries[|entries| - 1]);
        if last.Err? then Err(last.error) else Ok(prev.value + [last.value])
  }

  /** Exactly one record per entry, in order, whether or not it has audio; else some entry failed. */
  lemma {:induction false} RecordsPerEntry(entries: seq<RssEntry>)
    ensures Records(entries).Ok? <==> forall i :: 0 <= i < |entries| ==> Record(entries[i]).Ok?
    ensures Records(entries).Ok? ==>
      |Records(entries).value| == |entries| &&
      forall i :: 0 <= i < |entries| ==> Records(entries).value[i] == Record(entries[i]).value
  {
    if entries != [] {
      var init := entries[..|entries| - 1];
      RecordsPerEntry(init);
      assert forall i :: 0 <= i < |init| ==> init[i] == entries[i];
    }
  }

  /** Lines 14-56. */
  function ParseFeedSpec(feed: RssFeed, feedUrl: string, now: string): (r: Result<ParsedFeed>)
    ensures feed.entries == [] ==> r == Err(Failed + "No entries found in feed")
    ensures r.Ok? ==> r.value.podcast.feedUrl == feedUrl && Some(r.value.podcast.title) == feed.title
    ensures r.Err? ==> StartsWith(r.error, Failed)
  {
    if feed.entries == [] then Err(Failed + "No entries found in feed")
    else if feed.title.None? then Err(Failed + NoAttribute("title"))
    else
      var podcast := PodcastRecord(feed.title.value, feed.description.GetOr(""), feed.author.GetOr(""),
                                   feed.imageHref.GetOr(""), feedUrl, now);
      var episodes := Records(feed.entries);
      if episodes.Err? then Err(Failed + episodes.error)
      else Ok(ParsedFeed(podcast, episodes.value))
  }

  /** The loop of lines 42-51. */
  method CollectRecords(entries: seq<RssEntry>) returns (r: Result<seq<EpisodeRecord>>)
    ensures r == Records(entries)
  {
    var episodes := [];
    var i := 0;
    while i < |entries|
      invariant 0 <= i <= |entries|
      invariant Records(entries[..i]) == Ok(episodes)
    {
      RecordsPrefix(entries, i);
      var record := Record(entries[i]);
      if record.Err? {
        RecordsStop(entries, i);
        return Err(record.error);
      }
      episodes := episodes + [record.value];
      i := i + 1;
    }
    assert entries[..i] == entries;
    r := Ok(episodes);
  }

  /** Once an entry fails, the whole list fails with its error. */
  lemma RecordsStop(entries: seq<RssEntry>, i: nat)
    requires i < |entries| && Records(entries[..i]).Ok? && Record(entries[i]).Err?
    ensures Records(entries) == Err(Record(entries[i]).error)
  {
    RecordsStopFrom(entries, i, |entries|);
    assert entries[..|entries|] == entries;
  }

  /** Every prefix past a failing entry fails with its error. */
  lemma {:induction false} RecordsStopFrom(entries: seq<RssEntry>, i: nat, n: nat)
    requires i < n <= |entries| && Records(entries[..i]).Ok? && Record(entries[i]).Err?
    ensures Records(entries[..n]) == Err(Record(entries[i]).error)
    decreases n
  {
    RecordsPrefix(entries, n - 1);
    if n - 1 > i {
      RecordsStopFrom(entries, i, n - 1);
    }
  }

  /** Reading entry `k` after the entries before it. */
  lemma RecordsPrefix(entries: seq<RssEntry>, k: nat)
    requires k < |entries|
    ensures var prev, last := Records(entries[..k]), Record(entries[k]);
      Records(entries[..k + 1]) ==
        if prev.Err? then prev else if last.Err? then Err(last.error) else Ok(prev.value + [last.value])
  {
    assert entries[..k + 1][..k] == entries[..k];
  }

  /** `parse_podcast_feed` on an already fetched feed. */
  method ParsePodcastFeed(feed: RssFeed, feedUrl: string, now: string) returns (r: Result<ParsedFeed>)
    ensures r == ParseFeedSpec(feed, feedUrl, now)
  {
    if feed.entries == [] {
      return Err(Failed + "No entries found in feed");
    }
    if feed.title.None? {
      return Err(Failed + NoAttribute("title"));
    }
    var podcast := PodcastRecord(feed.title.value, feed.description.GetOr(""), feed.author.GetOr(""),
                                 feed.imageHref.GetOr(""), feedUrl, now);
    var episodes := CollectRecords(feed.entries);
    if episodes.Err? {
      return Err(Failed + episodes.error);
    }
    r := Ok(ParsedFeed(podcast, episodes.value));
  }
}
