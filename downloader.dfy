/**
 * The RSS downloader: the `Episode` naming rules, feed parsing into audio
 * episodes, the Buzzsprout URL rewrite and the skip/retry rules of
 * `download_episode`. The parsed feed comes in as a value; HEAD and GET
 * requests and the file system are a `World` the caller supplies.
 */
module Downloader {
  import opened Wrappers
  import opened Strings

  // ---------------------------------------------------------------------
  // Parsed feeds, as feedparser returns them

  /** An enclosure; `type` and `href` are None when the key is absent. */
  datatype Enclosure = Enclosure(kind: Option<string>, href: Option<string>)

  /** A feed entry; a missing "enclosures" key is an empty sequence. */
  datatype Entry = Entry(title: Option<string>, published: Option<string>, enclosures: seq<Enclosure>)

  /** `bozo_exception` (None when the feed parsed), the channel title and the entries. */
  datatype Feed = Feed(bozo: Option<string>, title: Option<string>, entries: seq<Entry>)

  /** The `Episode` dataclass. */
  datatype Episode = Episode(title: string, audioUrl: Option<string>, publishedDate: Option<string>, fileType: string)

  // ---------------------------------------------------------------------
  // Episode naming

  /** A character `safe_title` keeps: alphanumeric, '_', '-' or ' '. */
  predicate SafeChar(c: char)
  {
    IsAlnum(c) || c == '_' || c == '-' || c == ' '
  }

  /** Lines 26-31: unsafe characters become '_' and the result is cut to 100 characters. */
  function SafeTitle(title: string): (r: string)
    ensures |r| == if |title| <= 100 then |title| else 100
    ensures forall i :: 0 <= i < |r| ==> r[i] == if SafeChar(title[i]) then title[i] else '_'
  {
    var n := if |title| <= 100 then |title| else 100;
    seq(n, i requires 0 <= i < n => if SafeChar(title[i]) then title[i] else '_')
  }

  /** A safe title holds only safe characters (so no '/'), and making it safe again changes nothing. */
  lemma SafeTitleSafe(title: string)
    ensures forall i :: 0 <= i < |SafeTitle(title)| ==> SafeChar(SafeTitle(title)[i])
    ensures '/' !in SafeTitle(title)
    ensures SafeTitle(SafeTitle(title)) == SafeTitle(title)
  {
    var r := SafeTitle(title);
    assert forall i :: 0 <= i < |r| ==> SafeChar(r[i]);
    assert SafeTitle(r) == r;
  }

  /** Lines 33-37: the text after the last '/' of the type, with a leading '.'. */
  function FileExtension(fileType: string): (r: string)
    ensures |r| > 0 && r[0] == '.'
  {
    var ext := BaseName(fileType);
    if StartsWith(ext, ".") then ext else "." + ext
  }

  /** An extension holds no '/', keeps the type's last segment, and is its own extension. */
  lemma FileExtensionShape(fileType: string)
    ensures var r := FileExtension(fileType);
      '/' !in r && (r == BaseName(fileType) || r == "." + BaseName(fileType)) && FileExtension(r) == r
  {
    var ext := BaseName(fileType);
    BaseNameShape(fileType);
    var r := FileExtension(fileType);
    assert '/' !in r;
    assert BaseName(r) == r;
  }

  /** Lines 95-117: a Buzzsprout URL without a query string gets "?download=true". */
  function PlatformUrl(url: string): (r: string)
    ensures r == url || r == url + "?download=true"
    ensures r != url <==> Contains(url, "buzzsprout.com") && '?' !in url
  {
    if Contains(url, "buzzsprout.com") && '?' !in url then url + "?download=true" else url
  }

  /** The rewrite is idempotent. */
  lemma PlatformUrlIdempotent(url: string)
    ensures PlatformUrl(PlatformUrl(url)) == PlatformUrl(url)
  {
    var r := PlatformUrl(url);
    if r != url {
      assert r[|url|] == '?';
    }
  }

  // ---------------------------------------------------------------------
  // parse_feed

  predicate IsAudio(enclosure: Enclosure)
  {
    enclosure.kind.Some? && StartsWith(enclosure.kind.value, "audio/")
  }

  /** The number of audio enclosures in a list. */
  function AudioCount(encs: seq<Enclosure>): nat
  {
    if encs == [] then 0 else AudioCount(encs[..|encs| - 1]) + (if IsAudio(encs[|encs| - 1]) then 1 else 0)
  }

  /** Lines 75-80: the episode built for an audio enclosure of an entry. */
  function EpisodeOf(entry: Entry, enclosure: Enclosure): Episode
    requires IsAudio(enclosure)
  {
    Episode(entry.title.GetOr("Unknown_Episode"), enclosure.href, entry.published, enclosure.kind.value)
  }

  /** Lines 73-81: one episode per audio enclosure of the entry, in order, all of audio type. */
  function EntryEpisodes(entry: Entry, encs: seq<Enclosure>): (r: seq<Episode>)
    ensures |r| == AudioCount(encs)
    ensures forall k :: 0 <= k < |r| ==>
      r[k].title == entry.title.GetOr("Unknown_Episode") && StartsWith(r[k].fileType, "audio/")
  {
    if encs == [] then []
    else
      var last := encs[|encs| - 1];
      EntryEpisodes(entry, encs[..|encs| - 1]) + if IsAudio(last) then [EpisodeOf(entry, last)] else []
  }

  /** Lines 72-81: the episodes of every entry, entry by entry. */
  function FeedEpisodes(entries: seq<Entry>): (r: seq<Episode>)
    ensures forall k :: 0 <= k < |r| ==> StartsWith(r[k].fileType, "audio/")
  {
    if entries == [] then []
    else
      var last := entries[|entries| - 1];
      FeedEpisodes(entries[..|entries| - 1]) + EntryEpisodes(last, last.enclosures)
  }

  /** Entries contribute their episodes in feed order. */
  lemma {:induction false} FeedEpisodesAppend(a: seq<Entry>, b: seq<Entry>)
    ensures FeedEpisodes(a + b) == FeedEpisodes(a) + FeedEpisodes(b)
  {
    if b != [] {
      var init, last := b[..|b| - 1], b[|b| - 1];
      assert (a + b)[..|a + b| - 1] == a + init;
      FeedEpisodesAppend(a, init);
    } else {
      assert a + b == a;
    }
  }

  /** A feed's episode count is the total of its entries' audio enclosures. */
  function AudioTotal(entries: seq<Entry>): nat
  {
    if entries == [] then 0
    else AudioTotal(entries[..|entries| - 1]) + AudioCount(entries[|entries| - 1].enclosures)
  }

  lemma {:induction false} FeedEpisodesCount(entries: seq<Entry>)
    ensures |FeedEpisodes(entries)| == AudioTotal(entries)
  {
    if entries != [] {
      FeedEpisodesCount(entries[..|entries| - 1]);
    }
  }

  const InvalidPrefix := "Could not parse feed: "

  /** Lines 39-93: the podcast title (spaces made '_') and the audio episodes, or the ValueError raised. */
  function Parsed(feed: Feed): (r: Result<(string, seq<Episode>)>)
    ensures r.Ok? <==> feed.bozo.None? && feed.entries != [] && FeedEpisodes(feed.entries) != []
    ensures r.Ok? ==> ' ' !in r.value.0 && r.value.1 == FeedEpisodes(feed.entries)
    ensures r.Err? ==> StartsWith(r.error, InvalidPrefix)
  {
    if feed.bozo.Some? then Err(InvalidPrefix + "Invalid feed: " + feed.bozo.value)
    else if feed.entries == [] then Err(InvalidPrefix + "Feed contains no entries")
    else
      var episodes := FeedEpisodes(feed.entries);
      if episodes == [] then Err(InvalidPrefix + "No audio content found in feed")
      else Ok((ReplaceChar(feed.title.GetOr("Unknown_Podcast"), ' ', '_'), episodes))
  }

  /** The inner loop of lines 73-81. */
  method CollectEntry(entry: Entry) returns (episodes: seq<Episode>)
    ensures episodes == EntryEpisodes(entry, entry.enclosures)
  {
    episodes := [];
    var j := 0;
    while j < |entry.enclosures|
      invariant 0 <= j <= |entry.enclosures|
      invariant episodes == EntryEpisodes(entry, entry.enclosures[..j])
    {
      var enclosure := entry.enclosures[j];
      assert entry.enclosures[..j + 1][..j] == entry.enclosures[..j];
      if IsAudio(enclosure) {
        episodes := episodes + [EpisodeOf(entry, enclosure)];
      }
      j := j + 1;
    }
    assert entry.enclosures[..j] == entry.enclosures;
  }

  /** `parse_feed`. */
  method ParseFeed(feed: Feed) returns (r: Result<(string, seq<Episode>)>)
    ensures r == Parsed(feed)
  {
    if feed.bozo.Some? {
      return Err(InvalidPrefix + "Invalid feed: " + feed.bozo.value);
    }
    if feed.entries == [] {
      return Err(InvalidPrefix + "Feed contains no entries");
    }
    var title := ReplaceChar(feed.title.GetOr("Unknown_Podcast"), ' ', '_');
    var episodes := [];
    var i := 0;
    while i < |feed.entries|
      invariant 0 <= i <= |feed.entries|
      invariant episodes == FeedEpisodes(feed.entries[..i])
    {
      var found := CollectEntry(feed.entries[i]);
      assert feed.entries[..i + 1][..i] == feed.entries[..i];
      episodes := episodes + found;
      i := i + 1;
    }
    assert feed.entries[..i] == feed.entries;
    if episodes == [] {
      return Err(InvalidPrefix + "No audio content found in feed");
    }
    r := Ok((title, episodes));
  }

  // ---------------------------------------------------------------------
  // download_episode

  /**
   * What the network and the disk answer: the size of the file at a path
   * (None when there is none), the HEAD request's content-length for a URL
   * (None when the request or `int(...)` raised), and whether GET attempt
   * number k for a URL succeeds (False: a RequestException).
   */
  datatype World = World(existing: string -> Option<nat>, contentLength: string -> Option<int>,
                         succeeds: (string, nat) -> bool)

  /** Lines 161-172: an existing file is kept when its size is right, or, with no size given, over 1 MiB. */
  predicate Reusable(expected: int, actual: nat)
  {
    (expected > 0 && -1024 < actual - expected < 1024) || (expected == 0 && actual > 1024 * 1024)
  }

  predicate HasAudio(episode: Episode)
  {
    episode.audioUrl.Some? && episode.audioUrl.value != ""
  }

  /** Line 139: the file the episode is saved to. */
  function OutputFile(dir: string, episode: Episode): string
  {
    dir + "/" + SafeTitle(episode.title) + FileExtension(episode.fileType)
  }

  /** The saved file sits directly in the directory, under a name without '/'. */
  lemma OutputFileInDir(dir: string, episode: Episode)
    ensures var f := OutputFile(dir, episode);
      |f| > |dir| + 1 && f[..|dir| + 1] == dir + "/" && '/' !in f[|dir| + 1..]
  {
    SafeTitleSafe(episode.title);
    FileExtensionShape(episode.fileType);
    var name := SafeTitle(episode.title) + FileExtension(episode.fileType);
    assert OutputFile(dir, episode) == (dir + "/") + name;
  }

  /** Lines 145-175: the file is on disk and its size passes the check. */
  predicate Reused(w: World, url: string, file: string)
  {
    w.existing(file).Some? && w.contentLength(url).Some? && Reusable(w.contentLength(url).value, w.existing(file).value)
  }

  /** Lines 119-236: the path returned, or None. */
  function Fetched(w: World, episode: Episode, dir: string, maxRetries: int): Option<string>
  {
    if !HasAudio(episode) then None
    else
      var url := PlatformUrl(episode.audioUrl.value);
      var file := OutputFile(dir, episode);
      if Reused(w, url, file) then Some(file)
      else if exists k :: 0 <= k < maxRetries && w.succeeds(url, k) then Some(file)
      else None
  }

  /** A download lands on the episode's output file and needs an audio URL. */
  lemma FetchedFile(w: World, episode: Episode, dir: string, maxRetries: int)
    ensures Fetched(w, episode, dir, maxRetries).Some? ==>
      HasAudio(episode) && Fetched(w, episode, dir, maxRetries).value == OutputFile(dir, episode)
    ensures !HasAudio(episode) || maxRetries <= 0 ==>
      (Fetched(w, episode, dir, maxRetries).Some? <==>
         (HasAudio(episode) && Reused(w, PlatformUrl(episode.audioUrl.value), OutputFile(dir, episode))))
  {
  }

  /**
   * `download_episode`: `gets` counts the GET requests made. They stop at the
   * first success and never exceed `max_retries`; a reused file or a missing
   * URL needs none.
   */
  method DownloadEpisode(w: World, episode: Episode, dir: string, maxRetries: int) returns (r: Option<string>, gets: nat)
    ensures r == Fetched(w, episode, dir, maxRetries)
    ensures gets <= if maxRetries > 0 then maxRetries else 0
    ensures !HasAudio(episode) ==> gets == 0
    ensures HasAudio(episode) ==>
      var url := PlatformUrl(episode.audioUrl.value);
      (Reused(w, url, OutputFile(dir, episode)) ==> gets == 0) &&
      (!Reused(w, url, OutputFile(dir, episode)) && r.Some? ==>
         0 < gets && w.succeeds(url, gets - 1) && forall k :: 0 <= k < gets - 1 ==> !w.succeeds(url, k)) &&
      (r.None? ==> gets == if maxRetries > 0 then maxRetries else 0)
  {
    gets := 0;
    if !HasAudio(episode) {
      return None, 0;
    }
    var url := PlatformUrl(episode.audioUrl.value);
    var file := OutputFile(dir, episode);
    if Reused(w, url, file) {
      return Some(file), 0;
    }
    var attempt := 0;
    while attempt < maxRetries
      invariant 0 <= attempt <= if maxRetries > 0 then maxRetries else 0
      invariant gets == attempt
      invariant forall k :: 0 <= k < attempt ==> !w.succeeds(url, k)
    {
      gets := gets + 1;
      if w.succeeds(url, attempt) {
        return Some(file), gets;
      }
      if attempt == maxRetries - 1 {
        return None, gets;
      }
      attempt := attempt + 1;
    }
    r := None;
  }
}
