/**
 * `core/database.py`: `SupabaseManager` over three in-memory tables
 * (`podcasts`, `episodes`, `episode_summaries`). A table is a sequence of
 * rows; a row is a `Dict` from column to value, a column the row lacks
 * reading as NULL. The client is a flag: `hasClient` is false when it is
 * None. Fresh uuids and the clock are parameters.
 */
module Database {
  import opened Wrappers
  import opened Json
  import opened Ordering

  /** The RuntimeError every query raises without a client. */
  const NoClient: string := "Supabase client not initialized"

  /** The AttributeError of `self.client.table(...)` when the client is None. */
  const NoTable: string := "'NoneType' object has no attribute 'table'"

  datatype Tables = Tables(podcasts: seq<Dict>, episodes: seq<Dict>, summaries: seq<Dict>)

  /** What an operation returns (or raises), and the tables after it. */
  datatype Outcome<T> = Outcome(result: Result<T>, tables: Tables)

  // ---------------------------------------------------------------------
  // Queries on one table

  /** `.eq(column, value)` holds of the row. */
  predicate Matches(row: Dict, column: string, value: Value)
  {
    Get(row, column) == Some(value)
  }

  /** `.eq(column, value).execute()` then `result.data[0]`: the first matching row. */
  function First(rows: seq<Dict>, column: string, value: Value): (r: Option<Dict>)
    ensures r.Some? ==> r.value in rows && Matches(r.value, column, value)
    ensures r.None? <==> forall i :: 0 <= i < |rows| ==> !Matches(rows[i], column, value)
  {
    if rows == [] then None
    else if Matches(rows[0], column, value) then Some(rows[0])
    else First(rows[1..], column, value)
  }

  /** `.eq(column, value)`: the matching rows, in table order. */
  function Where(rows: seq<Dict>, column: string, value: Value): seq<Dict>
  {
    if rows == [] then []
    else
      var last := rows[|rows| - 1];
      Where(rows[..|rows| - 1], column, value) + (if Matches(last, column, value) then [last] else [])
  }

  /** The query returns every matching row as often as the table holds it, and nothing else. */
  lemma {:induction false} WhereExactly(rows: seq<Dict>, column: string, value: Value)
    ensures forall x :: multiset(Where(rows, column, value))[x] ==
                       (if Matches(x, column, value) then multiset(rows)[x] else 0)
  {
    if rows != [] {
      var init := rows[..|rows| - 1];
      WhereExactly(init, column, value);
      assert rows == init + [rows[|rows| - 1]];
    }
  }

  /** `UPDATE ... SET`: every column of `data` takes its value there, the others keep theirs. */
  function Assign(row: Dict, data: Dict): (r: Dict)
    ensures forall k :: HasKey(data, k) ==> Get(r, k) == Get(data, k)
    ensures forall k :: !HasKey(data, k) ==> Get(r, k) == Get(row, k)
  {
    if data == [] then row else Put(Assign(row, data[1..]), data[0].0, data[0].1)
  }

  /** `.update(data).eq(column, value)`: every matching row is assigned `data`. */
  function UpdateWhere(rows: seq<Dict>, column: string, value: Value, data: Dict): (r: seq<Dict>)
    ensures |r| == |rows|
  {
    seq(|rows|, i requires 0 <= i < |rows| => if Matches(rows[i], column, value) then Assign(rows[i], data) else rows[i])
  }

  /** An update changes exactly the matching rows, each to the row with `data` assigned. */
  lemma UpdateWhereRows(rows: seq<Dict>, column: string, value: Value, data: Dict, i: nat)
    requires i < |rows|
    ensures Matches(rows[i], column, value) ==> UpdateWhere(rows, column, value, data)[i] == Assign(rows[i], data)
    ensures !Matches(rows[i], column, value) ==> UpdateWhere(rows, column, value, data)[i] == rows[i]
  {
  }

  /** `.select(c1,...,cn)`: the listed columns, NULL where the row has none. */
  function Project(row: Dict, columns: seq<string>): (r: Dict)
    ensures |r| == |columns| && forall i :: 0 <= i < |columns| ==> r[i] == (columns[i], GetOr(row, columns[i], Null))
  {
    seq(|columns|, i requires 0 <= i < |columns| => (columns[i], GetOr(row, columns[i], Null)))
  }

  /** The columns `get_episode` selects. */
  const EpisodeColumns: seq<string> := ["id", "podcast_id", "title", "description", "published_at", "audio_url", "transcript_url"]

  /** The columns `list_episodes` selects. */
  const ListedColumns: seq<string> := ["id", "title", "description", "published_at", "audio_url", "transcript_url"]

  /** An inserted row: the table fills in a fresh `id` when the data has none. */
  function WithId(data: Dict, newId: string): (r: Dict)
    ensures HasKey(r, "id")
    ensures HasKey(data, "id") ==> r == data
    ensures !HasKey(data, "id") ==> Get(r, "id") == Some(Str(newId))
    ensures forall k :: k != "id" ==> Get(r, k) == Get(data, k)
  {
    if HasKey(data, "id") then data else Put(data, "id", Str(newId))
  }

  // ---------------------------------------------------------------------
  // Reads

  /** `get_podcast` (lines 287-314). */
  function GetPodcast(hasClient: bool, t: Tables, podcastId: Value): (r: Result<Option<Dict>>)
    ensures !hasClient <==> r == Err(NoClient)
    ensures r.Ok? && r.value.Some? ==> r.value.value in t.podcasts && Matches(r.value.value, "id", podcastId)
    ensures r.Ok? ==> (r.value.None? <==> forall i :: 0 <= i < |t.podcasts| ==> !Matches(t.podcasts[i], "id", podcastId))
  {
    if !hasClient then Err(NoClient) else Ok(First(t.podcasts, "id", podcastId))
  }

  /** `get_podcast_by_feed_url` (lines 316-343). */
  function GetPodcastByFeedUrl(hasClient: bool, t: Tables, feedUrl: Value): (r: Result<Option<Dict>>)
    ensures !hasClient <==> r == Err(NoClient)
    ensures r.Ok? && r.value.Some? ==> r.value.value in t.podcasts && Matches(r.value.value, "feed_url", feedUrl)
    ensures r.Ok? ==> (r.value.None? <==> forall i :: 0 <= i < |t.podcasts| ==> !Matches(t.podcasts[i], "feed_url", feedUrl))
  {
    if !hasClient then Err(NoClient) else Ok(First(t.podcasts, "feed_url", feedUrl))
  }

  /** `get_episode` (lines 373-401): the selected columns of the episode with that id. */
  function GetEpisode(hasClient: bool, t: Tables, episodeId: Value): (r: Result<Option<Dict>>)
    ensures !hasClient <==> r == Err(NoClient)
    ensures r.Ok? ==> (r.value.Some? <==> First(t.episodes, "id", episodeId).Some?)
  {
    if !hasClient then Err(NoClient)
    else
      match First(t.episodes, "id", episodeId)
      case None => Ok(None)
      case Some(row) => Ok(Some(Project(row, EpisodeColumns)))
  }

  /** The selected columns of each row. */
  function ProjectAll(rows: seq<Dict>, columns: seq<string>): (r: seq<Dict>)
    ensures |r| == |rows| && forall i :: 0 <= i < |rows| ==> r[i] == Project(rows[i], columns)
  {
    seq(|rows|, i requires 0 <= i < |rows| => Project(rows[i], columns))
  }

  /** `list_episodes` (lines 345-371): the podcast's episodes, newest `published_at` first. */
  function ListEpisodes(hasClient: bool, t: Tables, podcastId: Value): (r: Result<seq<Dict>>)
    ensures !hasClient <==> r == Err(NoClient)
  {
    if !hasClient then Err(NoClient)
    else Ok(SortNewestFirst(ProjectAll(Where(t.episodes, "podcast_id", podcastId), ListedColumns), "published_at"))
  }

  /**
   * `list_episodes` returns one row per episode of the podcast, newest
   * first: the listed columns of exactly those episodes, each as often as the
   * table holds it, and no other row.
   */
  lemma ListEpisodesSound(t: Tables, podcastId: Value)
    ensures var r := ListEpisodes(true, t, podcastId).value;
      |r| == |Where(t.episodes, "podcast_id", podcastId)| && NewestFirst(r, "published_at") &&
      multiset(r) == multiset(ProjectAll(Where(t.episodes, "podcast_id", podcastId), ListedColumns))
    ensures forall x :: x in ListEpisodes(true, t, podcastId).value ==>
      exists e :: e in t.episodes && Matches(e, "podcast_id", podcastId) && x == Project(e, ListedColumns)
  {
    var mine := Where(t.episodes, "podcast_id", podcastId);
    var projected := ProjectAll(mine, ListedColumns);
    SortNewestFirstSound(projected, "published_at");
    WhereExactly(t.episodes, "podcast_id", podcastId);
    forall x | x in ListEpisodes(true, t, podcastId).value
      ensures exists e :: e in t.episodes && Matches(e, "podcast_id", podcastId) && x == Project(e, ListedColumns)
    {
      assert x in multiset(projected);
      var i :| 0 <= i < |projected| && projected[i] == x;
      var e := mine[i];
      assert e in multiset(mine);
      assert multiset(mine)[e] > 0;
    }
  }

  /** `get_user_summaries` (lines 403-432): the user's summaries, of one episode when given, newest first. */
  function UserSummaries(hasClient: bool, t: Tables, userId: string, episodeId: Value): (r: Result<seq<Dict>>)
    ensures !hasClient <==> r == Err(NoClient)
  {
    if !hasClient then Err(NoClient)
    else
      var mine := Where(t.summaries, "user_id", Str(userId));
      var rows := if Truthy(episodeId) then Where(mine, "episode_id", episodeId) else mine;
      Ok(SortNewestFirst(rows, "created_at"))
  }

  /**
   * `get_user_summaries` returns every summary of the user (of the given
   * episode, when one is given) as often as the table holds it, no other
   * row, newest `created_at` first.
   */
  lemma UserSummariesExactly(t: Tables, userId: string, episodeId: Value)
    ensures var r := UserSummaries(true, t, userId, episodeId).value;
      NewestFirst(r, "created_at") &&
      forall x :: multiset(r)[x] ==
        if Matches(x, "user_id", Str(userId)) && (Truthy(episodeId) ==> Matches(x, "episode_id", episodeId))
        then multiset(t.summaries)[x] else 0
  {
    var mine := Where(t.summaries, "user_id", Str(userId));
    var rows := if Truthy(episodeId) then Where(mine, "episode_id", episodeId) else mine;
    WhereExactly(t.summaries, "user_id", Str(userId));
    WhereExactly(mine, "episode_id", episodeId);
    SortNewestFirstSound(rows, "created_at");
  }

  // ---------------------------------------------------------------------
  // Writes

  /**
   * `upsert_podcast` (lines 492-509): the podcast with the same `feed_url`
   * is updated and keeps its id; otherwise the data is inserted.
   */
  function UpsertPodcast(hasClient: bool, t: Tables, data: Dict, newId: string): (o: Outcome<Value>)
    ensures !HasKey(data, "feed_url") ==> o == Outcome(Err("KeyError: 'feed_url'"), t)
    ensures HasKey(data, "feed_url") && !hasClient ==> o == Outcome(Err(NoClient), t)
    ensures o.tables.episodes == t.episodes && o.tables.summaries == t.summaries
  {
    if !HasKey(data, "feed_url") then Outcome(Err("KeyError: 'feed_url'"), t)
    else if !hasClient then Outcome(Err(NoClient), t)
    else
      match First(t.podcasts, "feed_url", GetOr(data, "feed_url", Null))
      case Some(existing) =>
        if !HasKey(existing, "id") then Outcome(Err("KeyError: 'id'"), t)
        else
          var id := GetOr(existing, "id", Null);
          Outcome(Ok(id), t.(podcasts := UpdateWhere(t.podcasts, "id", id, data)))
      case None =>
        var row := WithId(data, newId);
        Outcome(Ok(GetOr(row, "id", Null)), t.(podcasts := t.podcasts + [row]))
  }

  /** A call adds a row exactly when no podcast had that `feed_url`, and then a row with it. */
  lemma UpsertPodcastAddsOnlyNew(t: Tables, data: Dict, newId: string)
    requires HasKey(data, "feed_url")
    ensures var o := UpsertPodcast(true, t, data, newId);
      var url := GetOr(data, "feed_url", Null);
      (First(t.podcasts, "feed_url", url).Some? ==> |o.tables.podcasts| == |t.podcasts|) &&
      (First(t.podcasts, "feed_url", url).None? ==>
         o.result.Ok? && o.tables.podcasts == t.podcasts + [WithId(data, newId)] &&
         Matches(o.tables.podcasts[|t.podcasts|], "feed_url", url))
  {
    var url := GetOr(data, "feed_url", Null);
    assert Get(data, "feed_url") == Some(url);
  }

  /** After a successful call some podcast has the `feed_url`. */
  lemma UpsertPodcastLeavesFeed(t: Tables, data: Dict, newId: string)
    requires HasKey(data, "feed_url")
    requires UpsertPodcast(true, t, data, newId).result.Ok?
    ensures First(UpsertPodcast(true, t, data, newId).tables.podcasts, "feed_url", GetOr(data, "feed_url", Null)).Some?
  {
    var url := GetOr(data, "feed_url", Null);
    var o := UpsertPodcast(true, t, data, newId);
    assert Get(data, "feed_url") == Some(url);
    match First(t.podcasts, "feed_url", url)
    case Some(existing) =>
      var id := GetOr(existing, "id", Null);
      var i :| 0 <= i < |t.podcasts| && t.podcasts[i] == existing;
      assert Matches(existing, "id", id);
      UpdateWhereRows(t.podcasts, "id", id, data, i);
      assert Matches(o.tables.podcasts[i], "feed_url", url);
    case None =>
      assert Matches(o.tables.podcasts[|t.podcasts|], "feed_url", url);
  }

  /** Repeating `upsert_podcast` never adds a second row for that `feed_url`. */
  lemma UpsertPodcastTwice(t: Tables, data: Dict, newId1: string, newId2: string)
    requires HasKey(data, "feed_url")
    requires UpsertPodcast(true, t, data, newId1).result.Ok?
    ensures var t1 := UpsertPodcast(true, t, data, newId1).tables;
      |UpsertPodcast(true, t1, data, newId2).tables.podcasts| == |t1.podcasts|
  {
    UpsertPodcastLeavesFeed(t, data, newId1);
    UpsertPodcastAddsOnlyNew(UpsertPodcast(true, t, data, newId1).tables, data, newId2);
  }

  /** The first episode of the podcast with that title: the `.eq("podcast_id").eq("title")` lookup. */
  function SameTitle(rows: seq<Dict>, podcastId: Value, title: Value): (r: Option<Dict>)
    ensures r.Some? ==> r.value in rows && Matches(r.value, "podcast_id", podcastId) && Matches(r.value, "title", title)
    ensures r.None? ==> forall i :: 0 <= i < |rows| ==> !(Matches(rows[i], "podcast_id", podcastId) && Matches(rows[i], "title", title))
  {
    if rows == [] then None
    else if Matches(rows[0], "podcast_id", podcastId) && Matches(rows[0], "title", title) then Some(rows[0])
    else SameTitle(rows[1..], podcastId, title)
  }

  /**
   * `upsert_episode` (lines 511-537): with a truthy title, the podcast's
   * episode of that title is updated; otherwise the data is inserted, and
   * an insert without a `title` key raises afterwards, when it is logged.
   */
  function UpsertEpisode(hasClient: bool, t: Tables, data: Dict, newId: string): (o: Outcome<Value>)
    ensures !HasKey(data, "podcast_id") ==> o == Outcome(Err("KeyError: 'podcast_id'"), t)
    ensures HasKey(data, "podcast_id") && !hasClient ==> o == Outcome(Err(NoTable), t)
    ensures o.tables.podcasts == t.podcasts && o.tables.summaries == t.summaries
  {
    if !HasKey(data, "podcast_id") then Outcome(Err("KeyError: 'podcast_id'"), t)
    else if !hasClient then Outcome(Err(NoTable), t)
    else
      var podcastId := GetOr(data, "podcast_id", Null);
      var title := GetOr(data, "title", Null);
      var existing := if HasKey(data, "title") && Truthy(title) then SameTitle(t.episodes, podcastId, title) else None;
      if existing.Some? && HasKey(existing.value, "id") then
        var id := GetOr(existing.value, "id", Null);
        Outcome(Ok(id), t.(episodes := UpdateWhere(t.episodes, "id", id, data)))
      else if existing.Some? then Outcome(Err("KeyError: 'id'"), t)
      else
        var row := WithId(data, newId);
        var inserted := t.(episodes := t.episodes + [row]);
        if HasKey(data, "title") then Outcome(Ok(GetOr(row, "id", Null)), inserted)
        else Outcome(Err("KeyError: 'title'"), inserted)
  }

  /**
   * An episode whose truthy title matches one of the podcast's episodes
   * adds no row; any other episode adds exactly one, the data with an id.
   */
  lemma UpsertEpisodeMatchesByTitle(t: Tables, data: Dict, newId: string)
    requires HasKey(data, "podcast_id")
    requires forall i :: 0 <= i < |t.episodes| ==> HasKey(t.episodes[i], "id")
    ensures var o := UpsertEpisode(true, t, data, newId);
      var title := GetOr(data, "title", Null);
      if Truthy(title) && SameTitle(t.episodes, GetOr(data, "podcast_id", Null), title).Some?
      then o.result.Ok? && |o.tables.episodes| == |t.episodes|
      else o.tables.episodes == t.episodes + [WithId(data, newId)]
  {
    var title := GetOr(data, "title", Null);
    if !HasKey(data, "title") {
      assert title == Null;
    }
    var e := SameTitle(t.episodes, GetOr(data, "podcast_id", Null), title);
    if Truthy(title) && e.Some? {
      var i :| 0 <= i < |t.episodes| && t.episodes[i] == e.value;
    }
  }

  /** Lines 163-166: the date given as `published_date`, else `published_at`, else the stored one, else now. */
  function PublishedAt(data: Dict, stored: Dict, now: string): (r: Value)
    ensures Truthy(GetOr(data, "published_date", Null)) ==> r == GetOr(data, "published_date", Null)
    ensures !Truthy(GetOr(data, "published_date", Null)) && Truthy(GetOr(data, "published_at", Null)) ==>
      r == GetOr(data, "published_at", Null)
    ensures (!Truthy(GetOr(data, "published_date", Null)) && !Truthy(GetOr(data, "published_at", Null)) &&
             !Truthy(GetOr(stored, "published_at", Null))) ==> r == Str(now)
  {
    var p := Or(Or(GetOr(data, "published_date", Null), GetOr(data, "published_at", Null)), GetOr(stored, "published_at", Null));
    if Truthy(p) then p else Str(now)
  }

  /** `a.get(k) or b.get(k, default)`. */
  function Merged(data: Dict, stored: Dict, k: string, default: Value): (r: Value)
    ensures Truthy(GetOr(data, k, Null)) ==> r == GetOr(data, k, Null)
    ensures !Truthy(GetOr(data, k, Null)) ==> r == GetOr(stored, k, default)
  {
    Or(GetOr(data, k, Null), GetOr(stored, k, default))
  }

  /** The columns of the update that merge the given data with the stored episode (lines 169-173). */
  function MergedFields(data: Dict, stored: Dict, now: string): Dict
  {
    [("title", Merged(data, stored, "title", Str("Unknown Episode"))),
     ("description", Merged(data, stored, "description", Str(""))),
     ("published_at", PublishedAt(data, stored, now)),
     ("audio_url", Merged(data, stored, "audio_url", Str("")))]
  }

  /** The remaining columns of the update (lines 174-179). */
  function TranscriptFields(data: Dict, stored: Dict, transcription: string, now: string): Dict
  {
    [("transcript_url", Merged(data, stored, "transcript_url", Str(""))),
     ("transcript", Str(transcription)),
     ("updated_at", Str(now))] +
    (if HasKey(data, "episode_number") then [("episode_number", GetOr(data, "episode_number", Null))] else [])
  }

  /** The columns `store_transcription` sets (lines 169-180). */
  function TranscriptUpdate(data: Dict, stored: Dict, transcription: string, now: string): Dict
  {
    MergedFields(data, stored, now) + TranscriptFields(data, stored, transcription, now)
  }

  /** The update's title, date and audio url are the given ones, else the stored ones. */
  lemma {:induction false} TranscriptUpdateMerges(data: Dict, stored: Dict, transcription: string, now: string)
    ensures var u := TranscriptUpdate(data, stored, transcription, now);
      Get(u, "title") == Some(Merged(data, stored, "title", Str("Unknown Episode"))) &&
      Get(u, "published_at") == Some(PublishedAt(data, stored, now)) &&
      Get(u, "audio_url") == Some(Merged(data, stored, "audio_url", Str("")))
  {
    UpdateTitle(data, stored, transcription, now);
    UpdateDate(data, stored, transcription, now);
    UpdateAudio(data, stored, transcription, now);
  }

  /** The update's title is the given one, else the stored one, else "Unknown Episode". */
  lemma UpdateTitle(data: Dict, stored: Dict, transcription: string, now: string)
    ensures Get(TranscriptUpdate(data, stored, transcription, now), "title") ==
      Some(Merged(data, stored, "title", Str("Unknown Episode")))
  {
    UpdateFindsMerged(MergedFields(data, stored, now), TranscriptFields(data, stored, transcription, now), "title", 0);
  }

  /** The update's date is `PublishedAt`. */
  lemma UpdateDate(data: Dict, stored: Dict, transcription: string, now: string)
    ensures Get(TranscriptUpdate(data, stored, transcription, now), "published_at") == Some(PublishedAt(data, stored, now))
  {
    UpdateFindsMerged(MergedFields(data, stored, now), TranscriptFields(data, stored, transcription, now), "published_at", 2);
  }

  /** The update's audio url is the given one, else the stored one, else empty. */
  lemma UpdateAudio(data: Dict, stored: Dict, transcription: string, now: string)
    ensures Get(TranscriptUpdate(data, stored, transcription, now), "audio_url") ==
      Some(Merged(data, stored, "audio_url", Str("")))
  {
    UpdateFindsMerged(MergedFields(data, stored, now), TranscriptFields(data, stored, transcription, now), "audio_url", 3);
  }

  /** A column of the first part of an update is looked up there, at its first position. */
  lemma UpdateFindsMerged(a: Dict, b: Dict, k: string, i: nat)
    requires i < |a| && a[i].0 == k
    requires forall j :: 0 <= j < i ==> a[j].0 != k
    ensures Get(a + b, k) == Some(a[i].1)
  {
    GetFirstAt(a, k, i);
    GetAppend(a, b, k);
  }

  /**
   * The update stores the transcription, and sets the episode number
   * exactly when the data carries one, to that number.
   */
  lemma {:induction false} TranscriptUpdateStores(data: Dict, stored: Dict, transcription: string, now: string)
    ensures var u := TranscriptUpdate(data, stored, transcription, now);
      Get(u, "transcript") == Some(Str(transcription)) &&
      (HasKey(u, "episode_number") <==> HasKey(data, "episode_number")) &&
      (HasKey(data, "episode_number") ==> Get(u, "episode_number") == Get(data, "episode_number"))
  {
    var a := MergedFields(data, stored, now);
    var b := TranscriptFields(data, stored, transcription, now);
    var b1: Dict := [("transcript_url", Merged(data, stored, "transcript_url", Str(""))),
                     ("transcript", Str(transcription)), ("updated_at", Str(now))];
    var c: Dict := if HasKey(data, "episode_number") then [("episode_number", GetOr(data, "episode_number", Null))] else [];
    assert b == b1 + c;
    assert !HasKey(a, "transcript") by { HasKeyAt(a, "transcript"); }
    assert !HasKey(a, "episode_number") by { HasKeyAt(a, "episode_number"); }
    assert !HasKey(b1, "episode_number") by { HasKeyAt(b1, "episode_number"); }
    GetFirstAt(b1, "transcript", 1);
    GetAppend(b1, c, "transcript");
    GetAppend(b1, c, "episode_number");
    GetAppend(a, b, "transcript");
    GetAppend(a, b, "episode_number");
    if HasKey(data, "episode_number") {
      GetFirstAt(c, "episode_number", 0);
    }
  }

  /**
   * `store_transcription` (lines 118-196): checks the episode id, the
   * podcast id, that the podcast exists and that the episode exists, in
   * that order, then updates the episode row.
   */
  function StoreTranscription(hasClient: bool, t: Tables, data: Dict, transcription: string, now: string,
                              show: Value -> string): (o: Outcome<Value>)
    ensures o.tables.podcasts == t.podcasts && o.tables.summaries == t.summaries
    ensures o.result.Err? ==> o.tables == t
  {
    var episodeId := GetOr(data, "id", Null);
    var podcastId := GetOr(data, "podcast_id", Null);
    if !hasClient then Outcome(Err(NoClient), t)
    else if !Truthy(episodeId) then Outcome(Err("episode_id is required in episode_data"), t)
    else if !Truthy(podcastId) then Outcome(Err("podcast_id is required in episode_data"), t)
    else if First(t.podcasts, "id", podcastId).None? || First(t.podcasts, "id", podcastId).value == [] then
      Outcome(Err("Referenced podcast with ID " + show(podcastId) + " does not exist"), t)
    else
      match First(t.episodes, "id", episodeId)
      case None =>
        Outcome(Err("Episode with ID " + show(episodeId) + " does not exist - cannot store transcription"), t)
      case Some(row) =>
        var update := TranscriptUpdate(data, Project(row, EpisodeColumns), transcription, now);
        Outcome(Ok(episodeId), t.(episodes := UpdateWhere(t.episodes, "id", episodeId, update)))
  }

  /** Each check of `store_transcription` fails exactly when the earlier ones pass and it does not. */
  lemma StoreTranscriptionChecks(t: Tables, data: Dict, transcription: string, now: string, show: Value -> string)
    ensures var o := StoreTranscription(true, t, data, transcription, now, show);
      var episodeId := GetOr(data, "id", Null);
      var podcastId := GetOr(data, "podcast_id", Null);
      (o.result == Err("episode_id is required in episode_data") <==> !Truthy(episodeId)) &&
      (o.result == Err("podcast_id is required in episode_data") <==> Truthy(episodeId) && !Truthy(podcastId)) &&
      (o.result.Ok? <==>
        Truthy(episodeId) && Truthy(podcastId) && First(t.podcasts, "id", podcastId).Some? &&
        First(t.episodes, "id", episodeId).Some?)
  {
    StoreNeedsEpisodeId(t, data, transcription, now, show);
    StoreNeedsPodcastId(t, data, transcription, now, show);
    StoreSucceeds(t, data, transcription, now, show);
  }

  /** The first check: a missing episode id. */
  lemma StoreNeedsEpisodeId(t: Tables, data: Dict, transcription: string, now: string, show: Value -> string)
    ensures (StoreTranscription(true, t, data, transcription, now, show).result ==
             Err("episode_id is required in episode_data")) <==> !Truthy(GetOr(data, "id", Null))
  {
    var o := StoreTranscription(true, t, data, transcription, now, show);
    if o.result.Err? {
      assert o.result.error[0] != 'e' || o.result.error == "episode_id is required in episode_data";
    }
  }

  /** The second check: a missing podcast id, once the episode id is given. */
  lemma StoreNeedsPodcastId(t: Tables, data: Dict, transcription: string, now: string, show: Value -> string)
    ensures (StoreTranscription(true, t, data, transcription, now, show).result ==
             Err("podcast_id is required in episode_data")) <==>
      Truthy(GetOr(data, "id", Null)) && !Truthy(GetOr(data, "podcast_id", Null))
  {
    var o := StoreTranscription(true, t, data, transcription, now, show);
    if o.result.Err? {
      assert o.result.error[0] != 'e' || o.result.error != "podcast_id is required in episode_data";
    }
  }

  /** The update happens exactly when both ids are given and name an existing podcast and episode. */
  lemma StoreSucceeds(t: Tables, data: Dict, transcription: string, now: string, show: Value -> string)
    ensures var o := StoreTranscription(true, t, data, transcription, now, show);
      var episodeId := GetOr(data, "id", Null);
      var podcastId := GetOr(data, "podcast_id", Null);
      o.result.Ok? <==>
        Truthy(episodeId) && Truthy(podcastId) && First(t.podcasts, "id", podcastId).Some? &&
        First(t.episodes, "id", episodeId).Some?
  {
    var p := First(t.podcasts, "id", GetOr(data, "podcast_id", Null));
    if p.Some? {
      assert HasKey(p.value, "id");
    }
  }

  /**
   * A stored transcription changes only the rows of that episode id, each
   * to the row with the merged update assigned.
   */
  lemma StoreTranscriptionUpdates(t: Tables, data: Dict, transcription: string, now: string, show: Value -> string, i: nat)
    requires StoreTranscription(true, t, data, transcription, now, show).result.Ok?
    requires i < |t.episodes|
    ensures var o := StoreTranscription(true, t, data, transcription, now, show);
      var episodeId := GetOr(data, "id", Null);
      var stored := Project(First(t.episodes, "id", episodeId).value, EpisodeColumns);
      |o.tables.episodes| == |t.episodes| &&
      (Matches(t.episodes[i], "id", episodeId) ==>
        o.tables.episodes[i] == Assign(t.episodes[i], TranscriptUpdate(data, stored, transcription, now))) &&
      (!Matches(t.episodes[i], "id", episodeId) ==> o.tables.episodes[i] == t.episodes[i])
  {
    var episodeId := GetOr(data, "id", Null);
    var stored := Project(First(t.episodes, "id", episodeId).value, EpisodeColumns);
    UpdateWhereRows(t.episodes, "id", episodeId, TranscriptUpdate(data, stored, transcription, now), i);
  }

  /** The row `store_summary` inserts (lines 229-240). */
  function SummaryRecord(id: string, episodeId: string, userId: string, summary: string, keyPoints: Value,
                         highlights: Value, detailLevel: string, now: string): Dict
  {
    [("id", Str(id)), ("episode_id", Str(episodeId)), ("user_id", Str(userId)), ("summary", Str(summary))] +
    [("key_points", keyPoints), ("highlights", highlights), ("detail_level", Str(detailLevel)),
     ("created_at", Str(now)), ("updated_at", Str(now))]
  }

  /** `store_summary` (lines 198-256): an unknown episode is refused before anything is inserted. */
  function StoreSummary(hasClient: bool, t: Tables, episodeId: string, summary: string, userId: string,
                        keyPoints: Value, highlights: Value, detailLevel: string, newId: string, now: string)
    : (o: Outcome<string>)
    ensures !hasClient ==> o == Outcome(Err(NoClient), t)
    ensures hasClient && First(t.episodes, "id", Str(episodeId)).None? ==>
      o == Outcome(Err("Referenced episode with ID " + episodeId + " does not exist"), t)
    ensures o.result.Ok? ==> o.result.value == newId
    ensures o.result.Ok? ==> o.tables == t.(summaries := t.summaries + [SummaryRecord(newId, episodeId, userId, summary, keyPoints, highlights, detailLevel, now)])
  {
    if !hasClient then Outcome(Err(NoClient), t)
    else if First(t.episodes, "id", Str(episodeId)).None? then
      Outcome(Err("Referenced episode with ID " + episodeId + " does not exist"), t)
    else
      var row := SummaryRecord(newId, episodeId, userId, summary, keyPoints, highlights, detailLevel, now);
      Outcome(Ok(newId), t.(summaries := t.summaries + [row]))
  }

  /** A stored summary is the user's, for that episode, and shows up in the user's summaries. */
  lemma StoredSummaryListed(t: Tables, episodeId: string, summary: string, userId: string,
                            keyPoints: Value, highlights: Value, detailLevel: string, newId: string, now: string)
    requires First(t.episodes, "id", Str(episodeId)).Some?
    ensures var o := StoreSummary(true, t, episodeId, summary, userId, keyPoints, highlights, detailLevel, newId, now);
      var row := SummaryRecord(newId, episodeId, userId, summary, keyPoints, highlights, detailLevel, now);
      o.result == Ok(newId) && row in UserSummaries(true, o.tables, userId, Str(episodeId)).value
  {
    var o := StoreSummary(true, t, episodeId, summary, userId, keyPoints, highlights, detailLevel, newId, now);
    var row := SummaryRecord(newId, episodeId, userId, summary, keyPoints, highlights, detailLevel, now);
    var a: Dict := [("id", Str(newId)), ("episode_id", Str(episodeId)), ("user_id", Str(userId)), ("summary", Str(summary))];
    var b: Dict := [("key_points", keyPoints), ("highlights", highlights), ("detail_level", Str(detailLevel)),
                    ("created_at", Str(now)), ("updated_at", Str(now))];
    GetFirstAt(a, "episode_id", 1);
    GetFirstAt(a, "user_id", 2);
    GetAppend(a, b, "episode_id");
    GetAppend(a, b, "user_id");
    assert row == a + b;
    UserSummariesExactly(o.tables, userId, Str(episodeId));
    assert multiset(o.tables.summaries)[row] > 0;
    assert multiset(UserSummaries(true, o.tables, userId, Str(episodeId)).value)[row] > 0;
  }

  /** `client.table("podcasts").update(data).eq("id", podcastId)`, used directly by the podcast service. */
  function UpdatePodcast(hasClient: bool, t: Tables, podcastId: Value, data: Dict): (o: Outcome<()>)
    ensures !hasClient ==> o == Outcome(Err(NoTable), t)
    ensures o.tables.episodes == t.episodes && o.tables.summaries == t.summaries
  {
    if !hasClient then Outcome(Err(NoTable), t)
    else Outcome(Ok(()), t.(podcasts := UpdateWhere(t.podcasts, "id", podcastId, data)))
  }

  // ---------------------------------------------------------------------
  // The manager

  /** `SupabaseManager`: the client flag and the three tables it reads and writes. */
  class SupabaseManager {
    var hasClient: bool
    var podcasts: seq<Dict>
    var episodes: seq<Dict>
    var summaries: seq<Dict>

    constructor (hasClient: bool, t: Tables)
      ensures this.hasClient == hasClient && Snapshot() == t
    {
      this.hasClient := hasClient;
      podcasts, episodes, summaries := t.podcasts, t.episodes, t.summaries;
    }

    function Snapshot(): Tables
      reads this
    {
      Tables(podcasts, episodes, summaries)
    }

    method Apply<T>(o: Outcome<T>) returns (r: Result<T>)
      modifies this
      ensures r == o.result && Snapshot() == o.tables && hasClient == old(hasClient)
    {
      podcasts, episodes, summaries := o.tables.podcasts, o.tables.episodes, o.tables.summaries;
      r := o.result;
    }

    method GetPodcastByFeedUrlM(feedUrl: Value) returns (r: Result<Option<Dict>>)
      ensures r == GetPodcastByFeedUrl(hasClient, Snapshot(), feedUrl)
    {
      if !hasClient {
        return Err(NoClient);
      }
      r := Ok(First(podcasts, "feed_url", feedUrl));
    }

    method ListEpisodesM(podcastId: Value) returns (r: Result<seq<Dict>>)
      ensures r == ListEpisodes(hasClient, Snapshot(), podcastId)
    {
      if !hasClient {
        return Err(NoClient);
      }
      var rows := ProjectAll(Where(episodes, "podcast_id", podcastId), ListedColumns);
      r := Ok(SortNewestFirst(rows, "published_at"));
    }

    method GetUserSummaries(userId: string, episodeId: Value) returns (r: Result<seq<Dict>>)
      ensures r == UserSummaries(hasClient, Snapshot(), userId, episodeId)
    {
      if !hasClient {
        return Err(NoClient);
      }
      var rows := Where(summaries, "user_id", Str(userId));
      if Truthy(episodeId) {
        rows := Where(rows, "episode_id", episodeId);
      }
      r := Ok(SortNewestFirst(rows, "created_at"));
    }

    method UpsertPodcastM(data: Dict, newId: string) returns (r: Result<Value>)
      modifies this
      ensures var o := UpsertPodcast(old(hasClient), old(Snapshot()), data, newId);
        r == o.result && Snapshot() == o.tables && hasClient == old(hasClient)
    {
      if !HasKey(data, "feed_url") {
        return Err("KeyError: 'feed_url'");
      }
      var existing := GetPodcastByFeedUrlM(GetOr(data, "feed_url", Null));
      if existing.Err? {
        return Err(existing.error);
      }
      match existing.value {
        case Some(row) =>
          if !HasKey(row, "id") {
            return Err("KeyError: 'id'");
          }
          var podcastId := GetOr(row, "id", Null);
          podcasts := UpdateWhere(podcasts, "id", podcastId, data);
          r := Ok(podcastId);
        case None =>
          var inserted := WithId(data, newId);
          podcasts := podcasts + [inserted];
          r := Ok(GetOr(inserted, "id", Null));
      }
    }

    method UpsertEpisodeM(data: Dict, newId: string) returns (r: Result<Value>)
      modifies this
      ensures var o := UpsertEpisode(old(hasClient), old(Snapshot()), data, newId);
        r == o.result && Snapshot() == o.tables && hasClient == old(hasClient)
    {
      if !HasKey(data, "podcast_id") {
        return Err("KeyError: 'podcast_id'");
      }
      if !hasClient {
        return Err(NoTable);
      }
      var podcastId := GetOr(data, "podcast_id", Null);
      var title := GetOr(data, "title", Null);
      if HasKey(data, "title") && Truthy(title) {
        var existing := SameTitle(episodes, podcastId, title);
        if existing.Some? {
          if !HasKey(existing.value, "id") {
            return Err("KeyError: 'id'");
          }
          var episodeId := GetOr(existing.value, "id", Null);
          episodes := UpdateWhere(episodes, "id", episodeId, data);
          return Ok(episodeId);
        }
      }
      var inserted := WithId(data, newId);
      episodes := episodes + [inserted];
      if !HasKey(data, "title") {
        return Err("KeyError: 'title'");
      }
      r := Ok(GetOr(inserted, "id", Null));
    }

    method StoreTranscriptionM(data: Dict, transcription: string, now: string, show: Value -> string)
        returns (r: Result<Value>)
      modifies this
      ensures var o := StoreTranscription(old(hasClient), old(Snapshot()), data, transcription, now, show);
        r == o.result && Snapshot() == o.tables && hasClient == old(hasClient)
    {
      if !hasClient {
        return Err(NoClient);
      }
      var episodeId := GetOr(data, "id", Null);
      if !Truthy(episodeId) {
        return Err("episode_id is required in episode_data");
      }
      var podcastId := GetOr(data, "podcast_id", Null);
      if !Truthy(podcastId) {
        return Err("podcast_id is required in episode_data");
      }
      var podcast := First(podcasts, "id", podcastId);
      if podcast.None? || podcast.value == [] {
        return Err("Referenced podcast with ID " + show(podcastId) + " does not exist");
      }
      var existing := First(episodes, "id", episodeId);
      if existing.None? {
        return Err("Episode with ID " + show(episodeId) + " does not exist - cannot store transcription");
      }
      var update := TranscriptUpdate(data, Project(existing.value, EpisodeColumns), transcription, now);
      episodes := UpdateWhere(episodes, "id", episodeId, update);
      r := Ok(episodeId);
    }

    method StoreSummaryM(episodeId: string, summary: string, userId: string, keyPoints: Value,
                         highlights: Value, detailLevel: string, newId: string, now: string)
        returns (r: Result<string>)
      modifies this
      ensures var o := StoreSummary(old(hasClient), old(Snapshot()), episodeId, summary, userId, keyPoints,
                                    highlights, detailLevel, newId, now);
        r == o.result && Snapshot() == o.tables && hasClient == old(hasClient)
    {
      if !hasClient {
        return Err(NoClient);
      }
      if First(episodes, "id", Str(episodeId)).None? {
        return Err("Referenced episode with ID " + episodeId + " does not exist");
      }
      summaries := summaries + [SummaryRecord(newId, episodeId, userId, summary, keyPoints, highlights, detailLevel, now)];
      r := Ok(newId);
    }

    method UpdatePodcastM(podcastId: Value, data: Dict) returns (r: Result<()>)
      modifies this
      ensures var o := UpdatePodcast(old(hasClient), old(Snapshot()), podcastId, data);
        r == o.result && Snapshot() == o.tables && hasClient == old(hasClient)
    {
      if !hasClient {
        return Err(NoTable);
      }
      podcasts := UpdateWhere(podcasts, "id", podcastId, data);
      r := Ok(());
    }
  }
}
