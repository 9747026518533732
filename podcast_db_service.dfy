/**
 * `services/podcast_db_service.py`: bringing a crawled podcast into the
 * database. `update_existing_podcast` refreshes a known podcast's metadata
 * and adds only the episodes whose urls are not stored yet;
 * `create_new_podcast` inserts a podcast with all its episodes. Both number
 * the episodes they add consecutively and leave the podcast "active".
 * The database is the `SupabaseManager` of module Database; the id it
 * gives the n-th row of a table is `ids(n)`, and `now` is the clock.
 */
module PodcastDbService {
  import opened Wrappers
  import opened Json
  import opened Database

  /** What `update_existing_podcast` returns (lines 76-82). */
  datatype UpdateReport = UpdateReport(podcastId: Value, title: Value, newEpisodesAdded: nat, totalEpisodes: nat, status: string)

  /** What `create_new_podcast` returns (lines 118-123). */
  datatype CreateReport = CreateReport(podcastId: Value, title: Value, episodeCount: nat, status: string)

  // ---------------------------------------------------------------------
  // Metadata

  /** The pair `(key, value)` of the new data changes a field the stored podcast has. */
  predicate Differs(existing: Dict, pair: (string, Value))
  {
    HasKey(existing, pair.0) && Get(existing, pair.0) != Some(pair.1)
  }

  /** Lines 32-35: some key of the new data is stored with a different value. */
  predicate NeedsUpdate(existing: Dict, data: Dict)
  {
    exists i :: 0 <= i < |data| && Differs(existing, data[i])
  }

  /** The scan of lines 29-35, stopping at the first changed field. */
  method CheckNeedsUpdate(existing: Dict, data: Dict) returns (needs: bool)
    ensures needs <==> NeedsUpdate(existing, data)
  {
    needs := false;
    var i := 0;
    while i < |data|
      invariant 0 <= i <= |data|
      invariant !needs ==> forall j :: 0 <= j < i ==> !Differs(existing, data[j])
      invariant needs ==> NeedsUpdate(existing, data)
    {
      if HasKey(existing, data[i].0) && Get(existing, data[i].0) != Some(data[i].1) {
        needs := true;
        break;
      }
      i := i + 1;
    }
  }

  /** The podcast data with its id forced to the stored podcast's (lines 27-28). */
  function WithPodcastId(data: Dict, podcastId: Value): (r: Dict)
    ensures Get(r, "id") == Some(podcastId)
    ensures forall k :: k != "id" ==> Get(r, k) == Get(data, k)
  {
    Put(data, "id", podcastId)
  }

  /** The columns set when the podcast becomes active (lines 70-73, 112-115). */
  function Activated(now: string): Dict
  {
    [("status", Str("active")), ("updated_at", Str(now))]
  }

  lemma ActivatedStatus(now: string)
    ensures HasKey(Activated(now), "status") && Get(Activated(now), "status") == Some(Str("active"))
  {
  }

  // ---------------------------------------------------------------------
  // Adding episodes

  /** The truthy values of column `key`: the url sets of lines 46-47. */
  function Urls(rows: seq<Dict>, key: string): (r: seq<Value>)
    ensures forall v :: v in r <==> Truthy(v) && exists i :: 0 <= i < |rows| && GetOr(rows[i], key, Null) == v
  {
    if rows == [] then []
    else
      var v := GetOr(rows[0], key, Null);
      var rest := Urls(rows[1..], key);
      assert forall i :: 0 < i < |rows| ==> rows[i] == rows[1..][i - 1];
      assert forall i :: 0 <= i < |rows| - 1 ==> rows[1..][i] == rows[i + 1];
      (if Truthy(v) then [v] else []) + rest
  }

  /** Which incoming episodes are added: all of them, or those with a url not stored yet. */
  datatype Rule = All | Unseen(audio: seq<Value>, transcripts: seq<Value>)

  /** Lines 56-59 (or every episode, for `create_new_podcast`). */
  predicate Keeps(rule: Rule, episode: Dict)
  {
    match rule
    case All => true
    case Unseen(audio, transcripts) =>
      var a := GetOr(episode, "audio_url", Str(""));
      var t := GetOr(episode, "transcript_url", Str(""));
      (Truthy(a) && a !in audio) || (Truthy(t) && t !in transcripts)
  }

  /** The incoming episodes the rule adds, in input order. */
  function Kept(rule: Rule, eps: seq<Dict>): seq<Dict>
  {
    if eps == [] then []
    else
      var last := eps[|eps| - 1];
      Kept(rule, eps[..|eps| - 1]) + (if Keeps(rule, last) then [last] else [])
  }

  /** Lines 54-59: an incoming episode is added exactly when the rule keeps it. */
  lemma {:induction false} KeptExactly(rule: Rule, eps: seq<Dict>)
    ensures |Kept(rule, eps)| <= |eps|
    ensures forall x :: x in Kept(rule, eps) <==> x in eps && Keeps(rule, x)
  {
    if eps != [] {
      var last := eps[|eps| - 1];
      KeptExactly(rule, eps[..|eps| - 1]);
      assert eps == eps[..|eps| - 1] + [last];
    }
  }

  lemma {:induction false} KeptAll(eps: seq<Dict>)
    ensures Kept(All, eps) == eps
  {
    if eps != [] {
      KeptAll(eps[..|eps| - 1]);
      assert eps == eps[..|eps| - 1] + [eps[|eps| - 1]];
    }
  }

  /** Lines 60-61 and 104-105: the episode tied to the podcast and given its number. */
  function Numbered(episode: Dict, podcastId: Value, n: int): (r: Dict)
    ensures Get(r, "podcast_id") == Some(podcastId)
    ensures Get(r, "episode_number") == Some(Int(n))
    ensures forall k :: k != "podcast_id" && k != "episode_number" ==> Get(r, k) == Get(episode, k)
  {
    var e := [("podcast_id", podcastId), ("episode_number", Int(n))];
    assert KeysUnique(e) by {
      assert e[1..][1..] == [];
      KeyAbsent(e[1..], "podcast_id");
    }
    GetFirstAt(e, "podcast_id", 0);
    GetFirstAt(e, "episode_number", 1);
    forall k | k != "podcast_id" && k != "episode_number" ensures !HasKey(e, k) {
      KeyAbsent(e, k);
    }
    Update(episode, e)
  }

  /** A store operation taking the client flag, the tables, a row and the id a new row gets. */
  type Upsert = (bool, Tables, Dict, string) -> Outcome<Value>

  /** Where the episode loop stands: the last upsert's outcome, the tables, the episodes upserted. */
  datatype Adding = Adding(result: Result<()>, tables: Tables, added: seq<Dict>)

  /**
   * The loops of lines 54-64 and 102-107: each kept episode, numbered from
   * `first` on, is stored by `upsert` (the database's `upsert_episode`);
   * the first failing upsert ends the loop.
   */
  function AddEpisodes(upsert: Upsert, hasClient: bool, t: Tables, podcastId: Value, rule: Rule, first: int,
                       eps: seq<Dict>, ids: nat -> string): Adding
  {
    if eps == [] then Adding(Ok(()), t, [])
    else AddStep(upsert, hasClient, AddEpisodes(upsert, hasClient, t, podcastId, rule, first, eps[..|eps| - 1], ids),
                 podcastId, rule, first, eps[|eps| - 1], ids)
  }

  /** One turn of the loop: a kept episode is numbered and upserted, unless an upsert has failed. */
  function AddStep(upsert: Upsert, hasClient: bool, prev: Adding, podcastId: Value, rule: Rule, first: int,
                   episode: Dict, ids: nat -> string): Adding
  {
    if prev.result.Err? || !Keeps(rule, episode) then prev
    else
      var numbered := Numbered(episode, podcastId, first + |prev.added|);
      var o := upsert(hasClient, prev.tables, numbered, ids(|prev.tables.episodes|));
      Adding(if o.result.Ok? then Ok(()) else Err(o.result.error), o.tables, prev.added + [numbered])
  }

  /** A turn adds the numbered episode when it is kept and no upsert has failed, and succeeds only after success. */
  lemma AddStepAdded(upsert: Upsert, hasClient: bool, prev: Adding, podcastId: Value, rule: Rule, first: int,
                     episode: Dict, ids: nat -> string)
    ensures var a := AddStep(upsert, hasClient, prev, podcastId, rule, first, episode, ids);
      (a.result.Ok? ==> prev.result.Ok?) &&
      (prev.result.Ok? && Keeps(rule, episode) ==> a.added == prev.added + [Numbered(episode, podcastId, first + |prev.added|)]) &&
      (!Keeps(rule, episode) ==> a == prev)
  {
  }

  /** A turn that upserts: its outcome is the upsert's. */
  lemma AddStepUnfold(upsert: Upsert, hasClient: bool, prev: Adding, podcastId: Value, rule: Rule, first: int,
                     episode: Dict, ids: nat -> string)
    requires prev.result.Ok? && Keeps(rule, episode)
    ensures var numbered := Numbered(episode, podcastId, first + |prev.added|);
      var o := upsert(hasClient, prev.tables, numbered, ids(|prev.tables.episodes|));
      AddStep(upsert, hasClient, prev, podcastId, rule, first, episode, ids) == Adding(if o.result.Ok? then Ok(()) else Err(o.result.error), o.tables, prev.added + [numbered])
  {
  }

  /** The loop over one more episode is one more turn. */
  lemma AddEpisodesNext(upsert: Upsert, hasClient: bool, t: Tables, podcastId: Value, rule: Rule, first: int,
                        eps: seq<Dict>, i: nat, ids: nat -> string)
    requires i < |eps|
    ensures AddEpisodes(upsert, hasClient, t, podcastId, rule, first, eps[..i + 1], ids) ==
            AddStep(upsert, hasClient, AddEpisodes(upsert, hasClient, t, podcastId, rule, first, eps[..i], ids),
                    podcastId, rule, first, eps[i], ids)
  {
    assert eps[..i + 1][..i] == eps[..i];
  }

  /** A failed upsert ends the loop: later episodes change nothing (nor do none). */
  lemma {:induction false} AddEpisodesStops(upsert: Upsert, hasClient: bool, t: Tables, podcastId: Value, rule: Rule, first: int,
                                            eps: seq<Dict>, n: nat, ids: nat -> string)
    requires n <= |eps|
    requires n == |eps| || AddEpisodes(upsert, hasClient, t, podcastId, rule, first, eps[..n], ids).result.Err?
    ensures AddEpisodes(upsert, hasClient, t, podcastId, rule, first, eps, ids) ==
            AddEpisodes(upsert, hasClient, t, podcastId, rule, first, eps[..n], ids)
    decreases |eps|
  {
    if n < |eps| {
      var init := eps[..|eps| - 1];
      assert init[..n] == eps[..n];
      AddEpisodesStops(upsert, hasClient, t, podcastId, rule, first, init, n, ids);
    } else {
      assert eps[..n] == eps;
    }
  }

  /** The j-th episode added is the j-th one kept, tied to the podcast and numbered `first + j`. */
  predicate NumberedInOrder(added: seq<Dict>, kept: seq<Dict>, podcastId: Value, first: int)
  {
    |added| == |kept| && forall j :: 0 <= j < |added| ==> added[j] == Numbered(kept[j], podcastId, first + j)
  }

  lemma NumberedInOrderNext(added: seq<Dict>, kept: seq<Dict>, podcastId: Value, first: int, episode: Dict)
    requires NumberedInOrder(added, kept, podcastId, first)
    ensures NumberedInOrder(added + [Numbered(episode, podcastId, first + |added|)], kept + [episode], podcastId, first)
  {
  }

  /** A successful turn keeps the numbering in step with the kept episodes. */
  lemma AddStepNumbers(upsert: Upsert, hasClient: bool, prev: Adding, podcastId: Value, rule: Rule, first: int,
                       episode: Dict, kept: seq<Dict>, ids: nat -> string)
    requires NumberedInOrder(prev.added, kept, podcastId, first)
    requires AddStep(upsert, hasClient, prev, podcastId, rule, first, episode, ids).result.Ok?
    ensures NumberedInOrder(AddStep(upsert, hasClient, prev, podcastId, rule, first, episode, ids).added,
                            kept + (if Keeps(rule, episode) then [episode] else []), podcastId, first)
  {
    if Keeps(rule, episode) {
      NumberedInOrderNext(prev.added, kept, podcastId, first, episode);
    } else {
      assert kept + [] == kept;
    }
  }

  /**
   * When every upsert succeeds, the episodes added are exactly the kept
   * ones, in input order, the j-th tied to the podcast and numbered
   * `first + j`.
   */
  lemma {:induction false} AddEpisodesNumbers(upsert: Upsert, hasClient: bool, t: Tables, podcastId: Value, rule: Rule, first: int,
                                              eps: seq<Dict>, ids: nat -> string)
    requires AddEpisodes(upsert, hasClient, t, podcastId, rule, first, eps, ids).result.Ok?
    ensures NumberedInOrder(AddEpisodes(upsert, hasClient, t, podcastId, rule, first, eps, ids).added, Kept(rule, eps), podcastId, first)
  {
    if eps != [] {
      var init, last := eps[..|eps| - 1], eps[|eps| - 1];
      var prev := AddEpisodes(upsert, hasClient, t, podcastId, rule, first, init, ids);
      AddStepAdded(upsert, hasClient, prev, podcastId, rule, first, last, ids);
      AddEpisodesNumbers(upsert, hasClient, t, podcastId, rule, first, init, ids);
      AddStepNumbers(upsert, hasClient, prev, podcastId, rule, first, last, Kept(rule, init), ids);
    }
  }

  /** Without a new episode the loop writes nothing. */
  lemma {:induction false} AddEpisodesNoneKept(upsert: Upsert, hasClient: bool, t: Tables, podcastId: Value, rule: Rule, first: int,
                                               eps: seq<Dict>, ids: nat -> string)
    requires AddEpisodes(upsert, hasClient, t, podcastId, rule, first, eps, ids).added == []
    ensures AddEpisodes(upsert, hasClient, t, podcastId, rule, first, eps, ids) == Adding(Ok(()), t, [])
  {
    if eps != [] {
      AddEpisodesNoneKept(upsert, hasClient, t, podcastId, rule, first, eps[..|eps| - 1], ids);
    }
  }

  // ---------------------------------------------------------------------
  // update_existing_podcast

  /** The url rule of lines 46-47 over the episodes the podcast already has. */
  function UnseenBy(listed: seq<Dict>): Rule
  {
    Unseen(Urls(listed, "audio_url"), Urls(listed, "transcript_url"))
  }

  /** Lines 27-41: the podcast data, with the stored id, is upserted only when a field changed. */
  function Refresh(hasClient: bool, t: Tables, existing: Dict, data: Dict, ids: nat -> string): (o: Outcome<Value>)
    ensures o.tables.episodes == t.episodes && o.tables.summaries == t.summaries
  {
    var podcastId := GetOr(existing, "id", Null);
    var d := WithPodcastId(data, podcastId);
    if NeedsUpdate(existing, d) then UpsertPodcast(hasClient, t, d, ids(|t.podcasts|)) else Outcome(Ok(podcastId), t)
  }

  /** Lines 12-82. */
  function UpdateExisting(hasClient: bool, t: Tables, existing: Dict, data: Dict, eps: seq<Dict>,
                          ids: nat -> string, now: string): Outcome<UpdateReport>
  {
    if !HasKey(existing, "id") then Outcome(Err("KeyError: 'id'"), t)
    else
      var podcastId := GetOr(existing, "id", Null);
      var d := WithPodcastId(data, podcastId);
      var up := Refresh(hasClient, t, existing, data, ids);
      if up.result.Err? then Outcome(Err(up.result.error), up.tables)
      else AddAndReport(hasClient, up.tables, podcastId, d, NeedsUpdate(existing, d), eps, ids, now)
  }

  /** The episodes the podcast already has, as `list_episodes` returns them. */
  function Listed(t: Tables, podcastId: Value): seq<Dict>
  {
    ListEpisodes(true, t, podcastId).value
  }

  /** Lines 43-64: the loop over the incoming episodes, for a podcast whose listing succeeded. */
  function AddNew(t: Tables, podcastId: Value, eps: seq<Dict>, ids: nat -> string): Adding
  {
    var listed := Listed(t, podcastId);
    AddEpisodes(UpsertEpisode, true, t, podcastId, UnseenBy(listed), |listed| + 1, eps, ids)
  }

  /** Lines 43-82: the episodes added, the status set, the report. */
  function AddAndReport(hasClient: bool, t: Tables, podcastId: Value, d: Dict, needs: bool, eps: seq<Dict>,
                        ids: nat -> string, now: string): Outcome<UpdateReport>
  {
    if !hasClient then Outcome(Err(NoClient), t)
    else Report(AddNew(t, podcastId, eps, ids), podcastId, d, needs, |Listed(t, podcastId)|, now)
  }

  /** Lines 66-82: after the loop, the status is set when anything changed and the report is built. */
  function Report(a: Adding, podcastId: Value, d: Dict, needs: bool, stored: nat, now: string): Outcome<UpdateReport>
  {
    var count := |a.added|;
    var fin := if count > 0 || needs then UpdatePodcast(true, a.tables, podcastId, Activated(now))
               else Outcome(Ok(()), a.tables);
    if a.result.Err? then Outcome(Err(a.result.error), a.tables)
    else if !HasKey(d, "title") then Outcome(Err("KeyError: 'title'"), fin.tables)
    else Outcome(Ok(UpdateReport(podcastId, GetOr(d, "title", Null), count, stored + count, "success")), fin.tables)
  }

  /** A successful update went through the refresh and the episode loop. */
  lemma UpdateExistingSteps(hasClient: bool, t: Tables, existing: Dict, data: Dict, eps: seq<Dict>,
                            ids: nat -> string, now: string)
    requires UpdateExisting(hasClient, t, existing, data, eps, ids, now).result.Ok?
    ensures var podcastId := GetOr(existing, "id", Null);
      var d := WithPodcastId(data, podcastId);
      var up := Refresh(hasClient, t, existing, data, ids);
      var a := AddNew(up.tables, podcastId, eps, ids);
      var r := UpdateExisting(hasClient, t, existing, data, eps, ids, now);
      hasClient && HasKey(existing, "id") && up.result.Ok? && a.result.Ok? &&
      Listed(up.tables, podcastId) == Listed(t, podcastId) &&
      r.result.value.podcastId == podcastId &&
      r.result.value.newEpisodesAdded == |a.added| &&
      r.result.value.totalEpisodes == |Listed(t, podcastId)| + |a.added| &&
      r.tables == if |a.added| > 0 || NeedsUpdate(existing, d) then UpdatePodcast(true, a.tables, podcastId, Activated(now)).tables
                  else a.tables
  {
    var podcastId := GetOr(existing, "id", Null);
    var up := Refresh(hasClient, t, existing, data, ids);
    assert Listed(up.tables, podcastId) == Listed(t, podcastId);
  }

  /**
   * The report counts the episodes whose url is new, numbered after the
   * podcast's stored episodes, and the total is the stored count plus them.
   */
  lemma UpdateExistingCounts(hasClient: bool, t: Tables, existing: Dict, data: Dict, eps: seq<Dict>,
                             ids: nat -> string, now: string)
    requires UpdateExisting(hasClient, t, existing, data, eps, ids, now).result.Ok?
    ensures var r := UpdateExisting(hasClient, t, existing, data, eps, ids, now).result.value;
      var podcastId := GetOr(existing, "id", Null);
      r.podcastId == podcastId &&
      r.newEpisodesAdded == |Kept(UnseenBy(Listed(t, podcastId)), eps)| &&
      r.totalEpisodes == |Where(t.episodes, "podcast_id", podcastId)| + r.newEpisodesAdded
  {
    var podcastId := GetOr(existing, "id", Null);
    var up := Refresh(hasClient, t, existing, data, ids);
    var listed := Listed(t, podcastId);
    UpdateExistingSteps(hasClient, t, existing, data, eps, ids, now);
    ListEpisodesSound(t, podcastId);
    AddEpisodesNumbers(UpsertEpisode, true, up.tables, podcastId, UnseenBy(listed), |listed| + 1, eps, ids);
  }

  /** Each episode of a numbering carries the podcast's id and its number. */
  lemma NumberedInOrderFields(added: seq<Dict>, kept: seq<Dict>, podcastId: Value, first: int)
    requires NumberedInOrder(added, kept, podcastId, first)
    ensures forall j :: 0 <= j < |added| ==>
      Get(added[j], "podcast_id") == Some(podcastId) && Get(added[j], "episode_number") == Some(Int(first + j))
  {
  }

  /**
   * The episodes added are the new ones in input order, each carrying the
   * podcast's id and the next number after the stored episodes and the
   * ones added before it.
   */
  lemma UpdateExistingNumbers(hasClient: bool, t: Tables, existing: Dict, data: Dict, eps: seq<Dict>,
                              ids: nat -> string, now: string)
    requires UpdateExisting(hasClient, t, existing, data, eps, ids, now).result.Ok?
    ensures var podcastId := GetOr(existing, "id", Null);
      var listed := Listed(t, podcastId);
      var a := AddNew(Refresh(hasClient, t, existing, data, ids).tables, podcastId, eps, ids);
      NumberedInOrder(a.added, Kept(UnseenBy(listed), eps), podcastId, |listed| + 1) &&
      forall j :: 0 <= j < |a.added| ==>
        Get(a.added[j], "podcast_id") == Some(podcastId) && Get(a.added[j], "episode_number") == Some(Int(|listed| + 1 + j))
  {
    var podcastId := GetOr(existing, "id", Null);
    var up := Refresh(hasClient, t, existing, data, ids);
    var listed := Listed(t, podcastId);
    var a := AddNew(up.tables, podcastId, eps, ids);
    UpdateExistingSteps(hasClient, t, existing, data, eps, ids, now);
    assert a == AddEpisodes(UpsertEpisode, true, up.tables, podcastId, UnseenBy(listed), |listed| + 1, eps, ids);
    AddEpisodesNumbers(UpsertEpisode, true, up.tables, podcastId, UnseenBy(listed), |listed| + 1, eps, ids);
    NumberedInOrderFields(a.added, Kept(UnseenBy(listed), eps), podcastId, |listed| + 1);
  }

  /** Lines 37-38 and 69: with no changed field and no new episode, nothing is written. */
  lemma UpdateExistingUnchanged(hasClient: bool, t: Tables, existing: Dict, data: Dict, eps: seq<Dict>,
                                ids: nat -> string, now: string)
    requires !NeedsUpdate(existing, WithPodcastId(data, GetOr(existing, "id", Null)))
    requires UpdateExisting(hasClient, t, existing, data, eps, ids, now).result.Ok?
    requires UpdateExisting(hasClient, t, existing, data, eps, ids, now).result.value.newEpisodesAdded == 0
    ensures UpdateExisting(hasClient, t, existing, data, eps, ids, now).tables == t
  {
    var podcastId := GetOr(existing, "id", Null);
    var listed := Listed(t, podcastId);
    UpdateExistingSteps(hasClient, t, existing, data, eps, ids, now);
    AddEpisodesNoneKept(UpsertEpisode, true, t, podcastId, UnseenBy(listed), |listed| + 1, eps, ids);
  }

  /** An update of the podcast rows with `Activated` leaves every row with that id "active". */
  lemma ActivatedRows(t: Tables, podcastId: Value, now: string)
    ensures var p := UpdatePodcast(true, t, podcastId, Activated(now)).tables.podcasts;
      forall i :: 0 <= i < |p| && Matches(p[i], "id", podcastId) ==> Get(p[i], "status") == Some(Str("active"))
  {
    ActivatedStatus(now);
    var p := UpdatePodcast(true, t, podcastId, Activated(now)).tables.podcasts;
    forall i | 0 <= i < |p| && Matches(p[i], "id", podcastId)
      ensures Get(p[i], "status") == Some(Str("active"))
    {
      UpdateWhereRows(t.podcasts, "id", podcastId, Activated(now), i);
    }
  }

  /** Lines 69-74: when an episode was added, the podcast's rows end "active". */
  lemma UpdateExistingActivates(hasClient: bool, t: Tables, existing: Dict, data: Dict, eps: seq<Dict>,
                                ids: nat -> string, now: string)
    requires UpdateExisting(hasClient, t, existing, data, eps, ids, now).result.Ok?
    requires UpdateExisting(hasClient, t, existing, data, eps, ids, now).result.value.newEpisodesAdded > 0
    ensures var p := UpdateExisting(hasClient, t, existing, data, eps, ids, now).tables.podcasts;
      forall i :: 0 <= i < |p| && Matches(p[i], "id", GetOr(existing, "id", Null)) ==> Get(p[i], "status") == Some(Str("active"))
  {
    var podcastId := GetOr(existing, "id", Null);
    var up := Refresh(hasClient, t, existing, data, ids);
    UpdateExistingSteps(hasClient, t, existing, data, eps, ids, now);
    ActivatedRows(AddNew(up.tables, podcastId, eps, ids).tables, podcastId, now);
  }

  // ---------------------------------------------------------------------
  // create_new_podcast

  /** Lines 84-123. */
  function CreateNew(hasClient: bool, t: Tables, data: Dict, eps: seq<Dict>, ids: nat -> string, now: string)
    : Outcome<CreateReport>
  {
    var d := Put(data, "status", Str("processing"));
    var up := UpsertPodcast(hasClient, t, d, ids(|t.podcasts|));
    if up.result.Err? then Outcome(Err(up.result.error), up.tables)
    else
      var podcastId := up.result.value;
      var a := AddEpisodes(UpsertEpisode, hasClient, up.tables, podcastId, All, 1, eps, ids);
      var fin := UpdatePodcast(hasClient, a.tables, podcastId, Activated(now));
      if a.result.Err? then Outcome(Err(a.result.error), a.tables)
      else if !HasKey(d, "title") then Outcome(Err("KeyError: 'title'"), fin.tables)
      else Outcome(Ok(CreateReport(podcastId, GetOr(d, "title", Null), |a.added|, "success")), fin.tables)
  }

  /**
   * A new podcast gets every episode, in order, numbered 1 to n, the count
   * reported is n, and its rows end "active".
   */
  lemma CreateNewNumbersAll(hasClient: bool, t: Tables, data: Dict, eps: seq<Dict>, ids: nat -> string, now: string)
    requires CreateNew(hasClient, t, data, eps, ids, now).result.Ok?
    ensures var o := CreateNew(hasClient, t, data, eps, ids, now);
      var d := Put(data, "status", Str("processing"));
      var up := UpsertPodcast(true, t, d, ids(|t.podcasts|));
      var a := AddEpisodes(UpsertEpisode, true, up.tables, o.result.value.podcastId, All, 1, eps, ids);
      o.result.value.episodeCount == |eps| && NumberedInOrder(a.added, eps, o.result.value.podcastId, 1) &&
      forall i :: 0 <= i < |o.tables.podcasts| && Matches(a.tables.podcasts[i], "id", o.result.value.podcastId) ==>
        Get(o.tables.podcasts[i], "status") == Some(Str("active"))
  {
    var d := Put(data, "status", Str("processing"));
    var up := UpsertPodcast(hasClient, t, d, ids(|t.podcasts|));
    var podcastId := up.result.value;
    KeptAll(eps);
    AddEpisodesNumbers(UpsertEpisode, hasClient, up.tables, podcastId, All, 1, eps, ids);
    var a := AddEpisodes(UpsertEpisode, hasClient, up.tables, podcastId, All, 1, eps, ids);
    ActivatedRows(a.tables, podcastId, now);
  }

  // ---------------------------------------------------------------------
  // The service over a SupabaseManager

  /** Turn `i` of the loop against the manager. */
  method AddStepTo(db: SupabaseManager, t: Tables, prev: Adding, podcastId: Value, rule: Rule, first: int,
                   eps: seq<Dict>, i: nat, ids: nat -> string) returns (a: Adding)
    requires i < |eps|
    requires prev == AddEpisodes(UpsertEpisode, db.hasClient, t, podcastId, rule, first, eps[..i], ids)
    requires prev.result.Ok? && db.Snapshot() == prev.tables
    modifies db
    ensures a == AddEpisodes(UpsertEpisode, db.hasClient, t, podcastId, rule, first, eps[..i + 1], ids)
    ensures db.Snapshot() == a.tables && db.hasClient == old(db.hasClient)
  {
    AddEpisodesNext(UpsertEpisode, db.hasClient, t, podcastId, rule, first, eps, i, ids);
    a := prev;
    var episode := eps[i];
    if Keeps(rule, episode) {
      var numbered := Numbered(episode, podcastId, first + |prev.added|);
      AddStepUnfold(UpsertEpisode, db.hasClient, prev, podcastId, rule, first, episode, ids);
      var r := db.UpsertEpisodeM(numbered, ids(|db.episodes|));
      a := Adding(if r.Ok? then Ok(()) else Err(r.error), db.Snapshot(), prev.added + [numbered]);
    }
  }

  /** The loop of lines 54-64 / 102-107 run against the manager. */
  method AddEpisodesTo(db: SupabaseManager, podcastId: Value, rule: Rule, first: int, eps: seq<Dict>,
                       ids: nat -> string) returns (a: Adding)
    modifies db
    ensures a == AddEpisodes(UpsertEpisode, old(db.hasClient), old(db.Snapshot()), podcastId, rule, first, eps, ids)
    ensures db.Snapshot() == a.tables && db.hasClient == old(db.hasClient)
  {
    var t := db.Snapshot();
    a := Adding(Ok(()), t, []);
    var i := 0;
    assert eps[..0] == [];
    while i < |eps| && a.result.Ok?
      invariant 0 <= i <= |eps|
      invariant db.hasClient == old(db.hasClient)
      invariant t == old(db.Snapshot())
      invariant a == AddEpisodes(UpsertEpisode, db.hasClient, t, podcastId, rule, first, eps[..i], ids)
      invariant db.Snapshot() == a.tables
    {
      a := AddStepTo(db, t, a, podcastId, rule, first, eps, i, ids);
      i := i + 1;
    }
    AddEpisodesStops(UpsertEpisode, db.hasClient, t, podcastId, rule, first, eps, i, ids);
  }

  /** `update_existing_podcast` against the manager. */
  method UpdateExistingPodcast(db: SupabaseManager, existing: Dict, data: Dict, eps: seq<Dict>,
                               ids: nat -> string, now: string) returns (r: Result<UpdateReport>)
    modifies db
    ensures var o := UpdateExisting(old(db.hasClient), old(db.Snapshot()), existing, data, eps, ids, now);
      r == o.result && db.Snapshot() == o.tables
  {
    if !HasKey(existing, "id") {
      return Err("KeyError: 'id'");
    }
    var podcastId := GetOr(existing, "id", Null);
    var d := WithPodcastId(data, podcastId);
    var needs := CheckNeedsUpdate(existing, d);
    if needs {
      var up := db.UpsertPodcastM(d, ids(|db.podcasts|));
      if up.Err? {
        return Err(up.error);
      }
    }
    r := AddAndReportTo(db, podcastId, d, needs, eps, ids, now);
  }

  /** Lines 43-82 against the manager. */
  method AddAndReportTo(db: SupabaseManager, podcastId: Value, d: Dict, needs: bool, eps: seq<Dict>,
                        ids: nat -> string, now: string) returns (r: Result<UpdateReport>)
    modifies db
    ensures var o := AddAndReport(old(db.hasClient), old(db.Snapshot()), podcastId, d, needs, eps, ids, now);
      r == o.result && db.Snapshot() == o.tables
  {
    var listed := db.ListEpisodesM(podcastId);
    if listed.Err? {
      return Err(listed.error);
    }
    var a := AddEpisodesTo(db, podcastId, UnseenBy(listed.value), |listed.value| + 1, eps, ids);
    r := ReportTo(db, a, podcastId, d, needs, |listed.value|, now);
  }

  /** Lines 66-82 against the manager. */
  method ReportTo(db: SupabaseManager, a: Adding, podcastId: Value, d: Dict, needs: bool, stored: nat, now: string)
      returns (r: Result<UpdateReport>)
    requires db.hasClient && db.Snapshot() == a.tables
    modifies db
    ensures var o := Report(a, podcastId, d, needs, stored, now);
      r == o.result && db.Snapshot() == o.tables
  {
    if a.result.Err? {
      return Err(a.result.error);
    }
    var count := |a.added|;
    if count > 0 || needs {
      var _ := db.UpdatePodcastM(podcastId, Activated(now));
    }
    if !HasKey(d, "title") {
      return Err("KeyError: 'title'");
    }
    r := Ok(UpdateReport(podcastId, GetOr(d, "title", Null), count, stored + count, "success"));
  }

  /** `create_new_podcast` against the manager. */
  method CreateNewPodcast(db: SupabaseManager, data: Dict, eps: seq<Dict>, ids: nat -> string, now: string)
      returns (r: Result<CreateReport>)
    modifies db
    ensures var o := CreateNew(old(db.hasClient), old(db.Snapshot()), data, eps, ids, now);
      r == o.result && db.Snapshot() == o.tables
  {
    var d := Put(data, "status", Str("processing"));
    var up := db.UpsertPodcastM(d, ids(|db.podcasts|));
    if up.Err? {
      return Err(up.error);
    }
    var podcastId := up.value;
    var a := AddEpisodesTo(db, podcastId, All, 1, eps, ids);
    if a.result.Err? {
      return Err(a.result.error);
    }
    var _ := db.UpdatePodcastM(podcastId, Activated(now));
    if !HasKey(d, "title") {
      return Err("KeyError: 'title'");
    }
    r := Ok(CreateReport(podcastId, GetOr(d, "title", Null), |a.added|, "success"));
  }
}
