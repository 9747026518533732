/**
 * `services/email_workflow_service.py`: which episode summaries go into a
 * user's digest e-mail, and which episodes failed. The database tables the
 * workflow reads and the summariser it calls are inputs (`Sources`); the
 * summary table it writes to is a `SummaryTable` object.
 */
module EmailWorkflow {
  import opened Wrappers
  import opened Json
  import opened Strings
  import EmailContent
  import RequestModels
  import opened Ordering

  // ---------------------------------------------------------------------
  // Inputs

  /** What `generate_episode_summary` returns: the summary, the key-points dict and the highlights. */
  datatype Generated = Generated(summary: string, keyPoints: Dict, highlights: Value)

  /**
   * The tables and services the workflow reads:
   * `unemailed` is `summary_manager.get_unemailed_summaries(user_id, max_episodes)`,
   * `episodeOf` is `episode_manager.get`, `followed` the podcast ids of
   * `list_followed_podcasts(user_id)`, `episodesOf` is `episode_manager.list`
   * (podcast id, limit), `transcriptOf` is `transcription_manager.get`,
   * `generate` is `generate_episode_summary` (transcript, detail level; `Err`
   * when it raises). `newId`, `dumps` and `now` stand for `uuid4`,
   * `json.dumps` and the clock when a summary row is written.
   */
  datatype Sources = Sources(
    unemailed: seq<Dict>,
    episodeOf: Value -> Option<Dict>,
    followed: seq<Value>,
    episodesOf: (Value, int) -> seq<Dict>,
    transcriptOf: Value -> Option<string>,
    generate: (string, string) -> Result<Generated>,
    newId: nat -> string,
    dumps: Value -> string,
    now: string)

  datatype Request = Request(userId: string, maxEpisodes: int, detailLevel: string)

  // ---------------------------------------------------------------------
  // The summary table

  /** `json.dumps(v) if v else None`. */
  function DumpIfTruthy(src: Sources, v: Value): (r: Value)
    ensures Truthy(v) ==> r == Str(src.dumps(v))
    ensures !Truthy(v) ==> r == Null
  {
    if Truthy(v) then Str(src.dumps(v)) else Null
  }

  /** The row `SummaryManager.store` inserts, the `n`-th row written. */
  function StoredRow(src: Sources, n: nat, episodeId: Value, summary: string, userId: string,
                     keyPoints: Value, highlights: Value, detailLevel: string): Dict
  {
    [("id", Str(src.newId(n))), ("episode_id", episodeId), ("summary", Str(summary)), ("user_id", Str(userId))] +
    [("key_points", DumpIfTruthy(src, keyPoints)), ("highlights", DumpIfTruthy(src, highlights)),
     ("detail_level", Str(detailLevel))] +
    [("created_at", Str(src.now)), ("updated_at", Str(src.now)), ("metadata", Null)]
  }

  /** The stored row belongs to its episode and user and holds the summary. */
  lemma StoredRowOwner(src: Sources, n: nat, episodeId: Value, summary: string, userId: string,
                        keyPoints: Value, highlights: Value, detailLevel: string)
    ensures var r := StoredRow(src, n, episodeId, summary, userId, keyPoints, highlights, detailLevel);
      RowOf(r, episodeId, userId) && Get(r, "summary") == Some(Str(summary))
  {
    var owner: Dict := [("id", Str(src.newId(n))), ("episode_id", episodeId), ("summary", Str(summary)), ("user_id", Str(userId))];
    var payload: Dict := [("key_points", DumpIfTruthy(src, keyPoints)), ("highlights", DumpIfTruthy(src, highlights)),
                          ("detail_level", Str(detailLevel))];
    var stamps: Dict := [("created_at", Str(src.now)), ("updated_at", Str(src.now)), ("metadata", Null)];
    GetMiddle([], owner, payload + stamps, "episode_id", 1);
    GetMiddle([], owner, payload + stamps, "summary", 2);
    GetMiddle([], owner, payload + stamps, "user_id", 3);
    assert [] + owner + (payload + stamps) == owner + payload + stamps;
  }

  /**
   * The stored row holds the detail level, and the key points and highlights
   * as JSON text (None when they are empty).
   */
  lemma StoredRowPayload(src: Sources, n: nat, episodeId: Value, summary: string, userId: string,
                        keyPoints: Value, highlights: Value, detailLevel: string)
    ensures var r := StoredRow(src, n, episodeId, summary, userId, keyPoints, highlights, detailLevel);
      Get(r, "detail_level") == Some(Str(detailLevel)) &&
      Get(r, "key_points") == Some(DumpIfTruthy(src, keyPoints)) &&
      Get(r, "highlights") == Some(DumpIfTruthy(src, highlights))
  {
    var owner: Dict := [("id", Str(src.newId(n))), ("episode_id", episodeId), ("summary", Str(summary)), ("user_id", Str(userId))];
    var payload: Dict := [("key_points", DumpIfTruthy(src, keyPoints)), ("highlights", DumpIfTruthy(src, highlights)),
                          ("detail_level", Str(detailLevel))];
    var stamps: Dict := [("created_at", Str(src.now)), ("updated_at", Str(src.now)), ("metadata", Null)];
    GetMiddle(owner, payload, stamps, "key_points", 0);
    GetMiddle(owner, payload, stamps, "highlights", 1);
    GetMiddle(owner, payload, stamps, "detail_level", 2);
  }

  /** A row stored for `episodeId` and `userId`. */
  predicate RowOf(row: Dict, episodeId: Value, userId: string)
  {
    Get(row, "episode_id") == Some(episodeId) && Get(row, "user_id") == Some(Str(userId))
  }

  /** `summary_manager.get(episode_id, user_id)`: the first row of that episode and user. */
  function FindRow(rows: seq<Dict>, episodeId: Value, userId: string): (r: Option<Dict>)
    ensures r.Some? ==> r.value in rows && RowOf(r.value, episodeId, userId)
    ensures r.None? ==> forall i :: 0 <= i < |rows| ==> !RowOf(rows[i], episodeId, userId)
  {
    if rows == [] then None
    else if RowOf(rows[0], episodeId, userId) then Some(rows[0])
    else FindRow(rows[1..], episodeId, userId)
  }

  /** `if existing_summary:` — a row was found and it is not an empty dict. */
  predicate HasSummary(rows: seq<Dict>, episodeId: Value, userId: string)
  {
    FindRow(rows, episodeId, userId).Some? && FindRow(rows, episodeId, userId).value != []
  }

  /** The `episode_summaries` table. */
  class SummaryTable {
    var rows: seq<Dict>

    constructor (initial: seq<Dict>)
      ensures rows == initial
    {
      rows := initial;
    }

    /** `summary_manager.get(episode_id, user_id)`. */
    function Find(episodeId: Value, userId: string): (r: Option<Dict>)
      reads this
      ensures r == FindRow(rows, episodeId, userId)
    {
      FindRow(rows, episodeId, userId)
    }

    /** `summary_manager.store(...)`: one row is appended, nothing else changes. */
    method Store(src: Sources, episodeId: Value, summary: string, userId: string,
                 keyPoints: Value, highlights: Value, detailLevel: string)
      modifies this
      ensures rows == old(rows) + [StoredRow(src, |old(rows)|, episodeId, summary, userId, keyPoints, highlights, detailLevel)]
    {
      rows := rows + [StoredRow(src, |rows|, episodeId, summary, userId, keyPoints, highlights, detailLevel)];
    }
  }

  // ---------------------------------------------------------------------
  // Candidate episodes, newest first

  /** The column `published_at` that episode rows carry their date in. */
  const PublishedField: string := "published_at"

  /**
   * Line 60: `all_episodes.sort(key=lambda x: x.get(field, ''), reverse=True)`.
   * Python raises TypeError when it has to compare a date that is not a string.
   */
  function Candidates(eps: seq<Dict>, field: string): (r: Result<seq<Dict>>)
    ensures r.Err? <==> |eps| >= 2 && !DatesAreText(eps, field)
    ensures r.Ok? ==> NewestFirst(r.value, field) && multiset(r.value) == multiset(eps)
  {
    if |eps| >= 2 && !DatesAreText(eps, field) then Err("'<' not supported between instances of the published dates")
    else
      SortNewestFirstSound(eps, field);
      Ok(SortNewestFirst(eps, field))
  }

  /**
   * As written the key is `published_date`, a field episode rows do not have
   * (they carry `published_at`): every key is "" and the candidates stay in
   * the order the podcasts were listed.
   */
  lemma CandidatesAsWrittenKeepOrder(eps: seq<Dict>)
    requires forall i :: 0 <= i < |eps| ==> !HasKey(eps[i], "published_date")
    ensures Candidates(eps, "published_date") == Ok(eps)
  {
    SortSameKeyKeepsOrder(eps, "published_date");
  }

  /** An episode of the first followed podcast, published in 2023. */
  const OlderEpisode: Dict := [("id", Str("a")), ("published_at", Str("2023-01-01"))]

  /** An episode of the second followed podcast, published in 2024. */
  const NewerEpisode: Dict := [("id", Str("b")), ("published_at", Str("2024-01-01"))]

  /**
   * As written the older episode of the first podcast stays ahead of the
   * newer one of the second; sorted by `published_at` the newer comes first.
   */
  lemma OlderEpisodeVisitedFirst()
    ensures Candidates([OlderEpisode, NewerEpisode], "published_date") == Ok([OlderEpisode, NewerEpisode])
    ensures Candidates([OlderEpisode, NewerEpisode], PublishedField) == Ok([NewerEpisode, OlderEpisode])
  {
    var a, b := OlderEpisode, NewerEpisode;
    assert !HasKey(a, "published_date") && !HasKey(b, "published_date");
    CandidatesAsWrittenKeepOrder([a, b]);
    ExampleDates();
    SortTwoSwaps(a, b, PublishedField);
  }

  /** The example episodes carry their dates, the newer one's greater as text. */
  lemma ExampleDates()
    ensures DatesAreText([OlderEpisode, NewerEpisode], PublishedField)
    ensures !StrLe(Key(NewerEpisode, PublishedField), Key(OlderEpisode, PublishedField))
  {
    var a, b := OlderEpisode, NewerEpisode;
    GetFirstAt(a, PublishedField, 1);
    GetFirstAt(b, PublishedField, 1);
    DatesCompare(Key(a, PublishedField), Key(b, PublishedField));
  }

  /** "2024-01-01" sorts after "2023-01-01" as text. */
  lemma DatesCompare(ka: string, kb: string)
    requires ka == "2023-01-01" && kb == "2024-01-01"
    ensures !StrLe(kb, ka)
  {
    assert !StrLe(kb[3..], ka[3..]);
    assert !StrLe(kb[2..], ka[2..]);
    assert !StrLe(kb[1..], ka[1..]);
  }

  /** Two episodes with text dates, the second strictly newer, come out swapped. */
  lemma SortTwoSwaps(a: Dict, b: Dict, field: string)
    requires DatesAreText([a, b], field)
    requires !StrLe(Key(b, field), Key(a, field))
    ensures Candidates([a, b], field) == Ok([b, a])
  {
    assert [a, b][..1] == [a];
    assert SortNewestFirst([a], field) == [a];
    assert Insert(b, [a], field) == [b, a];
  }

  // ---------------------------------------------------------------------
  // Filling the digest

  /** The digest so far, the failures so far and the summary table. */
  datatype Progress = Progress(forEmail: seq<Dict>, failed: seq<(Value, string)>, rows: seq<Dict>)

  /** `s['episode_id']` for every summary of a list. */
  function EpisodeIds(xs: seq<Dict>): (r: seq<Value>)
    ensures |r| == |xs| && forall i :: 0 <= i < |xs| ==> r[i] == GetOr(xs[i], "episode_id", Null)
  {
    seq(|xs|, i requires 0 <= i < |xs| => GetOr(xs[i], "episode_id", Null))
  }

  predicate HasEpisodeIds(xs: seq<Dict>)
  {
    forall i :: 0 <= i < |xs| ==> HasKey(xs[i], "episode_id")
  }

  predicate HasIds(eps: seq<Dict>)
  {
    forall i :: 0 <= i < |eps| ==> HasKey(eps[i], "id")
  }

  predicate Distinct<T(==)>(xs: seq<T>)
  {
    forall i, j :: 0 <= i < j < |xs| ==> xs[i] != xs[j]
  }

  /** `summary.get('summary_emailed', False)` is falsy. */
  predicate NotEmailed(x: Dict)
  {
    !Truthy(GetOr(x, "summary_emailed", Bool(false)))
  }

  /** `(db.episode_manager.get(episode_id) or {}).get('title', 'Unknown Episode')`. */
  function TitleOf(src: Sources, episodeId: Value): Value
  {
    match src.episodeOf(episodeId)
    case None => Str("Unknown Episode")
    case Some(e) => GetOr(e, "title", Str("Unknown Episode"))
  }

  /** `{**summary, 'title': title}`. */
  function WithTitle(src: Sources, summary: Dict): (r: Dict)
    ensures Get(r, "title") == Some(TitleOf(src, GetOr(summary, "episode_id", Null)))
    ensures forall k :: k != "title" ==> Get(r, k) == Get(summary, k)
  {
    Put(summary, "title", TitleOf(src, GetOr(summary, "episode_id", Null)))
  }

  /** Lines 30-38: the unemailed summaries with the titles of their episodes. */
  function Titled(src: Sources): (r: seq<Dict>)
    ensures |r| == |src.unemailed|
    ensures forall i :: 0 <= i < |r| ==> r[i] == WithTitle(src, src.unemailed[i])
  {
    seq(|src.unemailed|, i requires 0 <= i < |src.unemailed| => WithTitle(src, src.unemailed[i]))
  }

  /** The entry lines 127-134 build for a generated summary. */
  function NewEntry(episodeId: Value, g: Generated, title: Value): Dict
  {
    [("episode_id", episodeId), ("summary", Str(g.summary)),
     ("key_points", GetOr(g.keyPoints, "points", List([]))), ("highlights", g.highlights),
     ("title", title), ("summary_emailed", Bool(false))]
  }

  /** The new entry is for its episode, carries the generated summary and title, and is not yet e-mailed. */
  lemma NewEntryFields(episodeId: Value, g: Generated, title: Value)
    ensures var r := NewEntry(episodeId, g, title);
      Get(r, "episode_id") == Some(episodeId) && Get(r, "summary") == Some(Str(g.summary)) &&
      Get(r, "title") == Some(title) && Get(r, "summary_emailed") == Some(Bool(false))
    ensures var r := NewEntry(episodeId, g, title);
      HasKey(r, "episode_id") && GetOr(r, "episode_id", Null) == episodeId && NotEmailed(r)
  {
    NewEntryLeading(episodeId, g, title);
    NewEntryTrailing(episodeId, g, title);
  }

  /** The first two columns: the episode id and the summary. */
  lemma NewEntryLeading(episodeId: Value, g: Generated, title: Value)
    ensures var r := NewEntry(episodeId, g, title);
      Get(r, "episode_id") == Some(episodeId) && Get(r, "summary") == Some(Str(g.summary))
  {
    var r := NewEntry(episodeId, g, title);
    GetFirstAt(r, "episode_id", 0);
    GetFirstAt(r, "summary", 1);
  }

  /** The last two columns: the title and the e-mailed flag. */
  lemma NewEntryTrailing(episodeId: Value, g: Generated, title: Value)
    ensures var r := NewEntry(episodeId, g, title);
      Get(r, "title") == Some(title) && Get(r, "summary_emailed") == Some(Bool(false))
  {
    var r := NewEntry(episodeId, g, title);
    GetFirstAt(r, "title", 4);
    GetFirstAt(r, "summary_emailed", 5);
  }

  /** The transcript of an episode, when there is one that is not empty. */
  predicate HasTranscript(src: Sources, episodeId: Value)
  {
    src.transcriptOf(episodeId).Some? && src.transcriptOf(episodeId).value != []
  }

  /**
   * One pass of the loop only appends, at most one item to each list; it
   * stores a row only along with a new digest entry, and records a failure
   * only when it adds and stores nothing.
   */
  predicate AppendsOnly(st: Progress, r: Progress)
  {
    |st.forEmail| <= |r.forEmail| <= |st.forEmail| + 1 && r.forEmail[..|st.forEmail|] == st.forEmail &&
    |st.failed| <= |r.failed| <= |st.failed| + 1 && r.failed[..|st.failed|] == st.failed &&
    |st.rows| <= |r.rows| <= |st.rows| + 1 && r.rows[..|st.rows|] == st.rows &&
    (|r.rows| > |st.rows| ==> |r.forEmail| > |st.forEmail|) &&
    (|r.failed| > |st.failed| ==> r.forEmail == st.forEmail && r.rows == st.rows)
  }

  /** A digest entry added by a pass is for episode `id`, has a title and is not yet e-mailed. */
  predicate AddsEntryFor(st: Progress, r: Progress, id: Value)
    requires |st.forEmail| <= |r.forEmail|
  {
    |r.forEmail| > |st.forEmail| ==>
      NotEmailed(r.forEmail[|st.forEmail|]) && HasKey(r.forEmail[|st.forEmail|], "episode_id") &&
      HasKey(r.forEmail[|st.forEmail|], "title") &&
      GetOr(r.forEmail[|st.forEmail|], "episode_id", Null) == id
  }

  /** Lines 82-92: a summary already stored is added, with its episode's title, unless it was e-mailed. */
  function Reuse(src: Sources, st: Progress, id: Value, existing: Dict): (r: Progress)
    requires Get(existing, "episode_id") == Some(id)
    ensures AppendsOnly(st, r) && AddsEntryFor(st, r, id)
    ensures r.rows == st.rows && r.failed == st.failed
    ensures NotEmailed(existing) <==> |r.forEmail| > |st.forEmail|
  {
    if !NotEmailed(existing) then st
    else
      var entry := Put(existing, "title", TitleOf(src, id));
      assert Get(entry, "episode_id") == Some(id);
      assert Get(entry, "summary_emailed") == Get(existing, "summary_emailed");
      st.(forEmail := st.forEmail + [entry])
  }

  /**
   * Lines 94-139: no transcript is a failure; otherwise the request is
   * validated and the summary generated, stored and added. A request that
   * does not validate and a generation error are both caught by the
   * `except` at line 137 and recorded as a failure.
   */
  function Generate(src: Sources, req: Request, st: Progress, id: Value, title: Value): (r: Progress)
    ensures AppendsOnly(st, r) && AddsEntryFor(st, r, id)
    ensures !HasTranscript(src, id) ==> r == st.(failed := st.failed + [(title, "Transcription not available")])
    ensures |r.rows| > |st.rows| ==> id.Str? && req.detailLevel in RequestModels.DetailLevelNames
  {
    if !HasTranscript(src, id) then
      st.(failed := st.failed + [(title, "Transcription not available")])
    else
      match SummaryRequest(id, req.userId, req.detailLevel)
      case Err(msg) =>
        st.(failed := st.failed + [(title, "Summary generation failed: " + msg)])
      case Ok(_) =>
        match src.generate(src.transcriptOf(id).value, req.detailLevel)
        case Err(msg) =>
          st.(failed := st.failed + [(title, "Summary generation failed: " + msg)])
        case Ok(g) => Added(src, req, st, id, title, g)
  }

  /** Lines 110-135: the generated summary is stored, then added to the digest. */
  function Added(src: Sources, req: Request, st: Progress, id: Value, title: Value, g: Generated): (r: Progress)
    ensures AppendsOnly(st, r) && AddsEntryFor(st, r, id)
    ensures r.forEmail == st.forEmail + [NewEntry(id, g, title)] && r.failed == st.failed
    ensures r.rows == st.rows + [StoredRow(src, |st.rows|, id, g.summary, req.userId,
                                           GetOr(g.keyPoints, "points", List([])), g.highlights, req.detailLevel)]
  {
    var points := GetOr(g.keyPoints, "points", List([]));
    var row := StoredRow(src, |st.rows|, id, g.summary, req.userId, points, g.highlights, req.detailLevel);
    var entry := NewEntry(id, g, title);
    NewEntryFields(id, g, title);
    AddingAppends(st, entry, row);
    Progress(st.forEmail + [entry], st.failed, st.rows + [row])
  }

  /** Adding one entry and storing one row only appends, and the added entry comes last. */
  lemma AddingAppends(st: Progress, entry: Dict, row: Dict)
    ensures var r := Progress(st.forEmail + [entry], st.failed, st.rows + [row]);
      AppendsOnly(st, r) && r.forEmail[|st.forEmail|] == entry
  {
    var r := Progress(st.forEmail + [entry], st.failed, st.rows + [row]);
    assert r.forEmail[..|st.forEmail|] == st.forEmail;
    assert r.rows[..|st.rows|] == st.rows;
    assert r.failed[..|st.failed|] == st.failed;
  }

  /** One pass of the loop at lines 70-139 over the candidate episode `e`. */
  function Visit(src: Sources, req: Request, st: Progress, e: Dict): (r: Progress)
    requires HasEpisodeIds(st.forEmail)
    ensures HasEpisodeIds(r.forEmail)
    ensures AppendsOnly(st, r) && AddsEntryFor(st, r, GetOr(e, "id", Null))
    ensures |st.forEmail| >= req.maxEpisodes ==> r == st
    ensures |r.forEmail| > |st.forEmail| ==>
      |st.forEmail| < req.maxEpisodes && GetOr(e, "id", Null) !in EpisodeIds(st.forEmail)
  {
    var id := GetOr(e, "id", Null);
    if |st.forEmail| >= req.maxEpisodes then st
    else if id in EpisodeIds(st.forEmail) then st
    else
      var r := if HasSummary(st.rows, id, req.userId) then Reuse(src, st, id, FindRow(st.rows, id, req.userId).value)
               else Generate(src, req, st, id, GetOr(e, "title", Str("Unknown Episode")));
      assert HasEpisodeIds(r.forEmail) by {
        forall i | 0 <= i < |r.forEmail| ensures HasKey(r.forEmail[i], "episode_id")
        {
          if i < |st.forEmail| {
            assert r.forEmail[i] == r.forEmail[..|st.forEmail|][i];
          }
        }
      }
      r
  }

  /** The loop at lines 70-139 over the candidates (a full digest ends it). */
  function Filled(src: Sources, req: Request, st: Progress, cands: seq<Dict>): (r: Progress)
    requires HasIds(cands) && HasEpisodeIds(st.forEmail)
    ensures HasEpisodeIds(r.forEmail)
  {
    if cands == [] then st
    else Visit(src, req, Filled(src, req, st, cands[..|cands| - 1]), cands[|cands| - 1])
  }

  /** Once the digest is full, later candidates change nothing (the `break`). */
  lemma {:induction false} FilledStaysFull(src: Sources, req: Request, st: Progress, cands: seq<Dict>, k: nat)
    requires HasIds(cands) && HasEpisodeIds(st.forEmail)
    requires k <= |cands|
    requires |Filled(src, req, st, cands[..k]).forEmail| >= req.maxEpisodes
    ensures Filled(src, req, st, cands) == Filled(src, req, st, cands[..k])
    decreases |cands|
  {
    if k < |cands| {
      var init := cands[..|cands| - 1];
      assert init[..k] == cands[..k];
      FilledStaysFull(src, req, st, init, k);
    } else {
      assert cands[..k] == cands;
    }
  }

  /**
   * The loop only appends: the digest, the failures and the table start with
   * what they held before, and it stores no more rows than it adds entries.
   */
  lemma {:induction false} FilledAppends(src: Sources, req: Request, st: Progress, cands: seq<Dict>)
    requires HasIds(cands) && HasEpisodeIds(st.forEmail)
    ensures var r := Filled(src, req, st, cands);
      |st.forEmail| <= |r.forEmail| && r.forEmail[..|st.forEmail|] == st.forEmail &&
      |st.failed| <= |r.failed| && r.failed[..|st.failed|] == st.failed &&
      |st.rows| <= |r.rows| && r.rows[..|st.rows|] == st.rows &&
      |r.rows| - |st.rows| <= |r.forEmail| - |st.forEmail|
  {
    if cands != [] {
      var init := cands[..|cands| - 1];
      FilledAppends(src, req, st, init);
      var m := Filled(src, req, st, init);
      var r := Visit(src, req, m, cands[|cands| - 1]);
      assert r.forEmail[..|st.forEmail|] == r.forEmail[..|m.forEmail|][..|st.forEmail|];
      assert r.failed[..|st.failed|] == r.failed[..|m.failed|][..|st.failed|];
      assert r.rows[..|st.rows|] == r.rows[..|m.rows|][..|st.rows|];
    }
  }

  /** A digest within `max_episodes` entries stays within it. */
  lemma {:induction false} FilledBounded(src: Sources, req: Request, st: Progress, cands: seq<Dict>)
    requires HasIds(cands) && HasEpisodeIds(st.forEmail)
    requires |st.forEmail| <= req.maxEpisodes
    ensures |Filled(src, req, st, cands).forEmail| <= req.maxEpisodes
  {
    if cands != [] {
      FilledBounded(src, req, st, cands[..|cands| - 1]);
    }
  }

  /** An episode already in the digest is never added again. */
  lemma {:induction false} FilledDistinct(src: Sources, req: Request, st: Progress, cands: seq<Dict>)
    requires HasIds(cands) && HasEpisodeIds(st.forEmail)
    requires Distinct(EpisodeIds(st.forEmail))
    ensures Distinct(EpisodeIds(Filled(src, req, st, cands).forEmail))
  {
    if cands != [] {
      FilledDistinct(src, req, st, cands[..|cands| - 1]);
      var m := Filled(src, req, st, cands[..|cands| - 1]);
      var r := Visit(src, req, m, cands[|cands| - 1]);
      if |r.forEmail| > |m.forEmail| {
        var ids := EpisodeIds(r.forEmail);
        var old_ids := EpisodeIds(m.forEmail);
        forall i, j | 0 <= i < j < |ids| ensures ids[i] != ids[j]
        {
          assert r.forEmail[i] == r.forEmail[..|m.forEmail|][i];
          if j == |m.forEmail| {
            assert ids[i] == old_ids[i];
          } else {
            assert r.forEmail[j] == r.forEmail[..|m.forEmail|][j];
          }
        }
      }
    }
  }

  /** Every summary the loop adds is one not yet e-mailed. */
  lemma {:induction false} FilledNotEmailed(src: Sources, req: Request, st: Progress, cands: seq<Dict>)
    requires HasIds(cands) && HasEpisodeIds(st.forEmail)
    ensures var r := Filled(src, req, st, cands);
      |st.forEmail| <= |r.forEmail| && forall i :: |st.forEmail| <= i < |r.forEmail| ==> NotEmailed(r.forEmail[i])
  {
    if cands != [] {
      FilledNotEmailed(src, req, st, cands[..|cands| - 1]);
      var m := Filled(src, req, st, cands[..|cands| - 1]);
      var r := Visit(src, req, m, cands[|cands| - 1]);
      VisitAddsUnemailed(src, req, m, cands[|cands| - 1]);
      forall i | |st.forEmail| <= i < |m.forEmail| ensures NotEmailed(r.forEmail[i])
      {
        VisitKeepsEntry(src, req, m, cands[|cands| - 1], i);
      }
    }
  }

  /** An entry a pass adds is not yet e-mailed. */
  lemma VisitAddsUnemailed(src: Sources, req: Request, m: Progress, e: Dict)
    requires HasEpisodeIds(m.forEmail)
    ensures var r := Visit(src, req, m, e);
      forall i :: |m.forEmail| <= i < |r.forEmail| ==> NotEmailed(r.forEmail[i])
  {
  }

  /** An entry a pass adds has a title. */
  lemma VisitAddsTitled(src: Sources, req: Request, m: Progress, e: Dict)
    requires HasEpisodeIds(m.forEmail)
    ensures var r := Visit(src, req, m, e);
      forall i :: |m.forEmail| <= i < |r.forEmail| ==> HasKey(r.forEmail[i], "title")
  {
  }

  /** A pass leaves the digest entries it found where they were. */
  lemma VisitKeepsEntry(src: Sources, req: Request, m: Progress, e: Dict, i: nat)
    requires HasEpisodeIds(m.forEmail)
    requires i < |m.forEmail|
    ensures i < |Visit(src, req, m, e).forEmail| && Visit(src, req, m, e).forEmail[i] == m.forEmail[i]
  {
    var r := Visit(src, req, m, e);
    assert r.forEmail[i] == r.forEmail[..|m.forEmail|][i];
  }

  /** A candidate without a usable transcript adds one failure and nothing else. */
  lemma MissingTranscriptFails(src: Sources, req: Request, st: Progress, e: Dict)
    requires HasKey(e, "id") && HasEpisodeIds(st.forEmail)
    requires |st.forEmail| < req.maxEpisodes
    requires GetOr(e, "id", Null) !in EpisodeIds(st.forEmail)
    requires !HasSummary(st.rows, GetOr(e, "id", Null), req.userId)
    requires !HasTranscript(src, GetOr(e, "id", Null))
    ensures Visit(src, req, st, e) ==
      st.(failed := st.failed + [(GetOr(e, "title", Str("Unknown Episode")), "Transcription not available")])
  {
  }

  /**
   * Lines 103-108 and 137-139: a detail level outside the enum fails the
   * request before anything is generated, so the candidate adds one failure
   * carrying the validation error, and no summary is stored or added.
   */
  lemma InvalidLevelFails(src: Sources, req: Request, st: Progress, e: Dict)
    requires HasKey(e, "id") && HasEpisodeIds(st.forEmail)
    requires |st.forEmail| < req.maxEpisodes
    requires GetOr(e, "id", Null) !in EpisodeIds(st.forEmail)
    requires !HasSummary(st.rows, GetOr(e, "id", Null), req.userId)
    requires HasTranscript(src, GetOr(e, "id", Null))
    requires GetOr(e, "id", Null).Str? && req.detailLevel !in RequestModels.DetailLevelNames
    ensures Visit(src, req, st, e) ==
      st.(failed := st.failed + [(GetOr(e, "title", Str("Unknown Episode")),
                                  "Summary generation failed: " + "Invalid value for detail_level")])
  {
    var id := GetOr(e, "id", Null);
    assert SummaryRequest(id, req.userId, req.detailLevel) == Err("Invalid value for detail_level");
    assert Visit(src, req, st, e) == Generate(src, req, st, id, GetOr(e, "title", Str("Unknown Episode")));
  }

  /** A summary already in the table is never regenerated nor stored again. */
  lemma ExistingNotRegenerated(src: Sources, req: Request, st: Progress, e: Dict)
    requires HasKey(e, "id") && HasEpisodeIds(st.forEmail)
    requires HasSummary(st.rows, GetOr(e, "id", Null), req.userId)
    ensures Visit(src, req, st, e).rows == st.rows && Visit(src, req, st, e).failed == st.failed
  {
  }

  /**
   * A generated summary is stored, and the entry appended for it carries the
   * same summary, is not e-mailed, and has the candidate's title.
   */
  lemma GeneratedStoredThenAdded(src: Sources, req: Request, st: Progress, e: Dict)
    requires HasKey(e, "id") && HasEpisodeIds(st.forEmail)
    requires |st.forEmail| < req.maxEpisodes
    requires GetOr(e, "id", Null) !in EpisodeIds(st.forEmail)
    requires !HasSummary(st.rows, GetOr(e, "id", Null), req.userId)
    requires HasTranscript(src, GetOr(e, "id", Null))
    requires GetOr(e, "id", Null).Str? && req.detailLevel in RequestModels.DetailLevelNames
    requires src.generate(src.transcriptOf(GetOr(e, "id", Null)).value, req.detailLevel).Ok?
    ensures var r := Visit(src, req, st, e);
      |r.rows| == |st.rows| + 1 && |r.forEmail| == |st.forEmail| + 1 && r.failed == st.failed &&
      Get(r.rows[|st.rows|], "summary") == Get(r.forEmail[|st.forEmail|], "summary") &&
      Get(r.rows[|st.rows|], "episode_id") == Some(GetOr(e, "id", Null)) &&
      Get(r.forEmail[|st.forEmail|], "title") == Some(GetOr(e, "title", Str("Unknown Episode"))) &&
      Get(r.forEmail[|st.forEmail|], "summary_emailed") == Some(Bool(false)) &&
      RowOf(r.rows[|st.rows|], GetOr(e, "id", Null), req.userId)
  {
    var id := GetOr(e, "id", Null);
    var title := GetOr(e, "title", Str("Unknown Episode"));
    var g := src.generate(src.transcriptOf(id).value, req.detailLevel).value;
    var points := GetOr(g.keyPoints, "points", List([]));
    NewEntryFields(id, g, title);
    StoredRowOwner(src, |st.rows|, id, g.summary, req.userId, points, g.highlights, req.detailLevel);
    assert Visit(src, req, st, e) == Added(src, req, st, id, title, g);
  }

  /** Lines 53-57: the episodes of every followed podcast, podcast after podcast. */
  function Gathered(src: Sources, podcasts: seq<Value>, limit: int): seq<Dict>
  {
    if podcasts == [] then []
    else Gathered(src, podcasts[..|podcasts| - 1], limit) + src.episodesOf(podcasts[|podcasts| - 1], limit)
  }

  /**
   * `prepare_episodes_to_email` with the list the filling loop starts from
   * (line 68) and the date field the candidates are sorted by (line 60) as
   * parameters.
   */
  function PrepareWith(src: Sources, req: Request, rows: seq<Dict>, start: seq<Dict>, field: string): (r: Result<Progress>)
    requires HasEpisodeIds(start)
    requires HasIds(Gathered(src, src.followed, req.maxEpisodes))
  {
    if |src.unemailed| >= req.maxEpisodes then Ok(Progress(PyPrefix(Titled(src), req.maxEpisodes), [], rows))
    else if src.followed == [] then Ok(Progress(Titled(src), [], rows))
    else
      var eps := Gathered(src, src.followed, req.maxEpisodes);
      match Candidates(eps, field)
      case Err(e) => Err(e)
      case Ok(cands) =>
        assert HasIds(cands) by {
          forall i | 0 <= i < |cands| ensures HasKey(cands[i], "id")
          {
            assert cands[i] in multiset(eps);
            var p :| 0 <= p < |eps| && eps[p] == cands[i];
          }
        }
        Ok(Filled(src, req, Progress(start, [], rows), cands))
  }

  /** Titles never add or remove an `episode_id`. */
  lemma TitledIds(src: Sources)
    requires HasEpisodeIds(src.unemailed)
    ensures HasEpisodeIds(Titled(src))
    ensures EpisodeIds(Titled(src)) == EpisodeIds(src.unemailed)
  {
    var t := Titled(src);
    forall i | 0 <= i < |t| ensures HasKey(t[i], "episode_id") && GetOr(t[i], "episode_id", Null) == GetOr(src.unemailed[i], "episode_id", Null)
    {
      assert Get(t[i], "episode_id") == Get(src.unemailed[i], "episode_id");
    }
  }

  /** `prepare_episodes_to_email` as written: the filling loop starts from the untitled summaries, dates under `published_date`. */
  function PreparedAsWritten(src: Sources, req: Request, rows: seq<Dict>): Result<Progress>
    requires HasEpisodeIds(src.unemailed)
    requires HasIds(Gathered(src, src.followed, req.maxEpisodes))
  {
    PrepareWith(src, req, rows, src.unemailed, "published_date")
  }

  /** As written, once the loop runs the digest starts with the summary rows exactly as the table gave them. */
  lemma AsWrittenStartsUntitled(src: Sources, req: Request, rows: seq<Dict>)
    requires HasEpisodeIds(src.unemailed)
    requires HasIds(Gathered(src, src.followed, req.maxEpisodes))
    requires |src.unemailed| < req.maxEpisodes && src.followed != []
    ensures var r := PreparedAsWritten(src, req, rows);
      r.Ok? ==> |src.unemailed| <= |r.value.forEmail| && r.value.forEmail[..|src.unemailed|] == src.unemailed
  {
    var eps := Gathered(src, src.followed, req.maxEpisodes);
    var c := Candidates(eps, "published_date");
    if c.Ok? {
      var cands := c.value;
      assert HasIds(cands) by {
        forall i | 0 <= i < |cands| ensures HasKey(cands[i], "id")
        {
          assert cands[i] in multiset(eps);
        }
      }
      FilledAppends(src, req, Progress(src.unemailed, [], rows), cands);
    }
  }

  /** `prepare_episodes_to_email` as intended: the titled summaries are kept, dates under `published_at`. */
  function Prepared(src: Sources, req: Request, rows: seq<Dict>): (r: Result<Progress>)
    requires HasEpisodeIds(src.unemailed)
    requires HasIds(Gathered(src, src.followed, req.maxEpisodes))
  {
    TitledIds(src);
    PrepareWith(src, req, rows, Titled(src), PublishedField)
  }

  /** Lines 40-43: enough unemailed summaries gives the first `max_episodes` of them, titled, and no failures. */
  lemma EnoughUnemailed(src: Sources, req: Request, rows: seq<Dict>)
    requires HasEpisodeIds(src.unemailed)
    requires HasIds(Gathered(src, src.followed, req.maxEpisodes))
    requires 0 <= req.maxEpisodes <= |src.unemailed|
    ensures Prepared(src, req, rows).Ok?
    ensures var r := Prepared(src, req, rows).value;
      |r.forEmail| == req.maxEpisodes && r.failed == [] && r.rows == rows &&
      forall i :: 0 <= i < req.maxEpisodes ==> r.forEmail[i] == WithTitle(src, src.unemailed[i])
  {
  }

  /** Lines 47-50: with no followed podcasts the titled summaries are all there is. */
  lemma NoFollowedPodcasts(src: Sources, req: Request, rows: seq<Dict>)
    requires HasEpisodeIds(src.unemailed)
    requires HasIds(Gathered(src, src.followed, req.maxEpisodes))
    requires |src.unemailed| < req.maxEpisodes && src.followed == []
    ensures Prepared(src, req, rows) == Ok(Progress(Titled(src), [], rows))
  {
  }

  /**
   * Whatever list seeds the loop, as long as it holds the unemailed
   * summaries' episodes, the digest never holds more than `max_episodes`
   * summaries and never the same episode twice.
   */
  lemma PrepareWithSound(src: Sources, req: Request, rows: seq<Dict>, start: seq<Dict>, field: string)
    requires HasEpisodeIds(src.unemailed) && HasEpisodeIds(start)
    requires HasIds(Gathered(src, src.followed, req.maxEpisodes))
    requires EpisodeIds(start) == EpisodeIds(src.unemailed)
    requires req.maxEpisodes >= 0
    requires Distinct(EpisodeIds(src.unemailed))
    ensures PrepareWith(src, req, rows, start, field).Ok? ==>
      var r := PrepareWith(src, req, rows, start, field).value;
      |r.forEmail| <= req.maxEpisodes && Distinct(EpisodeIds(r.forEmail))
  {
    TitledIds(src);
    var t := Titled(src);
    if |src.unemailed| >= req.maxEpisodes {
      var p := PyPrefix(t, req.maxEpisodes);
      assert EpisodeIds(p) == EpisodeIds(t)[..req.maxEpisodes];
    } else if src.followed != [] && PrepareWith(src, req, rows, start, field).Ok? {
      var eps := Gathered(src, src.followed, req.maxEpisodes);
      var cands := Candidates(eps, field).value;
      assert HasIds(cands) by {
        forall i | 0 <= i < |cands| ensures HasKey(cands[i], "id")
        {
          assert cands[i] in multiset(eps);
        }
      }
      assert |start| == |EpisodeIds(start)|;
      FilledBounded(src, req, Progress(start, [], rows), cands);
      FilledDistinct(src, req, Progress(start, [], rows), cands);
    }
  }

  /** The intended digest: at most `max_episodes` entries, for distinct episodes. */
  lemma PreparedSound(src: Sources, req: Request, rows: seq<Dict>)
    requires HasEpisodeIds(src.unemailed)
    requires HasIds(Gathered(src, src.followed, req.maxEpisodes))
    requires req.maxEpisodes >= 0
    requires Distinct(EpisodeIds(src.unemailed))
    ensures Prepared(src, req, rows).Ok? ==>
      var r := Prepared(src, req, rows).value;
      |r.forEmail| <= req.maxEpisodes && Distinct(EpisodeIds(r.forEmail))
  {
    TitledIds(src);
    PrepareWithSound(src, req, rows, Titled(src), PublishedField);
  }

  /** The digest as written: at most `max_episodes` entries, for distinct episodes, too. */
  lemma PreparedAsWrittenSound(src: Sources, req: Request, rows: seq<Dict>)
    requires HasEpisodeIds(src.unemailed)
    requires HasIds(Gathered(src, src.followed, req.maxEpisodes))
    requires req.maxEpisodes >= 0
    requires Distinct(EpisodeIds(src.unemailed))
    ensures PreparedAsWritten(src, req, rows).Ok? ==>
      var r := PreparedAsWritten(src, req, rows).value;
      |r.forEmail| <= req.maxEpisodes && Distinct(EpisodeIds(r.forEmail))
  {
    PrepareWithSound(src, req, rows, src.unemailed, "published_date");
  }

  /** Every summary the intended workflow puts in the digest has a title. */
  lemma {:induction false} PreparedTitled(src: Sources, req: Request, rows: seq<Dict>)
    requires HasEpisodeIds(src.unemailed)
    requires HasIds(Gathered(src, src.followed, req.maxEpisodes))
    ensures Prepared(src, req, rows).Ok? ==>
      forall i :: 0 <= i < |Prepared(src, req, rows).value.forEmail| ==>
        HasKey(Prepared(src, req, rows).value.forEmail[i], "title")
  {
    TitledIds(src);
    var t := Titled(src);
    assert forall i :: 0 <= i < |t| ==> HasKey(t[i], "title") by {
      forall i | 0 <= i < |t| ensures HasKey(t[i], "title")
      {
        assert Get(t[i], "title").Some?;
      }
    }
    if |src.unemailed| < req.maxEpisodes && src.followed != [] && Prepared(src, req, rows).Ok? {
      var eps := Gathered(src, src.followed, req.maxEpisodes);
      var cands := Candidates(eps, PublishedField).value;
      assert HasIds(cands) by {
        forall i | 0 <= i < |cands| ensures HasKey(cands[i], "id")
        {
          assert cands[i] in multiset(eps);
        }
      }
      FilledTitled(src, req, Progress(t, [], rows), cands);
    } else if |src.unemailed| >= req.maxEpisodes && Prepared(src, req, rows).Ok? {
      var p := PyPrefix(t, req.maxEpisodes);
      forall i | 0 <= i < |p| ensures HasKey(p[i], "title")
      {
        assert p[i] == t[i];
      }
    }
  }

  predicate AllTitled(xs: seq<Dict>)
  {
    forall i :: 0 <= i < |xs| ==> HasKey(xs[i], "title")
  }

  /** The loop keeps every entry titled: both kinds of entry it adds carry a title. */
  lemma {:induction false} FilledTitled(src: Sources, req: Request, st: Progress, cands: seq<Dict>)
    requires HasIds(cands) && HasEpisodeIds(st.forEmail)
    requires AllTitled(st.forEmail)
    ensures AllTitled(Filled(src, req, st, cands).forEmail)
  {
    if cands != [] {
      FilledTitled(src, req, st, cands[..|cands| - 1]);
      var m := Filled(src, req, st, cands[..|cands| - 1]);
      var r := Visit(src, req, m, cands[|cands| - 1]);
      VisitAddsTitled(src, req, m, cands[|cands| - 1]);
      forall i | 0 <= i < |m.forEmail| ensures HasKey(r.forEmail[i], "title")
      {
        VisitKeepsEntry(src, req, m, cands[|cands| - 1], i);
      }
    }
  }

  /** A stored summary of episode `e1` that is not yet e-mailed; rows carry no title. */
  const UntitledSummary: Dict := [("episode_id", Str("e1")), ("summary", Str("Tides"))]

  /** The title of episode `e1`. */
  const EpisodeOneTitle: string := "Episode One"

  /**
   * One unemailed summary, the episode it belongs to, and one followed
   * podcast that lists no episodes.
   */
  const OneSummarySources: Sources := Sources(
    [UntitledSummary],
    (id: Value) => Some([("id", Str("e1")), ("title", Str(EpisodeOneTitle))]),
    [Str("p1")],
    (p: Value, n: int) => [],
    (id: Value) => None,
    (t: string, d: string) => Err("unavailable"),
    (n: nat) => "row",
    (v: Value) => "[]",
    "2024-01-01T00:00:00")

  /**
   * Line 68 as written: with one unemailed summary, room for two and a
   * followed podcast, the digest gets the summary row without its title, so
   * the e-mail heads it "Unknown Episode"; the intended workflow keeps the
   * title of its episode.
   */
  lemma UnemailedTitleDropped(show: Value -> string)
    ensures var r := PreparedAsWritten(OneSummarySources, Request("u1", 2, "medium"), []);
      r.Ok? && |r.value.forEmail| == 1 && !HasKey(r.value.forEmail[0], "title") &&
      GetOr(r.value.forEmail[0], "summary", Str("")).Str? &&
      EmailContent.ItemHead(r.value.forEmail[0], show)[1] == "## Unknown Episode"
    ensures var r := Prepared(OneSummarySources, Request("u1", 2, "medium"), []);
      r.Ok? && |r.value.forEmail| == 1 && GetOr(r.value.forEmail[0], "summary", Str("")).Str? &&
      EmailContent.ItemHead(r.value.forEmail[0], show)[1] == "## " + EpisodeOneTitle
  {
    var src := OneSummarySources;
    var req := Request("u1", 2, "medium");
    assert Gathered(src, src.followed, 2) == [] by {
      assert src.followed[..0] == [];
    }
    assert !HasKey(UntitledSummary, "title");
    GetFirstAt(UntitledSummary, "summary", 1);
    assert PreparedAsWritten(src, req, []) == Ok(Progress([UntitledSummary], [], []));
    EmailContent.ItemHeadShowsTitle(UntitledSummary, show);
    var titled := WithTitle(src, UntitledSummary);
    assert Titled(src) == [titled];
    assert Get(titled, "summary") == Get(UntitledSummary, "summary");
    GetFirstAt([("id", Str("e1")), ("title", Str(EpisodeOneTitle))], "title", 1);
    assert Get(titled, "title") == Some(Str(EpisodeOneTitle));
    assert Prepared(src, req, []) == Ok(Progress([titled], [], []));
    EmailContent.ItemHeadShowsTitle(titled, show);
  }

  // ---------------------------------------------------------------------
  // The methods

  /** Lines 30-38: each unemailed summary with the title of its episode. */
  method TitleSummaries(src: Sources) returns (titled: seq<Dict>)
    ensures titled == Titled(src)
  {
    titled := [];
    for i := 0 to |src.unemailed|
      invariant titled == Titled(src)[..i]
    {
      titled := titled + [WithTitle(src, src.unemailed[i])];
    }
  }

  /** Lines 53-57: the latest episodes of every followed podcast. */
  method GatherEpisodes(src: Sources, limit: int) returns (all: seq<Dict>)
    ensures all == Gathered(src, src.followed, limit)
  {
    all := [];
    for i := 0 to |src.followed|
      invariant all == Gathered(src, src.followed[..i], limit)
    {
      assert src.followed[..i + 1][..i] == src.followed[..i];
      all := all + src.episodesOf(src.followed[i], limit);
    }
    assert src.followed[..|src.followed|] == src.followed;
  }

  /** Lines 72-139 for one candidate episode, on a digest that is not yet full. */
  method VisitEpisode(table: SummaryTable, src: Sources, req: Request,
                      forEmail: seq<Dict>, failed: seq<(Value, string)>, episode: Dict)
      returns (forEmail': seq<Dict>, failed': seq<(Value, string)>)
    requires HasEpisodeIds(forEmail) && |forEmail| < req.maxEpisodes
    modifies table
    ensures Progress(forEmail', failed', table.rows) == Visit(src, req, Progress(forEmail, failed, old(table.rows)), episode)
  {
    forEmail', failed' := forEmail, failed;
    var episodeId := GetOr(episode, "id", Null);
    var episodeTitle := GetOr(episode, "title", Str("Unknown Episode"));
    if episodeId in EpisodeIds(forEmail) {
      return;
    }
    var existing := table.Find(episodeId, req.userId);
    if existing.Some? && existing.value != [] {
      if NotEmailed(existing.value) {
        forEmail' := forEmail + [Put(existing.value, "title", TitleOf(src, episodeId))];
      }
      return;
    }
    var transcription := src.transcriptOf(episodeId);
    if transcription.None? || transcription.value == [] {
      failed' := failed + [(episodeTitle, "Transcription not available")];
      return;
    }
    var request := SummaryRequest(episodeId, req.userId, req.detailLevel);
    if request.Err? {
      failed' := failed + [(episodeTitle, "Summary generation failed: " + request.error)];
      return;
    }
    var generated := src.generate(transcription.value, req.detailLevel);
    match generated {
      case Err(msg) =>
        failed' := failed + [(episodeTitle, "Summary generation failed: " + msg)];
      case Ok(g) =>
        var points := GetOr(g.keyPoints, "points", List([]));
        table.Store(src, episodeId, g.summary, req.userId, points, g.highlights, req.detailLevel);
        forEmail' := forEmail + [NewEntry(episodeId, g, episodeTitle)];
    }
  }

  /** Lines 70-139: the candidates in turn, until the digest is full. */
  method FillDigest(table: SummaryTable, src: Sources, req: Request, start: seq<Dict>, cands: seq<Dict>)
      returns (forEmail: seq<Dict>, failed: seq<(Value, string)>)
    requires HasIds(cands) && HasEpisodeIds(start)
    modifies table
    ensures Progress(forEmail, failed, table.rows) == Filled(src, req, Progress(start, [], old(table.rows)), cands)
  {
    ghost var st := Progress(start, [], table.rows);
    forEmail, failed := start, [];
    for i := 0 to |cands|
      invariant HasEpisodeIds(forEmail)
      invariant Progress(forEmail, failed, table.rows) == Filled(src, req, st, cands[..i])
    {
      assert cands[..i + 1][..i] == cands[..i];
      if |forEmail| >= req.maxEpisodes {
        FilledStaysFull(src, req, st, cands, i);
        break;
      }
      forEmail, failed := VisitEpisode(table, src, req, forEmail, failed, cands[i]);
    }
    assert cands[..|cands|] == cands;
  }

  /**
   * `prepare_episodes_to_email`, with the summary table as the state it
   * changes, the list the filling loop starts from (titled, or the summary
   * rows as the table gave them) and the sort key as parameters.
   */
  method PrepareDigest(table: SummaryTable, src: Sources, req: Request, keepTitles: bool, field: string)
      returns (r: Result<(seq<Dict>, seq<(Value, string)>)>)
    requires HasEpisodeIds(src.unemailed)
    requires HasIds(Gathered(src, src.followed, req.maxEpisodes))
    modifies table
    ensures var p := PrepareWith(src, req, old(table.rows), if keepTitles then Titled(src) else src.unemailed, field);
      (p.Err? ==> r == Err(p.error) && table.rows == old(table.rows)) &&
      (p.Ok? ==> r == Ok((p.value.forEmail, p.value.failed)) && table.rows == p.value.rows)
  {
    TitledIds(src);
    var episodesForEmail := TitleSummaries(src);
    if |src.unemailed| >= req.maxEpisodes {
      return Ok((PyPrefix(episodesForEmail, req.maxEpisodes), []));
    }
    if src.followed == [] {
      return Ok((episodesForEmail, []));
    }
    var allEpisodes := GatherEpisodes(src, req.maxEpisodes);
    var sorted := Candidates(allEpisodes, field);
    if sorted.Err? {
      return Err(sorted.error);
    }
    var cands := sorted.value;
    assert HasIds(cands) by {
      forall i | 0 <= i < |cands| ensures HasKey(cands[i], "id")
      {
        assert cands[i] in multiset(allEpisodes);
      }
    }
    if !keepTitles {
      episodesForEmail := src.unemailed;
    }
    var failed;
    episodesForEmail, failed := FillDigest(table, src, req, episodesForEmail, cands);
    return Ok((episodesForEmail, failed));
  }

  /**
   * `prepare_episodes_to_email` as written: the loop starts from the untitled
   * summary rows (line 68) and sorts on `published_date` (line 60).
   */
  method PrepareEpisodesToEmail(table: SummaryTable, src: Sources, req: Request)
      returns (r: Result<(seq<Dict>, seq<(Value, string)>)>)
    requires HasEpisodeIds(src.unemailed)
    requires HasIds(Gathered(src, src.followed, req.maxEpisodes))
    modifies table
    ensures var p := PreparedAsWritten(src, req, old(table.rows));
      (p.Err? ==> r == Err(p.error) && table.rows == old(table.rows)) &&
      (p.Ok? ==> r == Ok((p.value.forEmail, p.value.failed)) && table.rows == p.value.rows)
  {
    r := PrepareDigest(table, src, req, false, "published_date");
  }

  /** `prepare_episodes_to_email` as intended: the titled list seeds the loop, sorted on `published_at`. */
  method PrepareEpisodesCorrected(table: SummaryTable, src: Sources, req: Request)
      returns (r: Result<(seq<Dict>, seq<(Value, string)>)>)
    requires HasEpisodeIds(src.unemailed)
    requires HasIds(Gathered(src, src.followed, req.maxEpisodes))
    modifies table
    ensures var p := Prepared(src, req, old(table.rows));
      (p.Err? ==> r == Err(p.error) && table.rows == old(table.rows)) &&
      (p.Ok? ==> r == Ok((p.value.forEmail, p.value.failed)) && table.rows == p.value.rows)
  {
    TitledIds(src);
    r := PrepareDigest(table, src, req, true, PublishedField);
  }

  // ---------------------------------------------------------------------
  // build_single_episode_summary

  /** The dict `build_single_episode_summary` returns. */
  function Brief(title: Value, summary: Value, keyPoints: Value, highlights: Value): Dict
  {
    [("title", title), ("summary", summary), ("key_points", keyPoints), ("highlights", highlights)]
  }

  lemma BriefFields(title: Value, summary: Value, keyPoints: Value, highlights: Value)
    ensures Get(Brief(title, summary, keyPoints, highlights), "title") == Some(title)
    ensures Get(Brief(title, summary, keyPoints, highlights), "summary") == Some(summary)
  {
    GetFirstAt(Brief(title, summary, keyPoints, highlights), "summary", 1);
  }

  /** The title `build_single_episode_summary` reports for an episode row. */
  function EpisodeTitle(episode: Dict): Value
  {
    GetOr(episode, "title", Str("Unknown Episode"))
  }

  /**
   * The arguments both `prepare_episodes_to_email` (lines 103-108) and
   * `build_single_episode_summary` (lines 187-192) build their
   * `EpisodeSummaryRequest` from.
   */
  function SummaryRequestData(episodeId: Value, userId: string, detailLevel: string): Dict
  {
    [("episode_id", episodeId), ("user_id", Str(userId)), ("method", Str("auto")),
     ("detail_level", Str(detailLevel))]
  }

  /**
   * The `EpisodeSummaryRequest` of lines 103-108 and 187-192: it validates
   * exactly when the episode id is a str and the detail level is one of the
   * enum's names, and the id is checked first.
   */
  function SummaryRequest(episodeId: Value, userId: string, detailLevel: string): (r: Result<Dict>)
    ensures r.Ok? <==> episodeId.Str? && detailLevel in RequestModels.DetailLevelNames
    ensures !episodeId.Str? ==> r == Err("Invalid value for episode_id")
    ensures episodeId.Str? && r.Err? ==> r.error == "Invalid value for detail_level"
  {
    RequestModels.ModelsHaveUniqueNames();
    SummaryRequestFields(episodeId, userId, detailLevel);
    SummaryRequestErrors(episodeId, userId, detailLevel);
    RequestModels.Validate(RequestModels.EpisodeSummaryRequest, SummaryRequestData(episodeId, userId, detailLevel))
  }

  /** The error of a request that does not validate: the id first, then the detail level. */
  lemma SummaryRequestErrors(episodeId: Value, userId: string, detailLevel: string)
    ensures RequestModels.UniqueNames(RequestModels.EpisodeSummaryRequest)
    ensures !episodeId.Str? ==>
      RequestModels.Validate(RequestModels.EpisodeSummaryRequest, SummaryRequestData(episodeId, userId, detailLevel))
        == Err("Invalid value for episode_id")
    ensures episodeId.Str? && detailLevel !in RequestModels.DetailLevelNames ==>
      RequestModels.Validate(RequestModels.EpisodeSummaryRequest, SummaryRequestData(episodeId, userId, detailLevel))
        == Err("Invalid value for detail_level")
  {
    RequestModels.ModelsHaveUniqueNames();
    if !episodeId.Str? {
      SummaryRequestIdError(episodeId, userId, detailLevel);
    } else if detailLevel !in RequestModels.DetailLevelNames {
      SummaryRequestError(episodeId, userId, detailLevel);
    }
  }

  /** An episode id that is not a str is the first field the request refuses. */
  lemma SummaryRequestIdError(episodeId: Value, userId: string, detailLevel: string)
    requires !episodeId.Str?
    ensures RequestModels.UniqueNames(RequestModels.EpisodeSummaryRequest)
    ensures RequestModels.Validate(RequestModels.EpisodeSummaryRequest, SummaryRequestData(episodeId, userId, detailLevel))
      == Err("Invalid value for episode_id")
  {
    RequestModels.ModelsHaveUniqueNames();
    var fields := RequestModels.EpisodeSummaryRequest;
    var data := SummaryRequestData(episodeId, userId, detailLevel);
    SummaryRequestFields(episodeId, userId, detailLevel);
    assert fields[0].name == "episode_id";
    assert RequestModels.FieldError(fields[0], data) == "Invalid value for " + "episode_id";
    FieldErrorTexts();
    RequestModels.ValidateFirstError(fields, data, 0);
  }

  /** With a str id, a detail level outside the enum is the first, and only, field the request refuses. */
  lemma SummaryRequestError(episodeId: Value, userId: string, detailLevel: string)
    requires episodeId.Str? && detailLevel !in RequestModels.DetailLevelNames
    ensures RequestModels.UniqueNames(RequestModels.EpisodeSummaryRequest)
    ensures RequestModels.Validate(RequestModels.EpisodeSummaryRequest, SummaryRequestData(episodeId, userId, detailLevel))
      == Err("Invalid value for detail_level")
  {
    RequestModels.ModelsHaveUniqueNames();
    var fields := RequestModels.EpisodeSummaryRequest;
    var data := SummaryRequestData(episodeId, userId, detailLevel);
    SummaryRequestFields(episodeId, userId, detailLevel);
    SummaryRequestKeys(episodeId, userId, detailLevel);
    assert fields[5].name == "detail_level";
    assert RequestModels.FieldError(fields[5], data) == "Invalid value for " + "detail_level";
    FieldErrorTexts();
    RequestModels.ValidateFirstError(fields, data, 5);
  }

  /** The two validation errors of the request, written out. */
  lemma FieldErrorTexts()
    ensures "Invalid value for " + "episode_id" == "Invalid value for episode_id"
    ensures "Invalid value for " + "detail_level" == "Invalid value for detail_level"
  {
  }

  /** The four keys the request is built with, and four it leaves unset. */
  lemma SummaryRequestKeys(episodeId: Value, userId: string, detailLevel: string)
    ensures var data := SummaryRequestData(episodeId, userId, detailLevel);
      Get(data, "episode_id") == Some(episodeId) && Get(data, "user_id") == Some(Str(userId)) &&
      Get(data, "method") == Some(Str("auto")) && Get(data, "detail_level") == Some(Str(detailLevel)) &&
      Get(data, "custom_prompt").None? && Get(data, "chunk_size").None? &&
      Get(data, "chunk_overlap").None? && Get(data, "temperature").None?
  {
    var data := SummaryRequestData(episodeId, userId, detailLevel);
    GetFirstAt(data, "user_id", 1);
    GetFirstAt(data, "method", 2);
    GetFirstAt(data, "detail_level", 3);
    KeyAbsent(data, "custom_prompt");
    KeyAbsent(data, "chunk_size");
    KeyAbsent(data, "chunk_overlap");
    KeyAbsent(data, "temperature");
  }

  /** The four optional fields the request leaves unset accept it. */
  lemma SummaryRequestUnset(episodeId: Value, userId: string, detailLevel: string)
    ensures var fields := RequestModels.EpisodeSummaryRequest;
      forall i | i in {2, 3, 4, 7} :: RequestModels.FieldOk(fields[i], SummaryRequestData(episodeId, userId, detailLevel))
  {
    SummaryRequestKeys(episodeId, userId, detailLevel);
  }

  /**
   * `episode_id` accepts a str, `detail_level` a name of the enum, and every
   * other field accepts the arguments.
   */
  lemma SummaryRequestFields(episodeId: Value, userId: string, detailLevel: string)
    ensures var fields := RequestModels.EpisodeSummaryRequest;
      var data := SummaryRequestData(episodeId, userId, detailLevel);
      |fields| == 8 &&
      (forall i :: 0 <= i < |fields| && i != 0 && i != 5 ==> RequestModels.FieldOk(fields[i], data)) &&
      (RequestModels.FieldOk(fields[0], data) <==> episodeId.Str?) &&
      (RequestModels.FieldOk(fields[5], data) <==> detailLevel in RequestModels.DetailLevelNames)
  {
    var fields := RequestModels.EpisodeSummaryRequest;
    var data := SummaryRequestData(episodeId, userId, detailLevel);
    SummaryRequestKeys(episodeId, userId, detailLevel);
    SummaryRequestUnset(episodeId, userId, detailLevel);
    assert fields[0] == RequestModels.Required("episode_id", RequestModels.Text);
    assert fields[1] == RequestModels.Nullable("user_id", RequestModels.Text, Str(RequestModels.DefaultUserId));
    assert fields[5] == RequestModels.Plain("detail_level", RequestModels.Choice(RequestModels.DetailLevelNames), Str("standard"));
    assert fields[6] == RequestModels.Plain("method", RequestModels.Choice(RequestModels.MethodNames), Str("auto"));
    assert "auto" in RequestModels.MethodNames;
  }

  /** The result of `build_single_episode_summary` and the summary table after it. */
  function SingleSummary(src: Sources, userId: string, episodeId: string, detailLevel: string, rows: seq<Dict>)
    : (r: Result<(Dict, seq<Dict>)>)
    ensures src.episodeOf(Str(episodeId)).None? || src.episodeOf(Str(episodeId)).value == [] ==>
      r == Err("Episode not found: " + episodeId)
    ensures r.Ok? ==> |rows| <= |r.value.1| <= |rows| + 1 && r.value.1[..|rows|] == rows
  {
    var id := Str(episodeId);
    var episode := src.episodeOf(id);
    if episode.None? || episode.value == [] then Err("Episode not found: " + episodeId)
    else if HasSummary(rows, id, userId) then
      var existing := FindRow(rows, id, userId).value;
      Ok((Brief(EpisodeTitle(episode.value), GetOr(existing, "summary", Str("")),
                GetOr(existing, "key_points", List([])), GetOr(existing, "highlights", List([]))), rows))
    else if !HasTranscript(src, id) then Err("Transcript not found for episode: " + episodeId)
    else if SummaryRequest(id, userId, detailLevel).Err? then
      Err(SummaryRequest(id, userId, detailLevel).error)
    else
      match src.generate(src.transcriptOf(id).value, detailLevel)
      case Err(msg) => Err("Summary generation failed: " + msg)
      case Ok(g) =>
        var points := GetOr(g.keyPoints, "points", List([]));
        var row := StoredRow(src, |rows|, id, g.summary, userId, points, g.highlights, detailLevel);
        assert (rows + [row])[..|rows|] == rows;
        Ok((Brief(EpisodeTitle(episode.value), Str(g.summary), points, g.highlights), rows + [row]))
  }

  /** Lines 171-179: a stored summary is returned as it is, with the episode's title, and nothing is written. */
  lemma SingleSummaryReused(src: Sources, userId: string, episodeId: string, detailLevel: string, rows: seq<Dict>)
    requires src.episodeOf(Str(episodeId)).Some? && src.episodeOf(Str(episodeId)).value != []
    requires HasSummary(rows, Str(episodeId), userId)
    ensures var r := SingleSummary(src, userId, episodeId, detailLevel, rows);
      r.Ok? && r.value.1 == rows &&
      Get(r.value.0, "title") == Some(EpisodeTitle(src.episodeOf(Str(episodeId)).value)) &&
      Get(r.value.0, "summary") == Some(GetOr(FindRow(rows, Str(episodeId), userId).value, "summary", Str("")))
  {
    var existing := FindRow(rows, Str(episodeId), userId).value;
    BriefFields(EpisodeTitle(src.episodeOf(Str(episodeId)).value), GetOr(existing, "summary", Str("")),
                GetOr(existing, "key_points", List([])), GetOr(existing, "highlights", List([])));
  }

  /**
   * Lines 181-220: without a stored summary the transcript must exist, the
   * request must validate (its error is raised as it is, outside the `try`),
   * the summariser must succeed, and the new summary is stored for the
   * episode and user before it is returned with the episode's title.
   */
  lemma SingleSummaryGenerated(src: Sources, userId: string, episodeId: string, detailLevel: string, rows: seq<Dict>)
    requires src.episodeOf(Str(episodeId)).Some? && src.episodeOf(Str(episodeId)).value != []
    requires !HasSummary(rows, Str(episodeId), userId)
    ensures var r := SingleSummary(src, userId, episodeId, detailLevel, rows);
      (r == Err("Transcript not found for episode: " + episodeId) <==> !HasTranscript(src, Str(episodeId))) &&
      (HasTranscript(src, Str(episodeId)) && detailLevel !in RequestModels.DetailLevelNames ==>
        r == Err("Invalid value for detail_level")) &&
      (HasTranscript(src, Str(episodeId)) && detailLevel in RequestModels.DetailLevelNames ==>
        match src.generate(src.transcriptOf(Str(episodeId)).value, detailLevel)
        case Err(msg) => r == Err("Summary generation failed: " + msg)
        case Ok(g) =>
          r.Ok? && |r.value.1| == |rows| + 1 && RowOf(r.value.1[|rows|], Str(episodeId), userId) &&
          Get(r.value.1[|rows|], "summary") == Get(r.value.0, "summary") == Some(Str(g.summary)) &&
          Get(r.value.0, "title") == Some(EpisodeTitle(src.episodeOf(Str(episodeId)).value)))
  {
    var id := Str(episodeId);
    if HasTranscript(src, id) && detailLevel in RequestModels.DetailLevelNames {
      match src.generate(src.transcriptOf(id).value, detailLevel)
      case Err(msg) =>
        assert ("Summary generation failed: " + msg)[0] == 'S';
        assert ("Transcript not found for episode: " + episodeId)[0] == 'T';
      case Ok(g) =>
        var points := GetOr(g.keyPoints, "points", List([]));
        StoredRowOwner(src, |rows|, id, g.summary, userId, points, g.highlights, detailLevel);
        BriefFields(EpisodeTitle(src.episodeOf(id).value), Str(g.summary), points, g.highlights);
    }
  }

  /** `build_single_episode_summary`; `Err` is the ValueError it raises. */
  method BuildSingleEpisodeSummary(table: SummaryTable, src: Sources, userId: string, episodeId: string, detailLevel: string)
      returns (r: Result<Dict>)
    modifies table
    ensures var s := SingleSummary(src, userId, episodeId, detailLevel, old(table.rows));
      (s.Err? ==> r == Err(s.error) && table.rows == old(table.rows)) &&
      (s.Ok? ==> r == Ok(s.value.0) && table.rows == s.value.1)
  {
    var id := Str(episodeId);
    var episode := src.episodeOf(id);
    if episode.None? || episode.value == [] {
      return Err("Episode not found: " + episodeId);
    }
    var episodeTitle := EpisodeTitle(episode.value);
    var existing := table.Find(id, userId);
    if existing.Some? && existing.value != [] {
      return Ok(Brief(episodeTitle, GetOr(existing.value, "summary", Str("")),
                      GetOr(existing.value, "key_points", List([])), GetOr(existing.value, "highlights", List([]))));
    }
    var transcription := src.transcriptOf(id);
    if transcription.None? || transcription.value == [] {
      return Err("Transcript not found for episode: " + episodeId);
    }
    var request := SummaryRequest(id, userId, detailLevel);
    if request.Err? {
      return Err(request.error);
    }
    var generated := src.generate(transcription.value, detailLevel);
    match generated {
      case Err(msg) =>
        return Err("Summary generation failed: " + msg);
      case Ok(g) =>
        var points := GetOr(g.keyPoints, "points", List([]));
        table.Store(src, id, g.summary, userId, points, g.highlights, detailLevel);
        return Ok(Brief(episodeTitle, Str(g.summary), points, g.highlights));
    }
  }

  /** The title the e-mail gives a digest entry without one. */
  lemma UntitledShownUnknown(item: Dict, show: Value -> string)
    requires !HasKey(item, "title") && GetOr(item, "summary", Str("")).Str?
    ensures EmailContent.ItemHead(item, show)[1] == "## Unknown Episode"
  {
  }
}
