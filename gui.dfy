/**
 * The desktop client's episode-index parser and the requests its "Process
 * podcast" button queues. Widgets, threads and the HTTP calls are not modelled:
 * the field contents come in as parameters and the queued payloads come out in
 * order (each is posted to the deployed API's `/process-podcast`).
 */
module Gui {
  import opened Wrappers
  import opened Json
  import opened Strings
  import opened EpisodeIndices

  /**
   * `parse_episode_indices` of the GUI: increasing, without duplicates, holding
   * exactly the selected values; `None` both for an empty string and for a
   * string in which no token is valid, never an empty list.
   */
  function Indices(s: string): (r: Option<seq<int>>)
    ensures r.Some? ==> r.value != [] && StrictlyIncreasing(r.value)
    ensures forall v :: (r.Some? && v in r.value) <==> (s != [] && Chosen(TextParts(s), v))
    ensures r.None? <==> (s == [] || forall v :: !Chosen(TextParts(s), v))
  {
    if s == [] then None
    else
      var unique := SortedIndices(TextParts(s));
      assert unique != [] ==> unique[0] in unique;
      if unique == [] then None else Some(unique)
  }

  method ParseEpisodeIndices(s: string) returns (r: Option<seq<int>>)
    ensures r == Indices(s)
  {
    if s == [] {
      return None;
    }
    var result := CollectIndices(TextParts(s));
    var unique := SortedUnique(result);
    r := if unique == [] then None else Some(unique);
  }

  /** The indices `handle_process_podcast` acts on: the stripped field, parsed only when non-empty. */
  function FieldIndices(indicesText: string): Option<seq<int>>
  {
    var t := Strip(indicesText);
    if t != [] then Indices(t) else None
  }

  predicate FieldSelects(indicesText: string, v: int)
  {
    Strip(indicesText) != [] && Chosen(TextParts(Strip(indicesText)), v)
  }

  /** One copy of `base` per index, each asking for that index alone. */
  function Singles(base: Dict, ps: seq<int>): (r: seq<Dict>)
    ensures |r| == |ps|
    ensures forall k :: 0 <= k < |ps| ==> r[k] == Put(base, "episode_indices", Ints([ps[k]]))
  {
    if ps == [] then []
    else Singles(base, ps[..|ps| - 1]) + [Put(base, "episode_indices", Ints([ps[|ps| - 1]]))]
  }

  /** One request per index for several indices, one request with the index for one, else one with the limit. */
  function FanOut(parsed: Option<seq<int>>, feedUrl: Value, limit: int, splitSizeMb: real,
                  includeTranscription: bool): seq<Dict>
  {
    if parsed.Some? && |parsed.value| > 1 then
      Singles(BaseRequest(feedUrl, 0, splitSizeMb, includeTranscription), parsed.value)
    else if parsed.Some? && |parsed.value| == 1 then
      [Put(BaseRequest(feedUrl, 0, splitSizeMb, includeTranscription), "episode_indices", Ints(parsed.value))]
    else [BaseRequest(feedUrl, limit, splitSizeMb, includeTranscription)]
  }

  function Payloads(feedText: string, limit: int, indicesText: string, splitSizeMb: real,
                    includeTranscription: bool): seq<Dict>
  {
    FanOut(FieldIndices(indicesText), Str(Strip(feedText)), limit, splitSizeMb, includeTranscription)
  }

  /** The fan-out loop: one payload per index, in order. */
  method QueueSingles(base: Dict, ps: seq<int>) returns (queued: seq<Dict>)
    ensures queued == Singles(base, ps)
  {
    queued := [];
    for k := 0 to |ps|
      invariant queued == Singles(base, ps[..k])
    {
      assert ps[..k + 1][..k] == ps[..k];
      var single := Put(base, "episode_indices", Ints([ps[k]]));
      queued := queued + [single];
    }
    assert ps[..|ps|] == ps;
  }

  /** The queueing step of `handle_process_podcast`, after the fields are read. */
  method Enqueue(parsed: Option<seq<int>>, feedUrl: Value, limit: int, splitSizeMb: real,
                 includeTranscription: bool) returns (queued: seq<Dict>)
    ensures queued == FanOut(parsed, feedUrl, limit, splitSizeMb, includeTranscription)
  {
    if parsed.Some? && |parsed.value| > 1 {
      queued := QueueSingles(BaseRequest(feedUrl, 0, splitSizeMb, includeTranscription), parsed.value);
    } else if parsed.Some? && |parsed.value| == 1 {
      queued := [Put(BaseRequest(feedUrl, 0, splitSizeMb, includeTranscription), "episode_indices", Ints(parsed.value))];
    } else {
      queued := [BaseRequest(feedUrl, limit, splitSizeMb, includeTranscription)];
    }
  }

  /**
   * What `handle_process_podcast` queues from the form's texts. `int()` of the
   * limit field and `float()` of the split-size field come first; when either
   * raises `ValueError` the handler stops and nothing is queued. A split size
   * that `float` reads as inf or nan is also refused here, since a payload
   * holds only a finite split size.
   */
  function FormPayloads(feedText: string, limitText: string, indicesText: string, splitText: string,
                        includeTranscription: bool): seq<Dict>
  {
    match (ParseInt(limitText), ParseFloat(splitText))
    case (Some(limit), Some(Finite(splitSizeMb))) =>
      Payloads(feedText, limit, indicesText, splitSizeMb, includeTranscription)
    case _ => []
  }

  /** The payloads `handle_process_podcast` puts on its task queue, in order. */
  method HandleProcessPodcast(feedText: string, limitText: string, indicesText: string, splitText: string,
                              includeTranscription: bool) returns (queued: seq<Dict>)
    ensures queued == FormPayloads(feedText, limitText, indicesText, splitText, includeTranscription)
  {
    var feedUrl := Strip(feedText);
    var limit := ParseInt(limitText);
    if limit.None? {
      return [];
    }
    var indices := Strip(indicesText);
    var split := ParseFloat(splitText);
    if split.None? || !split.value.Finite? {
      return [];
    }
    var parsed: Option<seq<int>> := None;
    if indices != [] {
      parsed := ParseEpisodeIndices(indices);
    }
    queued := Enqueue(parsed, Str(feedUrl), limit.value, split.value.r, includeTranscription);
  }

  /**
   * The form queues something exactly when both number fields convert, and
   * then it queues the payloads of the converted values.
   */
  lemma FormQueues(feedText: string, limitText: string, indicesText: string, splitText: string,
                   includeTranscription: bool)
    ensures FormPayloads(feedText, limitText, indicesText, splitText, includeTranscription) != [] <==>
      ParseInt(limitText).Some? && ParseFloat(splitText).Some? && ParseFloat(splitText).value.Finite?
    ensures ParseInt(limitText).Some? && ParseFloat(splitText).Some? && ParseFloat(splitText).value.Finite? ==>
      FormPayloads(feedText, limitText, indicesText, splitText, includeTranscription) ==
        Payloads(feedText, ParseInt(limitText).value, indicesText, ParseFloat(splitText).value.r, includeTranscription)
  {
    if ParseInt(limitText).Some? && ParseFloat(splitText).Some? && ParseFloat(splitText).value.Finite? {
      FanOutShape(FieldIndices(indicesText), Str(Strip(feedText)), ParseInt(limitText).value,
                  ParseFloat(splitText).value.r, includeTranscription);
    }
  }

  /** Field text that starts like a word rather than a number, such as "ten" or "inf". */
  predicate Wordlike(t: string)
  {
    t != [] && NoSpace(t) && !IsDigit(t[0]) && t[0] != '-' && t[0] != '+' && t[0] != '.'
  }

  /**
   * A word such as "ten" in the limit field, or in the split-size field, makes
   * `int()` or `float()` raise, so nothing is queued. The model also queues
   * nothing for "inf" or "nan" in the split-size field, which `float()`
   * accepts.
   */
  lemma WordFieldQueuesNothing(feedText: string, limitText: string, indicesText: string, splitText: string,
                               includeTranscription: bool)
    requires Wordlike(limitText) || Wordlike(splitText)
    ensures FormPayloads(feedText, limitText, indicesText, splitText, includeTranscription) == []
  {
    if Wordlike(limitText) {
      WordNotNumber(limitText);
    } else {
      WordNotNumber(splitText);
    }
  }

  /** At least one request; all for the same feed; a request with indices has `limit_episodes` 0. */
  predicate WellShaped(qs: seq<Dict>, feedUrl: Value)
  {
    |qs| >= 1 &&
    (forall k :: 0 <= k < |qs| ==> Get(qs[k], "feed_url") == Some(feedUrl)) &&
    (forall k :: 0 <= k < |qs| && HasKey(qs[k], "episode_indices") ==> Get(qs[k], "limit_episodes") == Some(Int(0)))
  }

  /** Whatever the indices, the queued requests are well shaped. */
  lemma FanOutShape(parsed: Option<seq<int>>, feedUrl: Value, limit: int, splitSizeMb: real,
                    includeTranscription: bool)
    ensures WellShaped(FanOut(parsed, feedUrl, limit, splitSizeMb, includeTranscription), feedUrl)
  {
    var base := BaseRequest(feedUrl, 0, splitSizeMb, includeTranscription);
    if parsed.Some? && |parsed.value| > 1 {
      SinglesShaped(base, feedUrl, parsed.value);
    } else if parsed.Some? && |parsed.value| == 1 {
      IndexedShaped(base, feedUrl, parsed.value);
    } else {
      UnindexedShaped(feedUrl, limit, splitSizeMb, includeTranscription);
    }
  }

  /** The one request for a single index is well shaped. */
  lemma IndexedShaped(base: Dict, feedUrl: Value, ps: seq<int>)
    requires Get(base, "feed_url") == Some(feedUrl) && Get(base, "limit_episodes") == Some(Int(0))
    ensures WellShaped([Put(base, "episode_indices", Ints(ps))], feedUrl)
  {
  }

  /** The one request without indices is well shaped. */
  lemma UnindexedShaped(feedUrl: Value, limit: int, splitSizeMb: real, includeTranscription: bool)
    ensures WellShaped([BaseRequest(feedUrl, limit, splitSizeMb, includeTranscription)], feedUrl)
  {
  }

  /** One request per index, from a base with limit 0, is well shaped. */
  lemma SinglesShaped(base: Dict, feedUrl: Value, ps: seq<int>)
    requires ps != []
    requires Get(base, "feed_url") == Some(feedUrl) && Get(base, "limit_episodes") == Some(Int(0))
    ensures WellShaped(Singles(base, ps), feedUrl)
  {
  }

  /** Some request of `qs` asks for episode `v`. */
  predicate AsksFor(qs: seq<Dict>, v: int)
  {
    exists k :: 0 <= k < |qs| && Requests(qs[k], v)
  }

  lemma RequestsPut(base: Dict, xs: seq<int>, v: int)
    ensures Requests(Put(base, "episode_indices", Ints(xs)), v) <==> v in xs
  {
    IntsHas(xs, v);
  }

  /** Together the requests ask for exactly the parsed indices. */
  lemma FanOutRequests(parsed: Option<seq<int>>, feedUrl: Value, limit: int, splitSizeMb: real,
                       includeTranscription: bool, v: int)
    ensures AsksFor(FanOut(parsed, feedUrl, limit, splitSizeMb, includeTranscription), v)
      <==> parsed.Some? && v in parsed.value
  {
    var qs := FanOut(parsed, feedUrl, limit, splitSizeMb, includeTranscription);
    if parsed.Some? && |parsed.value| > 1 {
      SinglesAsk(BaseRequest(feedUrl, 0, splitSizeMb, includeTranscription), parsed.value, v);
    } else if parsed.Some? && |parsed.value| == 1 {
      RequestsPut(BaseRequest(feedUrl, 0, splitSizeMb, includeTranscription), parsed.value, v);
      assert |qs| == 1;
    } else {
      assert |qs| == 1 && !Requests(qs[0], v);
    }
  }

  /** The single-index requests together ask for exactly the indices. */
  lemma SinglesAsk(base: Dict, ps: seq<int>, v: int)
    ensures AsksFor(Singles(base, ps), v) <==> v in ps
  {
    var qs := Singles(base, ps);
    if v in ps {
      var k :| 0 <= k < |ps| && ps[k] == v;
      RequestsPut(base, [ps[k]], v);
      assert Requests(qs[k], v);
    }
    if AsksFor(qs, v) {
      var k :| 0 <= k < |qs| && Requests(qs[k], v);
      RequestsPut(base, [ps[k]], v);
      assert v == ps[k];
    }
  }

  /** A fan-out sends one request per parsed index, in the order of the parsed list. */
  lemma FanOutOrder(parsed: Option<seq<int>>, feedUrl: Value, limit: int, splitSizeMb: real,
                    includeTranscription: bool)
    ensures var qs := FanOut(parsed, feedUrl, limit, splitSizeMb, includeTranscription);
      |qs| > 1 ==> (parsed.Some? && |qs| == |parsed.value| &&
        forall k :: 0 <= k < |qs| ==> Get(qs[k], "episode_indices") == Some(Ints([parsed.value[k]])))
  {
  }

  lemma FieldIndicesMembers(indicesText: string, v: int)
    ensures var parsed := FieldIndices(indicesText);
      (parsed.Some? && v in parsed.value) <==> FieldSelects(indicesText, v)
  {
  }

  /**
   * `handle_process_podcast` asks for exactly the episodes the indices field
   * selects; with several, one request each, in strictly ascending order.
   */
  lemma PayloadsRequestSelection(feedText: string, limit: int, indicesText: string,
                                 splitSizeMb: real, includeTranscription: bool, v: int)
    ensures AsksFor(Payloads(feedText, limit, indicesText, splitSizeMb, includeTranscription), v)
      <==> FieldSelects(indicesText, v)
  {
    var parsed := FieldIndices(indicesText);
    var feed := Str(Strip(feedText));
    assert Payloads(feedText, limit, indicesText, splitSizeMb, includeTranscription)
        == FanOut(parsed, feed, limit, splitSizeMb, includeTranscription);
    FanOutRequests(parsed, feed, limit, splitSizeMb, includeTranscription, v);
    FieldIndicesMembers(indicesText, v);
  }

  /** A fan-out's requests ask for one index each, strictly ascending. */
  lemma PayloadsAscending(feedText: string, limit: int, indicesText: string,
                          splitSizeMb: real, includeTranscription: bool)
    ensures var qs := Payloads(feedText, limit, indicesText, splitSizeMb, includeTranscription);
      |qs| > 1 ==>
        (FieldIndices(indicesText).Some? && StrictlyIncreasing(FieldIndices(indicesText).value) &&
         forall k :: 0 <= k < |qs| ==>
           Get(qs[k], "episode_indices") == Some(Ints([FieldIndices(indicesText).value[k]])))
  {
    FanOutOrder(FieldIndices(indicesText), Str(Strip(feedText)), limit, splitSizeMb, includeTranscription);
  }
}
