/**
 * The Pydantic request models of the API: each model is a list of declared
 * fields (name, type, required or defaulted, optional bounds), and validating a
 * request dict yields either the first offending field or the
 * `model_dump(exclude_unset=True)` dict: the declared fields the request set,
 * coerced, in declaration order. Undeclared keys are ignored, as Pydantic does
 * by default.
 */
module RequestModels {
  import opened Wrappers
  import opened Json
  import Strings

  // ---------------------------------------------------------------------
  // Closed enumerations

  datatype DetailLevel = Brief | Standard | Detailed
  datatype SummarizationMethod = LangChain | LlamaIndex | Spacy | Ensemble | AutoMethod
  datatype ParserType = Rss | Crawler | AutoParser

  const DetailLevelNames: seq<string> := ["brief", "standard", "detailed"]
  const MethodNames: seq<string> := ["langchain", "llamaindex", "spacy", "ensemble", "auto"]
  const ParserTypeNames: seq<string> := ["rss", "crawler", "auto"]

  function DetailLevelName(d: DetailLevel): string
  {
    match d
    case Brief => "brief"
    case Standard => "standard"
    case Detailed => "detailed"
  }

  function ParseDetailLevel(s: string): (r: Option<DetailLevel>)
    ensures r.Some? <==> s in DetailLevelNames
    ensures r.Some? ==> DetailLevelName(r.value) == s
  {
    if s == "brief" then Some(Brief)
    else if s == "standard" then Some(Standard)
    else if s == "detailed" then Some(Detailed)
    else None
  }

  function MethodName(m: SummarizationMethod): string
  {
    match m
    case LangChain => "langchain"
    case LlamaIndex => "llamaindex"
    case Spacy => "spacy"
    case Ensemble => "ensemble"
    case AutoMethod => "auto"
  }

  function ParseMethod(s: string): (r: Option<SummarizationMethod>)
    ensures r.Some? <==> s in MethodNames
    ensures r.Some? ==> MethodName(r.value) == s
  {
    if s == "langchain" then Some(LangChain)
    else if s == "llamaindex" then Some(LlamaIndex)
    else if s == "spacy" then Some(Spacy)
    else if s == "ensemble" then Some(Ensemble)
    else if s == "auto" then Some(AutoMethod)
    else None
  }

  function ParserTypeName(p: ParserType): string
  {
    match p
    case Rss => "rss"
    case Crawler => "crawler"
    case AutoParser => "auto"
  }

  /** Each enumeration's names parse back to the member they name. */
  lemma EnumNamesRoundTrip(d: DetailLevel, m: SummarizationMethod)
    ensures ParseDetailLevel(DetailLevelName(d)) == Some(d)
    ensures ParseMethod(MethodName(m)) == Some(m)
  {
  }

  // ---------------------------------------------------------------------
  // Declared fields

  datatype Kind =
    | Text
    | Integer
    | Number
    | Flag
    | IntegerList
    | Choice(names: seq<string>)

  /**
   * One declared field. `nullable` is an `Optional[...]` annotation; `lo`/`hi`
   * are the `ge`/`le` bounds of `Field(...)`.
   */
  datatype Field = Field(
    name: string, kind: Kind, required: bool, nullable: bool,
    default: Value, lo: Option<real>, hi: Option<real>)

  function Plain(name: string, kind: Kind, default: Value): Field
  {
    Field(name, kind, false, false, default, None, None)
  }

  function Nullable(name: string, kind: Kind, default: Value): Field
  {
    Field(name, kind, false, true, default, None, None)
  }

  function Required(name: string, kind: Kind): Field
  {
    Field(name, kind, true, false, Null, None, None)
  }

  function Bounded(name: string, kind: Kind, default: Value, lo: real, hi: real): Field
  {
    Field(name, kind, false, false, default, Some(lo), Some(hi))
  }

  const PodcastFeedRequest: seq<Field> := [
    Required("feed_url", Text),
    Plain("split_size_mb", Integer, Int(25)),
    Nullable("podcast_id", Text, Null),
    Nullable("limit_episodes", Integer, Null),
    Nullable("episode_indices", IntegerList, Null),
    Nullable("start_episode", Integer, Null),
    Nullable("episode_count", Integer, Null),
    Plain("keep_audio_files", Flag, Bool(false)),
    Plain("parser_type", Choice(ParserTypeNames), Str("auto"))
  ]

  const DefaultUserId: string := "c4859aa4-50f7-43bd-9ff2-16efed5bf133"

  const EpisodeSummaryRequest: seq<Field> := [
    Required("episode_id", Text),
    Nullable("user_id", Text, Str(DefaultUserId)),
    Nullable("custom_prompt", Text, Null),
    Bounded("chunk_size", Integer, Int(4000), 500.0, 8000.0),
    Bounded("chunk_overlap", Integer, Int(500), 0.0, 1000.0),
    Plain("detail_level", Choice(DetailLevelNames), Str("standard")),
    Plain("method", Choice(MethodNames), Str("auto")),
    Bounded("temperature", Number, Float(0.2), 0.0, 1.0)
  ]

  const PodcastUpsertRequest: seq<Field> := [
    Required("feed_url", Text),
    Nullable("description", Text, Null),
    Plain("parser_type", Choice(ParserTypeNames), Str("auto"))
  ]

  const UserEmailRequest: seq<Field> := [Required("user_id", Text)]

  const EpisodeEmailRequest: seq<Field> := [Required("user_id", Text), Required("episode_id", Text)]

  function Names(fields: seq<Field>): (ns: seq<string>)
    ensures |ns| == |fields|
    ensures forall i :: 0 <= i < |fields| ==> ns[i] == fields[i].name
  {
    if fields == [] then [] else [fields[0].name] + Names(fields[1..])
  }

  predicate UniqueNames(fields: seq<Field>)
  {
    forall i, j :: 0 <= i < j < |fields| ==> fields[i].name != fields[j].name
  }

  // ---------------------------------------------------------------------
  // Coercion and bounds

  /** Lax-mode coercion of one input value to a field's type; `None` is a type error. */
  function Coerce(kind: Kind, v: Value): Option<Value>
  {
    match kind
    case Text => if v.Str? then Some(v) else None
    case Integer => CoerceInt(v)
    case Number => CoerceFloat(v)
    case Flag => CoerceFlag(v)
    case IntegerList =>
      if v.List? then CoerceInts(v.items, []) else None
    case Choice(names) => if v.Str? && v.s in names then Some(v) else None
  }

  /**
   * An int field accepts an int, a bool as 0 or 1, a finite float with no
   * fraction, or a string of an optional sign and digits.
   */
  function CoerceInt(v: Value): Option<Value>
  {
    match v
    case Int(_) => Some(v)
    case Bool(b) => Some(Int(if b then 1 else 0))
    case Float(f) => if f == f.Floor as real then Some(Int(f.Floor)) else None
    case Str(s) => (match Strings.ParseInt(s) case Some(i) => Some(Int(i)) case None => None)
    case _ => None
  }

  /**
   * A float field accepts any float (infinities and nan included), an int, a
   * bool as 0.0 or 1.0, or a string `float` reads.
   */
  function CoerceFloat(v: Value): Option<Value>
  {
    match v
    case Int(i) => Some(Float(i as real))
    case Bool(b) => Some(Float(if b then 1.0 else 0.0))
    case Float(_) => Some(v)
    case Inf(_) => Some(v)
    case NaN => Some(v)
    case Str(s) => (match Strings.ParseFloat(s) case Some(x) => Some(FromFloat(x)) case None => None)
    case _ => None
  }

  /** The strings a bool field reads as True and as False, compared case-insensitively. */
  const TrueWords: seq<string> := ["1", "on", "t", "true", "y", "yes"]
  const FalseWords: seq<string> := ["0", "off", "f", "false", "n", "no"]

  /** A bool field accepts a bool, the numbers 0 and 1, and the words above. */
  function CoerceFlag(v: Value): Option<Value>
  {
    match v
    case Bool(_) => Some(v)
    case Int(i) => if i == 0 || i == 1 then Some(Bool(i == 1)) else None
    case Float(f) => if f == 0.0 || f == 1.0 then Some(Bool(f == 1.0)) else None
    case Str(s) =>
      var l := Strings.Lower(s);
      if l in TrueWords then Some(Bool(true)) else if l in FalseWords then Some(Bool(false)) else None
    case _ => None
  }

  function CoerceInts(items: seq<Value>, acc: seq<Value>): Option<Value>
    decreases |items|
  {
    if items == [] then Some(List(acc))
    else match CoerceInt(items[0])
      case Some(x) => CoerceInts(items[1..], acc + [x])
      case None => None
  }

  function Magnitude(v: Value): real
  {
    match v
    case Int(i) => i as real
    case Float(f) => f
    case _ => 0.0
  }

  /**
   * The `ge`/`le` bounds: an infinity fails the bound on its side, and nan
   * fails every comparison.
   */
  predicate WithinBounds(f: Field, v: Value)
  {
    match v
    case NaN => f.lo.None? && f.hi.None?
    case Inf(negative) => (negative ==> f.lo.None?) && (!negative ==> f.hi.None?)
    case _ => (f.lo.Some? ==> Magnitude(v) >= f.lo.value) && (f.hi.Some? ==> Magnitude(v) <= f.hi.value)
  }

  /** The value a set field validates to: `None` on a type or bound error. */
  function Check(f: Field, v: Value): (r: Option<Value>)
    ensures r.Some? && f.kind.Choice? ==> r.value == v
    ensures r.Some? && v != Null ==> WithinBounds(f, r.value)
  {
    if v == Null then (if f.nullable then Some(Null) else None)
    else match Coerce(f.kind, v)
      case Some(c) => if WithinBounds(f, c) then Some(c) else None
      case None => None
  }

  /** A field is acceptable: set and well-typed within bounds, or unset and not required. */
  predicate FieldOk(f: Field, data: Dict)
  {
    match Get(data, f.name)
    case Some(v) => Check(f, v).Some?
    case None => !f.required
  }

  /**
   * Validation of `data` against `fields`: the dump holds exactly the declared
   * fields that `data` sets, each with its checked value.
   */
  function Validate(fields: seq<Field>, data: Dict): (r: Result<Dict>)
    requires UniqueNames(fields)
    ensures r.Ok? <==> forall i :: 0 <= i < |fields| ==> FieldOk(fields[i], data)
    ensures r.Ok? ==> forall k :: HasKey(r.value, k) ==> HasKey(data, k) && k in Names(fields)
    ensures r.Ok? ==> forall i :: 0 <= i < |fields| && HasKey(data, fields[i].name) ==>
      Get(r.value, fields[i].name) == Check(fields[i], Get(data, fields[i].name).value)
  {
    if fields == [] then Ok([])
    else
      var f := fields[0];
      assert UniqueNames(fields[1..]);
      var rest := Validate(fields[1..], data);
      match Get(data, f.name)
      case None =>
        if f.required then Err("Field required: " + f.name) else rest
      case Some(v) =>
        match Check(f, v)
        case None => Err("Invalid value for " + f.name)
        case Some(c) =>
          if rest.Err? then rest
          else
            assert f.name !in Names(fields[1..]);
            Ok([(f.name, c)] + rest.value)
  }

  /** The error a field that does not accept `data` reports. */
  function FieldError(f: Field, data: Dict): string
  {
    if HasKey(data, f.name) then "Invalid value for " + f.name else "Field required: " + f.name
  }

  /** Validation reports the first field, in declaration order, that does not accept the data. */
  lemma {:induction false} ValidateFirstError(fields: seq<Field>, data: Dict, i: nat)
    requires UniqueNames(fields)
    requires i < |fields| && !FieldOk(fields[i], data)
    requires forall j :: 0 <= j < i ==> FieldOk(fields[j], data)
    ensures Validate(fields, data) == Err(FieldError(fields[i], data))
  {
    assert UniqueNames(fields[1..]);
    if i > 0 {
      ValidateFirstError(fields[1..], data, i - 1);
    }
  }

  /** The attribute value of a validated model: the dumped value, or the declared default. */
  function Attribute(f: Field, dump: Dict): Value
  {
    GetOr(dump, f.name, f.default)
  }

  // ---------------------------------------------------------------------
  // Properties of the declared models

  lemma ModelsHaveUniqueNames()
    ensures UniqueNames(PodcastFeedRequest) && UniqueNames(EpisodeSummaryRequest)
    ensures UniqueNames(PodcastUpsertRequest) && UniqueNames(UserEmailRequest)
    ensures UniqueNames(EpisodeEmailRequest)
  {
    FeedNamesUnique();
    SummaryNamesUnique();
  }

  lemma FeedNamesUnique()
    ensures UniqueNames(PodcastFeedRequest)
  {
  }

  lemma SummaryNamesUnique()
    ensures UniqueNames(EpisodeSummaryRequest)
  {
  }

  /** `target_path` is routing information, never a declared field, so it is never dumped. */
  lemma NoModelDeclaresTargetPath()
    ensures "target_path" !in Names(PodcastFeedRequest)
    ensures "target_path" !in Names(EpisodeSummaryRequest)
    ensures "target_path" !in Names(PodcastUpsertRequest)
    ensures "target_path" !in Names(UserEmailRequest)
    ensures "target_path" !in Names(EpisodeEmailRequest)
  {
    assert "target_path"[1] != "temperature"[1];
    NameAbsent(PodcastFeedRequest, "target_path");
    NameAbsent(EpisodeSummaryRequest, "target_path");
    NameAbsent(PodcastUpsertRequest, "target_path");
    NameAbsent(UserEmailRequest, "target_path");
    NameAbsent(EpisodeEmailRequest, "target_path");
  }

  lemma NameAbsent(fields: seq<Field>, x: string)
    requires forall i :: 0 <= i < |fields| ==> fields[i].name != x
    ensures x !in Names(fields)
  {
  }

  /** A minimal summary request: the episode id and one more field. */
  function SummaryWith(episodeId: string, key: string, v: Value): Dict
  {
    [("episode_id", Str(episodeId)), (key, v)]
  }

  /**
   * Validation succeeds iff field `j` is acceptable, when every other field
   * is acceptable already.
   */
  lemma OneFieldDecides(fields: seq<Field>, data: Dict, j: nat)
    requires UniqueNames(fields) && j < |fields|
    requires forall i :: 0 <= i < |fields| && i != j ==> FieldOk(fields[i], data)
    ensures Validate(fields, data).Ok? <==> FieldOk(fields[j], data)
  {
  }

  /** A summary request setting the episode id and one optional field `j` satisfies every other field. */
  lemma SummaryOthersOk(episodeId: string, j: nat, key: string, v: Value)
    requires 3 <= j < |EpisodeSummaryRequest| && key == EpisodeSummaryRequest[j].name
    ensures forall i :: 0 <= i < |EpisodeSummaryRequest| && i != j ==>
      FieldOk(EpisodeSummaryRequest[i], SummaryWith(episodeId, key, v))
  {
    var fields := EpisodeSummaryRequest;
    var data := SummaryWith(episodeId, key, v);
    SummaryNamesUnique();
    forall i | 0 <= i < |fields| && i != j
      ensures FieldOk(fields[i], data)
    {
      if i == 0 {
        assert Get(data, "episode_id") == Some(Str(episodeId));
      } else {
        assert fields[i].name != "episode_id" && fields[i].name != key;
        assert Get(data, fields[i].name) == None;
      }
    }
  }

  /** A field that `data` sets to a non-null value is acceptable iff the value coerces within bounds. */
  lemma SetFieldOk(f: Field, data: Dict, v: Value)
    requires Get(data, f.name) == Some(v) && v != Null
    ensures FieldOk(f, data) <==> Coerce(f.kind, v).Some? && WithinBounds(f, Coerce(f.kind, v).value)
  {
  }

  /** A choice field without bounds that `data` sets to a string accepts exactly its names. */
  lemma ChoiceFieldOk(f: Field, data: Dict, s: string)
    requires f.kind.Choice? && f.lo.None? && f.hi.None? && Get(data, f.name) == Some(Str(s))
    ensures FieldOk(f, data) <==> s in f.kind.names
  {
    SetFieldOk(f, data, Str(s));
  }

  /** Validation of a summary request setting only the episode id and field `j` is decided by field `j`. */
  lemma SummaryDecidedBy(episodeId: string, j: nat, key: string, v: Value)
    requires 3 <= j < |EpisodeSummaryRequest| && key == EpisodeSummaryRequest[j].name
    ensures UniqueNames(EpisodeSummaryRequest)
    ensures Validate(EpisodeSummaryRequest, SummaryWith(episodeId, key, v)).Ok?
      <==> FieldOk(EpisodeSummaryRequest[j], SummaryWith(episodeId, key, v))
  {
    SummaryNamesUnique();
    SummaryOthersOk(episodeId, j, key, v);
    OneFieldDecides(EpisodeSummaryRequest, SummaryWith(episodeId, key, v), j);
  }

  /** The field set by `SummaryWith` is found under its key. */
  lemma SummaryWithGet(episodeId: string, key: string, v: Value)
    requires key != "episode_id"
    ensures Get(SummaryWith(episodeId, key, v), key) == Some(v)
  {
  }

  /** `chunk_size` is accepted iff 500 <= x <= 8000. */
  lemma ChunkSizeBounds(episodeId: string, x: int)
    ensures UniqueNames(EpisodeSummaryRequest)
    ensures Validate(EpisodeSummaryRequest, SummaryWith(episodeId, "chunk_size", Int(x))).Ok?
      <==> 500 <= x <= 8000
  {
    SummaryDecidedBy(episodeId, 3, "chunk_size", Int(x));
    SummaryWithGet(episodeId, "chunk_size", Int(x));
    SetFieldOk(EpisodeSummaryRequest[3], SummaryWith(episodeId, "chunk_size", Int(x)), Int(x));
  }

  /** `chunk_overlap` is accepted iff 0 <= x <= 1000. */
  lemma ChunkOverlapBounds(episodeId: string, x: int)
    ensures UniqueNames(EpisodeSummaryRequest)
    ensures Validate(EpisodeSummaryRequest, SummaryWith(episodeId, "chunk_overlap", Int(x))).Ok?
      <==> 0 <= x <= 1000
  {
    SummaryDecidedBy(episodeId, 4, "chunk_overlap", Int(x));
    SummaryWithGet(episodeId, "chunk_overlap", Int(x));
    SetFieldOk(EpisodeSummaryRequest[4], SummaryWith(episodeId, "chunk_overlap", Int(x)), Int(x));
  }

  /** `temperature` is accepted iff 0.0 <= t <= 1.0. */
  lemma TemperatureBounds(episodeId: string, t: real)
    ensures UniqueNames(EpisodeSummaryRequest)
    ensures Validate(EpisodeSummaryRequest, SummaryWith(episodeId, "temperature", Float(t))).Ok?
      <==> 0.0 <= t <= 1.0
  {
    SummaryDecidedBy(episodeId, 7, "temperature", Float(t));
    SummaryWithGet(episodeId, "temperature", Float(t));
    SetFieldOk(EpisodeSummaryRequest[7], SummaryWith(episodeId, "temperature", Float(t)), Float(t));
  }

  /** An infinite or nan temperature fails the bounds, whichever side it lies on. */
  lemma TemperatureNonFinite(episodeId: string, v: Value)
    requires v.Inf? || v.NaN?
    ensures UniqueNames(EpisodeSummaryRequest)
    ensures Validate(EpisodeSummaryRequest, SummaryWith(episodeId, "temperature", v)).Err?
  {
    SummaryDecidedBy(episodeId, 7, "temperature", v);
    SummaryWithGet(episodeId, "temperature", v);
    SetFieldOk(EpisodeSummaryRequest[7], SummaryWith(episodeId, "temperature", v), v);
  }

  /** Lax numbers: a bool is 0 or 1, and a float string may carry an exponent. */
  lemma LaxNumbers()
    ensures Coerce(Integer, Bool(true)) == Some(Int(1))
    ensures Coerce(Number, Bool(false)) == Some(Float(0.0))
    ensures Coerce(Number, Str("25E-1")) == Some(Float(2.5))
    ensures Coerce(Integer, Inf(false)) == None
  {
    ExponentNumber();
  }

  /** "25E-1" in a float field is 2.5. */
  lemma ExponentNumber()
    ensures Coerce(Number, Str("25E-1")) == Some(Float(2.5))
  {
    Strings.ExponentDown();
    FiniteText("25E-1", 2.5);
  }

  /** Text that `float` reads as a finite number fills a float field with that number. */
  lemma FiniteText(s: string, x: real)
    requires Strings.ParseFloat(s) == Some(Strings.Finite(x))
    ensures Coerce(Number, Str(s)) == Some(Float(x))
  {
  }

  /** Lax bools: 0 and 1, and words such as "Yes" and "off"; other numbers are refused. */
  lemma LaxFlags()
    ensures Coerce(Flag, Int(1)) == Some(Bool(true))
    ensures Coerce(Flag, Float(0.0)) == Some(Bool(false))
    ensures Coerce(Flag, Str("Yes")) == Some(Bool(true))
    ensures Coerce(Flag, Str("off")) == Some(Bool(false))
    ensures Coerce(Flag, Int(2)) == None
  {
    assert Strings.Lower("Yes") == "yes";
    assert Strings.Lower("off") == "off";
  }

  /** A feed request with `keep_audio_files` set to "no" validates to False. */
  lemma KeepAudioWord(url: string)
    ensures UniqueNames(PodcastFeedRequest)
    ensures Validate(PodcastFeedRequest, [("feed_url", Str(url)), ("keep_audio_files", Str("no"))]).Ok?
    ensures Get(Validate(PodcastFeedRequest, [("feed_url", Str(url)), ("keep_audio_files", Str("no"))]).value,
                "keep_audio_files") == Some(Bool(false))
  {
    FeedNamesUnique();
    var data: Dict := [("feed_url", Str(url)), ("keep_audio_files", Str("no"))];
    KeepAudioFieldsOk(url);
    assert HasKey(data, PodcastFeedRequest[7].name);
  }

  /** Every field of the feed request accepts `feed_url` and `keep_audio_files` set to "no". */
  lemma KeepAudioFieldsOk(url: string)
    ensures Coerce(Flag, Str("no")) == Some(Bool(false))
    ensures forall i :: 0 <= i < |PodcastFeedRequest| ==>
      FieldOk(PodcastFeedRequest[i], [("feed_url", Str(url)), ("keep_audio_files", Str("no"))])
  {
    var data: Dict := [("feed_url", Str(url)), ("keep_audio_files", Str("no"))];
    assert Strings.Lower("no") == "no";
    assert Coerce(Flag, Str("no")) == Some(Bool(false));
    assert Get(data, "keep_audio_files") == Some(Str("no"));
    assert Get(data, "feed_url") == Some(Str(url));
    forall i | 0 <= i < |PodcastFeedRequest| ensures FieldOk(PodcastFeedRequest[i], data) {
      var f := PodcastFeedRequest[i];
      if i != 0 && i != 7 {
        assert f.name != "feed_url" && f.name != "keep_audio_files";
        assert Get(data, f.name) == None;
      }
    }
  }

  /** `detail_level` accepts exactly the three level names. */
  lemma DetailLevelClosed(episodeId: string, s: string)
    ensures UniqueNames(EpisodeSummaryRequest)
    ensures Validate(EpisodeSummaryRequest, SummaryWith(episodeId, "detail_level", Str(s))).Ok?
      <==> ParseDetailLevel(s).Some?
  {
    SummaryDecidedBy(episodeId, 5, "detail_level", Str(s));
    SummaryWithGet(episodeId, "detail_level", Str(s));
    var f := EpisodeSummaryRequest[5];
    assert f.kind.names == DetailLevelNames;
    ChoiceFieldOk(f, SummaryWith(episodeId, "detail_level", Str(s)), s);
    assert ParseDetailLevel(s).Some? <==> s in DetailLevelNames;
  }

  /** `method` accepts exactly the five method names. */
  lemma MethodClosed(episodeId: string, s: string)
    ensures UniqueNames(EpisodeSummaryRequest)
    ensures Validate(EpisodeSummaryRequest, SummaryWith(episodeId, "method", Str(s))).Ok?
      <==> ParseMethod(s).Some?
  {
    SummaryDecidedBy(episodeId, 6, "method", Str(s));
    SummaryWithGet(episodeId, "method", Str(s));
    var f := EpisodeSummaryRequest[6];
    assert f.kind.names == MethodNames;
    ChoiceFieldOk(f, SummaryWith(episodeId, "method", Str(s)), s);
    assert ParseMethod(s).Some? <==> s in MethodNames;
  }

  /** A feed request that sets only `feed_url` dumps just that key and gets the declared defaults. */
  lemma FeedRequestDefaults(url: string)
    ensures UniqueNames(PodcastFeedRequest)
    ensures Validate(PodcastFeedRequest, [("feed_url", Str(url))]) == Ok([("feed_url", Str(url))])
    ensures Attribute(PodcastFeedRequest[1], [("feed_url", Str(url))]) == Int(25)
    ensures Attribute(PodcastFeedRequest[7], [("feed_url", Str(url))]) == Bool(false)
    ensures Attribute(PodcastFeedRequest[8], [("feed_url", Str(url))]) == Str("auto")
  {
    ModelsHaveUniqueNames();
    assert forall i :: 1 <= i < |PodcastFeedRequest| ==>
      PodcastFeedRequest[i].name != "feed_url" && !PodcastFeedRequest[i].required;
    OnlyFirstSet(PodcastFeedRequest, url);
  }

  /**
   * A request setting only the first field, an unbounded text field, when
   * every other field is optional, dumps just that field.
   */
  lemma {:induction false} OnlyFirstSet(fields: seq<Field>, s: string)
    requires UniqueNames(fields) && fields != []
    requires fields[0].kind == Text && fields[0].lo.None? && fields[0].hi.None?
    requires forall i :: 1 <= i < |fields| ==> fields[i].name != fields[0].name && !fields[i].required
    ensures Validate(fields, [(fields[0].name, Str(s))]) == Ok([(fields[0].name, Str(s))])
  {
    var data: Dict := [(fields[0].name, Str(s))];
    assert Check(fields[0], Str(s)) == Some(Str(s));
    assert UniqueNames(fields[1..]);
    assert forall i :: 0 <= i < |fields| - 1 ==> FieldOk(fields[1..][i], data);
    var rest := Validate(fields[1..], data);
    assert fields[0].name !in Names(fields[1..]);
    NoKeysEmpty(rest.value);
    assert [(fields[0].name, Str(s))] + rest.value == data;
  }

  lemma NoKeysEmpty(d: Dict)
    requires forall k :: !HasKey(d, k)
    ensures d == []
  {
    if d != [] {
      assert HasKey(d, d[0].0);
    }
  }
}
