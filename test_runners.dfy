/**
 * The local and container test runners. Both turn a test type and keyword
 * arguments into an `api_test.py` command line with the same flags in the
 * same order; the container runner wraps free-text values in double quotes
 * and embeds the command in a `docker run`. Both check an env file for the
 * variables the service needs before running anything.
 */
module TestRunners {
  import opened Wrappers
  import opened Json
  import opened Strings

  /** The local runner passes values bare; the container runner quotes free text. */
  datatype Style = Local | Container

  /** The keyword arguments that become `--name value` options. */
  datatype Key =
    | FeedUrl | LimitEpisodes | EpisodeIndices | SplitSizeMb
    | EpisodeId | CustomPrompt | ChunkSize | ChunkOverlap | Method | DetailLevel | Temperature
    | Description | ParserType
    | UserId

  /** The keyword argument's name. */
  function Name(k: Key): string
  {
    match k
    case FeedUrl => "feed_url"
    case LimitEpisodes => "limit_episodes"
    case EpisodeIndices => "episode_indices"
    case SplitSizeMb => "split_size_mb"
    case EpisodeId => "episode_id"
    case CustomPrompt => "custom_prompt"
    case ChunkSize => "chunk_size"
    case ChunkOverlap => "chunk_overlap"
    case Method => "method"
    case DetailLevel => "detail_level"
    case Temperature => "temperature"
    case Description => "description"
    case ParserType => "parser_type"
    case UserId => "user_id"
  }

  /** The option flag for the argument. */
  function Flag(k: Key): string
  {
    match k
    case FeedUrl => "--feed-url"
    case LimitEpisodes => "--limit-episodes"
    case EpisodeIndices => "--episode-indices"
    case SplitSizeMb => "--split-size-mb"
    case EpisodeId => "--episode-id"
    case CustomPrompt => "--custom-prompt"
    case ChunkSize => "--chunk-size"
    case ChunkOverlap => "--chunk-overlap"
    case Method => "--method"
    case DetailLevel => "--detail-level"
    case Temperature => "--temperature"
    case Description => "--description"
    case ParserType => "--parser-type"
    case UserId => "--user-id"
  }

  /** Free-text arguments, which the container runner wraps in double quotes. */
  predicate FreeText(k: Key)
  {
    k in {FeedUrl, EpisodeIndices, EpisodeId, CustomPrompt, Description, UserId}
  }

  /**
   * The keyword arguments the builders read: the options by key, and
   * `include_transcription`. A keyword argument is present iff it is here.
   */
  datatype Kwargs = Kwargs(values: map<Key, Value>, includeTranscription: Option<Value>)

  /** One entry of the `cmd` list: the test switch, the transcription switch, or a flag with its value. */
  datatype Arg = TestSwitch(flag: string) | TranscriptionSwitch | Option(key: Key, value: string)

  /** The test switch for each known test type. */
  function TestFlag(testType: string): Option<string>
  {
    if testType == "process" then Some("--test-process")
    else if testType == "summarize" then Some("--test-summarize")
    else if testType == "upsert" then Some("--test-upsert")
    else if testType == "email" then Some("--test-email")
    else if testType == "episode_email" then Some("--test-episode-email")
    else None
  }

  /** The type-specific options, in the order they are emitted. */
  function TypeKeys(testType: string): seq<Key>
  {
    if testType == "process" then [FeedUrl, LimitEpisodes, EpisodeIndices, SplitSizeMb]
    else if testType == "summarize" then [EpisodeId, CustomPrompt, ChunkSize, ChunkOverlap, Method, DetailLevel, Temperature]
    else if testType == "upsert" then [FeedUrl, Description, ParserType]
    else []
  }

  /** The options every type may carry; summarize has already emitted its episode id. */
  function CommonKeys(testType: string): seq<Key>
  {
    [UserId] + (if testType != "summarize" then [EpisodeId] else [])
  }

  /** `str(value)`, quoted for free text in the container runner. */
  function ValueText(style: Style, k: Key, text: string): string
  {
    if style == Container && FreeText(k) then "\"" + text + "\"" else text
  }

  /** The option for `k` when the keyword argument is present; `render` is Python's `str()`. */
  function OptionFor(kwargs: Kwargs, k: Key, style: Style, render: Value -> string): seq<Arg>
  {
    if k in kwargs.values then [Option(k, ValueText(style, k, render(kwargs.values[k])))] else []
  }

  function Options(kwargs: Kwargs, keys: seq<Key>, style: Style, render: Value -> string): seq<Arg>
  {
    if keys == [] then [] else OptionFor(kwargs, keys[0], style, render) + Options(kwargs, keys[1..], style, render)
  }

  /** `--include-transcription` when the process test's argument is truthy. */
  function TranscriptionFor(testType: string, kwargs: Kwargs): seq<Arg>
  {
    if testType == "process" && kwargs.includeTranscription.Some?
       && Truthy(kwargs.includeTranscription.value)
    then [TranscriptionSwitch] else []
  }

  /** The entries after `python src/api_test.py`, in order. */
  function CommandArgs(testType: string, kwargs: Kwargs, style: Style, render: Value -> string): seq<Arg>
  {
    (match TestFlag(testType) case Some(f) => [TestSwitch(f)] case None => [])
      + Options(kwargs, TypeKeys(testType), style, render)
      + TranscriptionFor(testType, kwargs)
      + Options(kwargs, CommonKeys(testType), style, render)
  }

  function Tokens(args: seq<Arg>): seq<string>
  {
    if args == [] then []
    else
      var first := match args[0]
        case TestSwitch(f) => [f]
        case TranscriptionSwitch => ["--include-transcription"]
        case Option(k, v) => [Flag(k), v];
      first + Tokens(args[1..])
  }

  /** `build_command` (local) and `build_api_test_command` (container). */
  function CommandLine(testType: string, kwargs: Kwargs, style: Style, render: Value -> string): string
  {
    Join(["python", "src/api_test.py"] + Tokens(CommandArgs(testType, kwargs, style, render)), " ")
  }

  /** Adding one more key's option at the end. */
  lemma {:induction false} OptionsSnoc(kwargs: Kwargs, keys: seq<Key>, k: Key, style: Style, render: Value -> string)
    ensures Options(kwargs, keys + [k], style, render) == Options(kwargs, keys, style, render) + OptionFor(kwargs, k, style, render)
  {
    if keys != [] {
      assert (keys + [k])[1..] == keys[1..] + [k];
      OptionsSnoc(kwargs, keys[1..], k, style, render);
    } else {
      assert [k][1..] == [];
    }
  }

  /**
   * `if key in kwargs: cmd.extend([flag, value])`. The ghost arguments say
   * which options are already in the list after `head`.
   */
  method AddOption(args: seq<Arg>, kwargs: Kwargs, k: Key, style: Style, render: Value -> string,
                   ghost head: seq<Arg>, ghost used: seq<Key>)
    returns (args': seq<Arg>)
    requires args == head + Options(kwargs, used, style, render)
    ensures args' == head + Options(kwargs, used + [k], style, render)
  {
    OptionsSnoc(kwargs, used, k, style, render);
    args' := args;
    if k in kwargs.values {
      args' := args' + [Option(k, ValueText(style, k, render(kwargs.values[k])))];
    }
  }

  /** The process block of `build_command`. */
  method ProcessArgs(kwargs: Kwargs, style: Style, render: Value -> string) returns (args: seq<Arg>)
    ensures args == [TestSwitch("--test-process")] + Options(kwargs, TypeKeys("process"), style, render)
                    + TranscriptionFor("process", kwargs)
  {
    args := [TestSwitch("--test-process")];
    ghost var h, used := args, [];
    args := AddOption(args, kwargs, FeedUrl, style, render, h, used);
    used := used + [FeedUrl];
    args := AddOption(args, kwargs, LimitEpisodes, style, render, h, used);
    used := used + [LimitEpisodes];
    args := AddOption(args, kwargs, EpisodeIndices, style, render, h, used);
    used := used + [EpisodeIndices];
    args := AddOption(args, kwargs, SplitSizeMb, style, render, h, used);
    used := used + [SplitSizeMb];
    assert used == TypeKeys("process");
    if kwargs.includeTranscription.Some? {
      if Truthy(kwargs.includeTranscription.value) {
        args := args + [TranscriptionSwitch];
      }
    }
  }

  /** The summarize block of `build_command`. */
  method SummarizeArgs(kwargs: Kwargs, style: Style, render: Value -> string) returns (args: seq<Arg>)
    ensures args == [TestSwitch("--test-summarize")] + Options(kwargs, TypeKeys("summarize"), style, render)
  {
    args := [TestSwitch("--test-summarize")];
    ghost var h, used := args, [];
    args := AddOption(args, kwargs, EpisodeId, style, render, h, used);
    used := used + [EpisodeId];
    args := AddOption(args, kwargs, CustomPrompt, style, render, h, used);
    used := used + [CustomPrompt];
    args := AddOption(args, kwargs, ChunkSize, style, render, h, used);
    used := used + [ChunkSize];
    args := AddOption(args, kwargs, ChunkOverlap, style, render, h, used);
    used := used + [ChunkOverlap];
    args := AddOption(args, kwargs, Method, style, render, h, used);
    used := used + [Method];
    args := AddOption(args, kwargs, DetailLevel, style, render, h, used);
    used := used + [DetailLevel];
    args := AddOption(args, kwargs, Temperature, style, render, h, used);
    used := used + [Temperature];
    SummarizeKeys(used);
  }

  /** The keys the summarize block adds, in order. */
  lemma SummarizeKeys(used: seq<Key>)
    requires used == [] + [EpisodeId] + [CustomPrompt] + [ChunkSize] + [ChunkOverlap] + [Method] + [DetailLevel] + [Temperature]
    ensures used == TypeKeys("summarize")
  {
  }

  /** The upsert block of `build_command`. */
  method UpsertArgs(kwargs: Kwargs, style: Style, render: Value -> string) returns (args: seq<Arg>)
    ensures args == [TestSwitch("--test-upsert")] + Options(kwargs, TypeKeys("upsert"), style, render)
  {
    args := [TestSwitch("--test-upsert")];
    ghost var h, used := args, [];
    args := AddOption(args, kwargs, FeedUrl, style, render, h, used);
    used := used + [FeedUrl];
    args := AddOption(args, kwargs, Description, style, render, h, used);
    used := used + [Description];
    args := AddOption(args, kwargs, ParserType, style, render, h, used);
    used := used + [ParserType];
    assert used == TypeKeys("upsert");
  }

  /** The test switch and the type-specific block of `build_command`. */
  method TypedArgs(testType: string, kwargs: Kwargs, style: Style, render: Value -> string) returns (args: seq<Arg>)
    ensures args == (match TestFlag(testType) case Some(f) => [TestSwitch(f)] case None => [])
                    + Options(kwargs, TypeKeys(testType), style, render)
                    + TranscriptionFor(testType, kwargs)
  {
    args := [];
    if testType == "process" {
      args := ProcessArgs(kwargs, style, render);
    } else if testType == "summarize" {
      args := SummarizeArgs(kwargs, style, render);
    } else if testType == "upsert" {
      args := UpsertArgs(kwargs, style, render);
    } else if testType == "email" {
      args := args + [TestSwitch("--test-email")];
    } else if testType == "episode_email" {
      args := args + [TestSwitch("--test-episode-email")];
    }
  }

  method BuildCommand(testType: string, kwargs: Kwargs, style: Style, render: Value -> string)
    returns (command: string)
    ensures command == CommandLine(testType, kwargs, style, render)
  {
    var args := TypedArgs(testType, kwargs, style, render);
    ghost var typed := args;
    args := AddOption(args, kwargs, UserId, style, render, typed, []);
    if testType != "summarize" {
      // the presence check of `"episode_id" in kwargs` is AddOption's own
      args := AddOption(args, kwargs, EpisodeId, style, render, typed, [UserId]);
    }
    assert args == typed + Options(kwargs, CommonKeys(testType), style, render);
    command := Join(["python", "src/api_test.py"] + Tokens(args), " ");
  }

  // ---------------------------------------------------------------------
  // Properties of the command

  /** The command always starts with the interpreter and the script. */
  lemma CommandStartsWithScript(testType: string, kwargs: Kwargs, style: Style, render: Value -> string)
    ensures StartsWith(CommandLine(testType, kwargs, style, render), "python src/api_test.py")
  {
    ScriptPrefix(Tokens(CommandArgs(testType, kwargs, style, render)));
  }

  lemma ScriptPrefix(t: seq<string>)
    ensures StartsWith(Join(["python", "src/api_test.py"] + t, " "), "python src/api_test.py")
  {
    var parts := ["python", "src/api_test.py"] + t;
    assert parts[1..] == ["src/api_test.py"] + t;
    var rest := Join(parts[1..], " ");
    JoinStartsWith(parts[1..], " ");
    assert Join(parts, " ") == "python " + rest;
    assert rest[..15] == "src/api_test.py";
    assert ("python " + rest)[..22] == "python " + rest[..15];
  }

  /** An option is emitted iff its key is among `keys` and the argument is present; its value is the rendered argument. */
  lemma {:induction false} OptionsMembers(kwargs: Kwargs, keys: seq<Key>, style: Style, render: Value -> string, a: Arg)
    ensures a in Options(kwargs, keys, style, render) <==>
      a.Option? && a.key in keys && a.key in kwargs.values
      && a.value == ValueText(style, a.key, render(kwargs.values[a.key]))
  {
    if keys != [] {
      OptionsMembers(kwargs, keys[1..], style, render, a);
      assert keys == [keys[0]] + keys[1..];
    }
  }

  /** With distinct keys, each option occurs at most once. */
  lemma {:induction false} OptionsOnce(kwargs: Kwargs, keys: seq<Key>, style: Style, render: Value -> string, i: int, j: int)
    requires forall p, q :: 0 <= p < q < |keys| ==> keys[p] != keys[q]
    requires var r := Options(kwargs, keys, style, render);
      0 <= i < |r| && 0 <= j < |r| && r[i].Option? && r[j].Option? && r[i].key == r[j].key
    ensures i == j
  {
    var head := OptionFor(kwargs, keys[0], style, render);
    var tail := Options(kwargs, keys[1..], style, render);
    var r := head + tail;
    assert Options(kwargs, keys, style, render) == r;
    if |head| == 1 {
      if i == 0 && j > 0 {
        OptionsMembers(kwargs, keys[1..], style, render, r[j]);
        assert false;
      } else if j == 0 && i > 0 {
        OptionsMembers(kwargs, keys[1..], style, render, r[i]);
        assert false;
      } else if i > 0 && j > 0 {
        assert r[i] == tail[i - 1] && r[j] == tail[j - 1];
        OptionsOnce(kwargs, keys[1..], style, render, i - 1, j - 1);
      }
    } else {
      assert r == tail;
      OptionsOnce(kwargs, keys[1..], style, render, i, j);
    }
  }

  predicate IsTestSwitch(a: Arg) { a.TestSwitch? }

  /** A known test type emits its switch first and no other; an unknown type emits none. */
  lemma TestSwitchUnique(testType: string, kwargs: Kwargs, style: Style, render: Value -> string)
    ensures var args := CommandArgs(testType, kwargs, style, render);
      (TestFlag(testType).Some? ==>
         args != [] && args[0] == TestSwitch(TestFlag(testType).value)
         && forall i :: 0 < i < |args| ==> !IsTestSwitch(args[i])) &&
      (TestFlag(testType).None? ==> forall i :: 0 <= i < |args| ==> !IsTestSwitch(args[i]))
  {
    var args := CommandArgs(testType, kwargs, style, render);
    var head := match TestFlag(testType) case Some(f) => [TestSwitch(f)] case None => [];
    var rest := Options(kwargs, TypeKeys(testType), style, render)
      + TranscriptionFor(testType, kwargs)
      + Options(kwargs, CommonKeys(testType), style, render);
    assert args == head + rest;
    forall i | 0 <= i < |rest| ensures !IsTestSwitch(rest[i]) {
      OptionsMembers(kwargs, TypeKeys(testType), style, render, rest[i]);
      OptionsMembers(kwargs, CommonKeys(testType), style, render, rest[i]);
    }
  }

  /**
   * A type-specific option is emitted iff the type uses it and the argument
   * is present, with the rendered value (quoted in the container runner for
   * free text only).
   */
  lemma TypeOptionRule(testType: string, kwargs: Kwargs, style: Style, render: Value -> string, k: Key, text: string)
    requires k != UserId && k != EpisodeId
    ensures Option(k, text) in CommandArgs(testType, kwargs, style, render) <==>
      k in TypeKeys(testType) && k in kwargs.values &&
      text == (if style == Container && FreeText(k) then "\"" + render(kwargs.values[k]) + "\""
               else render(kwargs.values[k]))
  {
    OptionsMembers(kwargs, TypeKeys(testType), style, render, Option(k, text));
    OptionsMembers(kwargs, CommonKeys(testType), style, render, Option(k, text));
  }

  /** `--include-transcription` appears iff the process test's argument is present and truthy. */
  lemma TranscriptionRule(testType: string, kwargs: Kwargs, style: Style, render: Value -> string)
    ensures TranscriptionSwitch in CommandArgs(testType, kwargs, style, render) <==>
      testType == "process" && kwargs.includeTranscription.Some?
      && Truthy(kwargs.includeTranscription.value)
  {
    OptionsMembers(kwargs, TypeKeys(testType), style, render, TranscriptionSwitch);
    OptionsMembers(kwargs, CommonKeys(testType), style, render, TranscriptionSwitch);
  }

  /** Entry `i` is an `--episode-id` option. */
  predicate EpisodeIdAt(args: seq<Arg>, i: int)
  {
    0 <= i < |args| && args[i].Option? && args[i].key == EpisodeId
  }

  /** The segments of the entry list: test switch, type options, transcription switch, common options. */
  lemma Segments(testType: string, kwargs: Kwargs, style: Style, render: Value -> string)
    returns (head: seq<Arg>, a: seq<Arg>, t: seq<Arg>, c: seq<Arg>)
    ensures CommandArgs(testType, kwargs, style, render) == head + a + t + c
    ensures a == Options(kwargs, TypeKeys(testType), style, render)
    ensures c == Options(kwargs, CommonKeys(testType), style, render)
    ensures |head| == (if TestFlag(testType).Some? then 1 else 0) && |t| <= 1
    ensures forall x :: x in head + t ==> !x.Option?
  {
    head := match TestFlag(testType) case Some(f) => [TestSwitch(f)] case None => [];
    a := Options(kwargs, TypeKeys(testType), style, render);
    t := TranscriptionFor(testType, kwargs);
    c := Options(kwargs, CommonKeys(testType), style, render);
  }

  /** `--episode-id` appears exactly when the argument is present, whatever the test type. */
  lemma EpisodeIdPresent(testType: string, kwargs: Kwargs, style: Style, render: Value -> string)
    ensures var args := CommandArgs(testType, kwargs, style, render);
      (exists i :: EpisodeIdAt(args, i)) <==> EpisodeId in kwargs.values
  {
    var head, a, t, c := Segments(testType, kwargs, style, render);
    EpisodeIdInSegments(head, a, t, c);
    OptionsEpisodeId(kwargs, TypeKeys(testType), style, render);
    OptionsEpisodeId(kwargs, CommonKeys(testType), style, render);
    EpisodeIdKeyed(testType);
  }

  /** Summarize lists the episode id among its own options; every other type among the common ones. */
  lemma EpisodeIdKeyed(testType: string)
    ensures EpisodeId in TypeKeys(testType) <==> testType == "summarize"
    ensures EpisodeId in CommonKeys(testType) <==> testType != "summarize"
  {
  }

  /** An `--episode-id` entry of the whole list sits in the type options or the common options. */
  lemma EpisodeIdInSegments(head: seq<Arg>, a: seq<Arg>, t: seq<Arg>, c: seq<Arg>)
    requires forall x :: x in head + t ==> !x.Option?
    ensures (exists i :: EpisodeIdAt(head + a + t + c, i)) <==> (exists p :: EpisodeIdAt(a, p)) || (exists p :: EpisodeIdAt(c, p))
  {
    var args := head + a + t + c;
    if exists p :: EpisodeIdAt(a, p) {
      var p :| EpisodeIdAt(a, p);
      assert args[|head| + p] == a[p];
      assert EpisodeIdAt(args, |head| + p);
    }
    if exists p :: EpisodeIdAt(c, p) {
      var p :| EpisodeIdAt(c, p);
      assert args[|head| + |a| + |t| + p] == c[p];
      assert EpisodeIdAt(args, |head| + |a| + |t| + p);
    }
    if exists i :: EpisodeIdAt(args, i) {
      var i :| EpisodeIdAt(args, i);
      if |head| <= i < |head| + |a| {
        assert EpisodeIdAt(a, i - |head|);
      } else if |head| + |a| + |t| <= i {
        assert EpisodeIdAt(c, i - |head| - |a| - |t|);
      }
    }
  }

  /** The options for `keys` hold an `--episode-id` entry exactly when that key is listed and given. */
  lemma OptionsEpisodeId(kwargs: Kwargs, keys: seq<Key>, style: Style, render: Value -> string)
    ensures (exists p :: EpisodeIdAt(Options(kwargs, keys, style, render), p)) <==> EpisodeId in keys && EpisodeId in kwargs.values
  {
    var r := Options(kwargs, keys, style, render);
    if EpisodeId in keys && EpisodeId in kwargs.values {
      var eid := Option(EpisodeId, ValueText(style, EpisodeId, render(kwargs.values[EpisodeId])));
      OptionsMembers(kwargs, keys, style, render, eid);
      var p :| 0 <= p < |r| && r[p] == eid;
      assert EpisodeIdAt(r, p);
    }
    if exists p :: EpisodeIdAt(r, p) {
      var p :| EpisodeIdAt(r, p);
      OptionsMembers(kwargs, keys, style, render, r[p]);
    }
  }

  /** Where an `--episode-id` entry can sit: among summarize's options, or among the common ones. */
  lemma EpisodeIdWhere(testType: string, kwargs: Kwargs, style: Style, render: Value -> string, i: int)
    returns (k: int)
    requires EpisodeIdAt(CommandArgs(testType, kwargs, style, render), i)
    ensures var keys := if testType == "summarize" then TypeKeys(testType) else CommonKeys(testType);
      var r := Options(kwargs, keys, style, render);
      0 <= k < |r| && r[k] == CommandArgs(testType, kwargs, style, render)[i]
      && i == k + (if testType == "summarize" then (if TestFlag(testType).Some? then 1 else 0)
                   else |CommandArgs(testType, kwargs, style, render)| - |r|)
  {
    var head, a, t, c := Segments(testType, kwargs, style, render);
    var inA;
    inA, k := SegmentOf(head, a, t, c, i);
    EpisodeIdKeyed(testType);
    if inA {
      OptionsMembers(kwargs, TypeKeys(testType), style, render, a[k]);
    } else {
      OptionsMembers(kwargs, CommonKeys(testType), style, render, c[k]);
    }
  }

  /** An `--episode-id` entry of the whole list is the k-th of the type options or of the common options. */
  lemma SegmentOf(head: seq<Arg>, a: seq<Arg>, t: seq<Arg>, c: seq<Arg>, i: int) returns (inA: bool, k: int)
    requires forall x :: x in head + t ==> !x.Option?
    requires EpisodeIdAt(head + a + t + c, i)
    ensures inA ==> 0 <= k < |a| && i == |head| + k && a[k] == (head + a + t + c)[i]
    ensures !inA ==> 0 <= k < |c| && i == |head| + |a| + |t| + k && c[k] == (head + a + t + c)[i]
  {
    if |head| <= i < |head| + |a| {
      inA, k := true, i - |head|;
    } else {
      inA, k := false, i - |head| - |a| - |t|;
    }
  }

  /** No list of options names a key twice. */
  lemma KeysDistinct(testType: string)
    ensures forall p, q :: 0 <= p < q < |TypeKeys(testType)| ==> TypeKeys(testType)[p] != TypeKeys(testType)[q]
    ensures forall p, q :: 0 <= p < q < |CommonKeys(testType)| ==> CommonKeys(testType)[p] != CommonKeys(testType)[q]
  {
  }

  /** `--episode-id` never appears twice. */
  lemma EpisodeIdOnce(testType: string, kwargs: Kwargs, style: Style, render: Value -> string, i: int, j: int)
    requires EpisodeIdAt(CommandArgs(testType, kwargs, style, render), i)
    requires EpisodeIdAt(CommandArgs(testType, kwargs, style, render), j)
    ensures i == j
  {
    var ki := EpisodeIdWhere(testType, kwargs, style, render, i);
    var kj := EpisodeIdWhere(testType, kwargs, style, render, j);
    var keys := if testType == "summarize" then TypeKeys(testType) else CommonKeys(testType);
    KeysDistinct(testType);
    OptionsOnce(kwargs, keys, style, render, ki, kj);
  }

  /** `--user-id` comes after every type-specific option: only `--episode-id` may follow it. */
  lemma UserIdAfterTypeOptions(testType: string, kwargs: Kwargs, style: Style, render: Value -> string)
    requires UserId in kwargs.values
    ensures var args := CommandArgs(testType, kwargs, style, render);
      exists i :: 0 <= i < |args| && args[i].Option? && args[i].key == UserId &&
        forall j :: i < j < |args| ==> args[j].Option? && args[j].key == EpisodeId
  {
    var args := CommandArgs(testType, kwargs, style, render);
    var c := Options(kwargs, CommonKeys(testType), style, render);
    var pre := args[..|args| - |c|];
    assert args == pre + c;
    var u := OptionFor(kwargs, UserId, style, render);
    var e := Options(kwargs, CommonKeys(testType)[1..], style, render);
    assert c == u + e;
    assert |u| == 1;
    var i := |pre|;
    assert args[i] == u[0];
    forall j | i < j < |args| ensures args[j].Option? && args[j].key == EpisodeId {
      assert args[j] == e[j - i - 1];
      OptionsMembers(kwargs, CommonKeys(testType)[1..], style, render, args[j]);
    }
  }

  // ---------------------------------------------------------------------
  // build_docker_command

  /** The words before the env file argument. */
  const DockerRun: string := "docker run -it --rm --env-file "
  /** The image and shell after the env file argument. */
  const ImageShell: string := " podcast_summarizer bash -c "
  /** The server start inside the container, backgrounded. */
  const ServerLaunch: string := "uvicorn src.podcast_summarizer.api.main:app --host 0.0.0.0 --port 80 & "
  /** The pause before the api command runs. */
  const ServerWait: string := "sleep 3 && "

  /** The env path with backslashes turned into '/', quoted when it holds a space. */
  function EnvFileArg(envPath: string): string
  {
    var p := ReplaceChar(envPath, '\\', '/');
    if ' ' in p then "\"" + p + "\"" else p
  }

  /** `build_docker_command`: the space-joined docker invocation, constant words written out. */
  function DockerCommand(apiCmd: string, envPath: string): string
  {
    DockerRun + EnvFileArg(envPath) + ImageShell + ServerLaunch + ServerWait + apiCmd
  }

  /** The env file argument holds no backslash, and is quoted exactly when the path holds a space. */
  lemma EnvFileArgRule(envPath: string)
    ensures '\\' !in EnvFileArg(envPath)
    ensures var q := EnvFileArg(envPath);
      (' ' in envPath <==> (|q| >= 2 && q[0] == '"' && q[|q| - 1] == '"' && q[1..|q| - 1] == ReplaceChar(envPath, '\\', '/')))
  {
    var p := ReplaceChar(envPath, '\\', '/');
    assert ' ' in envPath <==> ' ' in p by {
      if ' ' in envPath {
        var k :| 0 <= k < |envPath| && envPath[k] == ' ';
        assert p[k] == ' ';
      }
      if ' ' in p {
        var k :| 0 <= k < |p| && p[k] == ' ';
        assert envPath[k] == ' ';
      }
    }
    if ' ' in p {
      var q := "\"" + p + "\"";
      assert q[1..|q| - 1] == p;
    }
  }

  /** The docker command starts the server, waits, then runs the api command, which ends it. */
  lemma DockerCommandShape(apiCmd: string, envPath: string)
    ensures var c := DockerCommand(apiCmd, envPath);
      StartsWith(c, DockerRun) &&
      EndsWith(c, ServerWait + apiCmd) &&
      Contains(c, EnvFileArg(envPath))
  {
    var e := EnvFileArg(envPath);
    assert DockerCommand(apiCmd, envPath) == DockerRun + e + (ImageShell + ServerLaunch) + (ServerWait + apiCmd);
    FourPartShape(DockerRun, e, ImageShell + ServerLaunch, ServerWait + apiCmd);
  }

  /** A concatenation starts with its first part, ends with its last and contains its second. */
  lemma FourPartShape(head: string, e: string, mid: string, suffix: string)
    ensures var c := head + e + mid + suffix;
      StartsWith(c, head) && EndsWith(c, suffix) && Contains(c, e)
  {
    var c := head + e + mid + suffix;
    ContainsMiddle(head, e, mid + suffix);
    assert c == head + e + (mid + suffix);
    assert c[..|head|] == head;
    assert c[|c| - |suffix|..] == suffix;
  }

  // ---------------------------------------------------------------------
  // The env-file scan in validate_environment

  const RequiredVars: seq<string> := [
    "WHISPER_API_KEY", "WHISPER_ENDPOINT", "WHISPER_DEPLOYMENT_NAME", "WHISPER_API_VERSION",
    "SUPABASE_URL", "SUPABASE_KEY",
    "DEEPSEEK_API_KEY", "DEEPSEEK_ENDPOINT", "DEEPSEEK_MODEL", "DEEPSEEK_API_VERSION",
    "AZURE_STORAGE_CONNECTION_STRING", "AZURE_STORAGE_CONTAINER_NAME", "AZURECONNECTIONSTRING",
    "SENDER_EMAIL", "RECEIVER_EMAIL",
    "EMBEDDINGS_API_KEY", "EMBEDDINGS_ENDPOINT", "EMBEDDINGS_MODEL"]

  /** A line declares a variable when it has '=' and is not a comment. */
  predicate Declares(line: string)
  {
    '=' in line && !StartsWith(Strip(line), "#")
  }

  /** The stripped text before the first '='. */
  function VarName(line: string): string
  {
    Strip(SplitOn(line, '=')[0])
  }

  /** The name a line declares, if it declares one. */
  function DeclaredName(line: string): Option<string>
  {
    if Declares(line) then Some(VarName(line)) else None
  }

  /** The names `pick` finds in the lines: the scan's set, for `pick` = `DeclaredName`. */
  function Picked(lines: seq<string>, pick: string -> Option<string>): set<string>
  {
    if lines == [] then {}
    else
      var p := pick(lines[|lines| - 1]);
      Picked(lines[..|lines| - 1], pick) + (if p.Some? then {p.value} else {})
  }

  function DeclaredNames(lines: seq<string>): set<string>
  {
    Picked(lines, DeclaredName)
  }

  method ScanEnvFile(lines: seq<string>) returns (found: set<string>)
    ensures found == DeclaredNames(lines)
  {
    found := {};
    for i := 0 to |lines|
      invariant found == Picked(lines[..i], DeclaredName)
    {
      assert lines[..i + 1][..i] == lines[..i];
      var line := lines[i];
      if '=' in line && !StartsWith(Strip(line), "#") {
        found := found + {Strip(SplitOn(line, '=')[0])};
      }
    }
    assert lines[..|lines|] == lines;
  }

  lemma {:induction false} PickedMeaning(lines: seq<string>, pick: string -> Option<string>, name: string)
    ensures name in Picked(lines, pick) <==> exists i :: 0 <= i < |lines| && pick(lines[i]) == Some(name)
  {
    if lines != [] {
      var init := lines[..|lines| - 1];
      PickedMeaning(init, pick, name);
      forall i | 0 <= i < |init| ensures lines[i] == init[i] { }
    }
  }

  /** A name is found iff some line declares it: has '=', is no comment, and names it before the first '='. */
  lemma DeclaredNamesMeaning(lines: seq<string>, name: string)
    ensures name in DeclaredNames(lines) <==>
      exists i :: 0 <= i < |lines| && Declares(lines[i]) && VarName(lines[i]) == name
  {
    PickedMeaning(lines, DeclaredName, name);
  }

  /** The declared name holds no '=' and no surrounding whitespace. */
  lemma VarNameShape(line: string)
    ensures '=' !in VarName(line)
    ensures var n := VarName(line); n == [] || (!IsSpace(n[0]) && !IsSpace(n[|n| - 1]))
  {
    var first := SplitOn(line, '=')[0];
    StripFrame(first);
  }

  /** `[var for var in required if var not in found]`. */
  function Missing(required: seq<string>, found: set<string>): (r: seq<string>)
    ensures forall v :: v in r <==> v in required && v !in found
    ensures |r| <= |required|
  {
    if required == [] then []
    else
      var rest := Missing(required[..|required| - 1], found);
      var v := required[|required| - 1];
      if v !in found then rest + [v] else rest
  }

  /** Missing names keep the order of the required list. */
  lemma {:induction false} MissingInOrder(required: seq<string>, found: set<string>, i: int, j: int)
    requires 0 <= i < j < |Missing(required, found)|
    ensures exists p, q :: 0 <= p < q < |required| && required[p] == Missing(required, found)[i] && required[q] == Missing(required, found)[j]
  {
    var init := required[..|required| - 1];
    var rest := Missing(init, found);
    var v := required[|required| - 1];
    var r := Missing(required, found);
    if v !in found && j == |rest| {
      assert r[i] == rest[i];
      assert r[i] in init;
      var p :| 0 <= p < |init| && init[p] == r[i];
      assert required[p] == r[i] && required[|required| - 1] == r[j];
    } else {
      assert r[i] == rest[i] && r[j] == rest[j];
      MissingInOrder(init, found, i, j);
      var p, q :| 0 <= p < q < |init| && init[p] == rest[i] && init[q] == rest[j];
      assert required[p] == init[p] && required[q] == init[q];
    }
  }

  /** The outcome of `validate_environment`: `(True, None)` or `(False, message)`. */
  datatype EnvCheck = EnvOk | EnvError(message: string)

  /**
   * `validate_environment` of the local runner; `fileExists` and `lines` are
   * what the file system gives for `envPath`.
   */
  function LocalEnvCheck(envPath: string, fileExists: bool, lines: seq<string>): EnvCheck
  {
    if !fileExists then EnvError("Environment file not found at: " + envPath)
    else
      var missing := Missing(RequiredVars, DeclaredNames(lines));
      if missing != [] then EnvError("Missing required variables in .env.example: " + Join(missing, ", "))
      else EnvOk
  }

  /** The container runner's check adds the `docker --version` probe after the scan. */
  function ContainerEnvCheck(envPath: string, fileExists: bool, lines: seq<string>, dockerAvailable: bool): EnvCheck
  {
    match LocalEnvCheck(envPath, fileExists, lines)
    case EnvError(m) => EnvError(m)
    case EnvOk => if dockerAvailable then EnvOk else EnvError("Docker is not available or not running")
  }

  /** The check passes iff the file exists and declares every required variable (and docker answers). */
  lemma EnvCheckPasses(envPath: string, fileExists: bool, lines: seq<string>, dockerAvailable: bool)
    ensures LocalEnvCheck(envPath, fileExists, lines) == EnvOk <==>
      fileExists && forall v :: v in RequiredVars ==> v in DeclaredNames(lines)
    ensures ContainerEnvCheck(envPath, fileExists, lines, dockerAvailable) == EnvOk <==>
      LocalEnvCheck(envPath, fileExists, lines) == EnvOk && dockerAvailable
  {
    var missing := Missing(RequiredVars, DeclaredNames(lines));
    if fileExists && missing != [] {
      assert missing[0] in missing;
    }
  }

  // ---------------------------------------------------------------------
  // run_test of the container runner

  /** What `run_test` does: run a shell command, or return `(False, message)` without running one. */
  datatype RunOutcome = Execute(command: string) | Refuse(message: string)

  /** `run_test`; `check` is the result of `validate_environment`. */
  function ContainerRun(check: EnvCheck, environment: string, testType: string, kwargs: Kwargs,
                        render: Value -> string, envPath: string): RunOutcome
  {
    if check.EnvError? then Refuse(check.message)
    else
      var apiCmd := CommandLine(testType, kwargs, Container, render);
      if environment == "docker" then Execute(DockerCommand(apiCmd, envPath))
      else if environment == "cloud" then Refuse("Cloud container testing not implemented yet")
      else Refuse("Unknown environment: " + environment)
  }

  /**
   * Only a valid environment and "docker" execute anything; what executes is
   * the docker command around the quoted api command.
   */
  lemma ContainerRunExits(check: EnvCheck, environment: string, testType: string, kwargs: Kwargs,
                          render: Value -> string, envPath: string)
    ensures var out := ContainerRun(check, environment, testType, kwargs, render, envPath);
      (out.Execute? <==> check == EnvOk && environment == "docker") &&
      (check.EnvError? ==> out == Refuse(check.message)) &&
      (out.Execute? ==> StartsWith(out.command, "docker run -it --rm --env-file ")
                        && EndsWith(out.command, "sleep 3 && " + CommandLine(testType, kwargs, Container, render))) &&
      (check == EnvOk && environment != "docker" && environment != "cloud" ==>
         out.Refuse? && StartsWith(out.message, "Unknown environment: "))
  {
    DockerCommandShape(CommandLine(testType, kwargs, Container, render), envPath);
    var m := "Unknown environment: " + environment;
    assert m[..|"Unknown environment: "|] == "Unknown environment: ";
  }
}
