/**
 * The test tooling's request builder and command builder. A request payload
 * is built from the test type and the text of each enabled parameter: the
 * target path, each value coerced to int, float or bool where it parses, the
 * defaults of the process test, then any extra JSON merged over it. The
 * command builder joins `--name value` flags behind `python src/api_test.py`,
 * wrapped in a `docker run` unless the environment is the local source tree.
 */
module CommandProcessor {
  import opened Wrappers
  import opened Json
  import opened Strings

  /** `TARGET_PATH_MAP`. */
  const TargetPathMap: map<string, string> := map[
    "upsert" := "/upsert-podcast",
    "process" := "/process-podcast",
    "summarize" := "/summarize-episode",
    "email" := "/send-user-emails",
    "episode_email" := "/send-episode-summary"]

  /** The parameter fields, name and text, in the order the dict holds them. */
  type Params = seq<(string, string)>

  /** `params.get(key)`: the value stored last under `key`. */
  function Lookup(params: Params, key: string): (r: Option<string>)
    ensures r.Some? ==> (key, r.value) in params
    ensures r.None? ==> forall k :: 0 <= k < |params| ==> params[k].0 != key
  {
    if params == [] then None
    else if params[|params| - 1].0 == key then Some(params[|params| - 1].1)
    else Lookup(params[..|params| - 1], key)
  }

  function LookupOr(params: Params, key: string, default: string): string
  {
    match Lookup(params, key)
    case Some(v) => v
    case None => default
  }

  predicate IsEmailType(testType: string)
  {
    testType == "email" || testType == "episode_email"
  }

  /** The target path: ids in the path for the email types, else the mapped path or `None`. */
  function TargetPath(testType: string, params: Params): Value
  {
    var uid := Strip(LookupOr(params, "user_id", ""));
    if testType == "email" then Str("/send-user-emails/" + uid)
    else if testType == "episode_email" then
      Str("/send-episode-summary/" + uid + "/" + Strip(LookupOr(params, "episode_id", "")))
    else if testType in TargetPathMap then Str(TargetPathMap[testType])
    else Null
  }

  /**
   * `int(value)`, else `float(value)` (which also reads "inf", "infinity"
   * and "nan"), else "true"/"false" in any case as a bool, else the text.
   */
  function Coerce(value: string): Value
  {
    match ParseInt(value)
    case Some(n) => Int(n)
    case None =>
      match ParseFloat(value)
      case Some(f) => FromFloat(f)
      case None =>
        if Lower(value) == "true" then Bool(true)
        else if Lower(value) == "false" then Bool(false)
        else Str(value)
  }

  /** The email types carry the ids in the path, so those keys are not copied. */
  predicate Skipped(testType: string, key: string)
  {
    IsEmailType(testType) && (key == "user_id" || key == "episode_id")
  }

  /** `payload` after the parameter loop. */
  function AddParams(payload: Dict, testType: string, params: Params): Dict
  {
    if params == [] then payload
    else
      var d := AddParams(payload, testType, params[..|params| - 1]);
      var (key, value) := params[|params| - 1];
      if Skipped(testType, key) then d else Put(d, key, Coerce(value))
  }

  /** The process test always sends `include_transcription` and `split_size_mb`. */
  function ProcessDefaults(payload: Dict, testType: string): Dict
  {
    if testType != "process" then payload
    else
      var d := if HasKey(payload, "include_transcription") then payload
               else Put(payload, "include_transcription", Bool(true));
      if HasKey(d, "split_size_mb") then d else Put(d, "split_size_mb", Float(25.0))
  }

  /** What `json.loads` returns holds a dict with distinct keys whenever it is a dict. */
  predicate WellFormedJson(parsed: Option<Value>)
  {
    parsed.Some? && parsed.value.Obj? ==> KeysUnique(parsed.value.fields)
  }

  /**
   * `build_request_payload`; `parsed` is what `json.loads(extra)` gives
   * (`None` for a decode error, which is ignored). The decoded value is
   * merged with `dict.update`, whose `TypeError` or `ValueError` the function
   * does not catch: that is the `Err`.
   */
  function Payload(testType: string, params: Params, extra: string, parsed: Option<Value>): Result<Dict>
    requires WellFormedJson(parsed)
  {
    var base := Put([], "target_path", TargetPath(testType, params));
    var d := ProcessDefaults(AddParams(base, testType, params), testType);
    if extra == [] then Ok(d)
    else match parsed
      case None => Ok(d)
      case Some(v) => UpdateWith(d, v)
  }

  method AddParamsLoop(payload: Dict, testType: string, params: Params) returns (d: Dict)
    ensures d == AddParams(payload, testType, params)
  {
    d := payload;
    for i := 0 to |params|
      invariant d == AddParams(payload, testType, params[..i])
    {
      assert params[..i + 1][..i] == params[..i];
      var (key, value) := params[i];
      if !(IsEmailType(testType) && (key == "user_id" || key == "episode_id")) {
        d := Put(d, key, Coerce(value));
      }
    }
    assert params[..|params|] == params;
  }

  /** The defaults block for the process test. */
  method AddProcessDefaults(payload: Dict, testType: string) returns (d: Dict)
    ensures d == ProcessDefaults(payload, testType)
  {
    d := payload;
    if testType == "process" {
      if !HasKey(d, "include_transcription") {
        d := Put(d, "include_transcription", Bool(true));
      }
      if !HasKey(d, "split_size_mb") {
        d := Put(d, "split_size_mb", Float(25.0));
      }
    }
  }

  method BuildRequestPayload(testType: string, params: Params, extra: string, parsed: Option<Value>)
    returns (r: Result<Dict>)
    requires WellFormedJson(parsed)
    ensures r == Payload(testType, params, extra, parsed)
  {
    var payload := Put([], "target_path", TargetPath(testType, params));
    payload := AddParamsLoop(payload, testType, params);
    payload := AddProcessDefaults(payload, testType);
    if extra != [] {
      match parsed {
        case None =>
        case Some(v) =>
          var merged := UpdateWith(payload, v);
          if merged.Err? {
            return Err(merged.error);
          }
          payload := merged.value;
      }
    }
    r := Ok(payload);
  }

  // ---------------------------------------------------------------------
  // Payload properties

  /** After the loop, a key holds its parameter's coerced value unless skipped; other keys are untouched. */
  lemma {:induction false} AddParamsGet(payload: Dict, testType: string, params: Params, key: string)
    ensures Get(AddParams(payload, testType, params), key) ==
      if Lookup(params, key).Some? && !Skipped(testType, key) then Some(Coerce(Lookup(params, key).value))
      else Get(payload, key)
  {
    if params != [] {
      AddParamsGet(payload, testType, params[..|params| - 1], key);
    }
  }

  /**
   * Without extra JSON, every parameter that is not an email id reaches the
   * payload coerced, and the email types never copy the ids into the body.
   */
  lemma PayloadValues(testType: string, params: Params, key: string)
    requires key != "target_path" && key != "include_transcription" && key != "split_size_mb"
    ensures var d := Payload(testType, params, "", None).value;
      (Lookup(params, key).Some? && !Skipped(testType, key) ==> Get(d, key) == Some(Coerce(Lookup(params, key).value))) &&
      (Lookup(params, key).None? ==> Get(d, key) == None) &&
      (IsEmailType(testType) && (key == "user_id" || key == "episode_id") ==> Get(d, key) == None)
  {
    var base := Put([], "target_path", TargetPath(testType, params));
    AddParamsGet(base, testType, params, key);
  }

  /** The target path is the one the test type calls for, unless a parameter named `target_path` replaces it. */
  lemma PayloadTargetPath(testType: string, params: Params)
    requires Lookup(params, "target_path").None?
    ensures Get(Payload(testType, params, "", None).value, "target_path") == Some(TargetPath(testType, params))
  {
    var base := Put([], "target_path", TargetPath(testType, params));
    AddParamsGet(base, testType, params, "target_path");
  }

  /**
   * The process test always carries `include_transcription` and
   * `split_size_mb`, True and 25.0 when no parameter gave them.
   */
  lemma ProcessPayloadDefaults(params: Params)
    ensures var d := Payload("process", params, "", None).value;
      HasKey(d, "include_transcription") && HasKey(d, "split_size_mb") &&
      (Lookup(params, "include_transcription").None? ==> Get(d, "include_transcription") == Some(Bool(true))) &&
      (Lookup(params, "split_size_mb").None? ==> Get(d, "split_size_mb") == Some(Float(25.0)))
  {
    var base := Put([], "target_path", TargetPath("process", params));
    AddParamsGet(base, "process", params, "include_transcription");
    AddParamsGet(base, "process", params, "split_size_mb");
  }

  /**
   * Undecodable extra text changes nothing; extra JSON is merged into the
   * payload built without it, by `dict.update`. An object wins over every
   * key it names and leaves the others; a value that is not iterable fails
   * with Python's `TypeError` text.
   */
  lemma ExtraParamsMerge(testType: string, params: Params, extra: string, parsed: Option<Value>)
    requires WellFormedJson(parsed) && extra != []
    ensures parsed.None? ==> Payload(testType, params, extra, parsed) == Payload(testType, params, "", None)
    ensures parsed.Some? ==>
      Payload(testType, params, extra, parsed) == UpdateWith(Payload(testType, params, "", None).value, parsed.value)
    ensures parsed.Some? && parsed.value.Obj? ==>
      Payload(testType, params, extra, parsed).Ok? &&
      (forall k :: HasKey(parsed.value.fields, k) ==>
        Get(Payload(testType, params, extra, parsed).value, k) == Get(parsed.value.fields, k)) &&
      (forall k :: !HasKey(parsed.value.fields, k) ==>
        Get(Payload(testType, params, extra, parsed).value, k) == Get(Payload(testType, params, "", None).value, k))
    ensures parsed.Some? && Iterated(parsed.value).None? ==>
      Payload(testType, params, extra, parsed) == Err("'" + TypeLabel(parsed.value) + "' object is not iterable")
  {
  }

  /**
   * Extra JSON that is a list of pairs, such as `[["limit_episodes", 3]]`,
   * merges like an object: each key named by a pair holds the value of the
   * last pair naming it.
   */
  lemma ExtraPairList(testType: string, params: Params, extra: string, xs: seq<Value>, key: string, i: nat)
    requires extra != [] && i < |xs| && LastNamer(xs, key, i)
    requires forall j :: 0 <= j < |xs| ==> UpdatePair(xs[j], j).Ok?
    ensures Payload(testType, params, extra, Some(List(xs))).Ok?
    ensures Get(Payload(testType, params, extra, Some(List(xs))).value, key) == Some(UpdatePair(xs[i], i).value.1)
  {
    var d := Payload(testType, params, "", None).value;
    UpdatePairsOk(d, xs);
    UpdatePairsGet(d, xs, key);
  }

  /** The text of an integer becomes that int. */
  lemma CoerceIntText(n: int)
    ensures Coerce(IntToString(n)) == Int(n)
  {
    IntStringRoundTrip(n);
  }

  /** "true" and "false" in any case become bools. */
  lemma CoerceBoolText(value: string)
    requires Lower(value) == "true" || Lower(value) == "false"
    ensures Coerce(value) == Bool(Lower(value) == "true")
  {
    assert NoSpace(value) && !IsDigit(value[0]) && value[0] != '-' && value[0] != '+' && value[0] != '.' by {
      forall k | 0 <= k < |value| ensures !IsSpace(value[k]) {
        assert Lower(value)[k] == LowerChar(value[k]);
      }
      assert Lower(value)[0] == LowerChar(value[0]);
    }
    WordNotNumber(value);
  }

  /** The request-payload example of the test suite: a process request with a limit of "2". */
  lemma ProcessExample()
    ensures var params := [("feed_url", "https://example.com/feed.xml"), ("limit_episodes", "2")];
      var d := Payload("process", params, "", None).value;
      Get(d, "target_path") == Some(Str("/process-podcast")) &&
      Get(d, "feed_url") == Some(Str("https://example.com/feed.xml")) &&
      Get(d, "limit_episodes") == Some(Int(2))
  {
    var url := "https://example.com/feed.xml";
    var params := [("feed_url", url), ("limit_episodes", "2")];
    PayloadTargetPath("process", params);
    assert TargetPath("process", params) == Str("/process-podcast");
    PayloadValues("process", params, "feed_url");
    PayloadValues("process", params, "limit_episodes");
    assert Lookup(params, "feed_url") == Some(url);
    assert Lookup(params, "limit_episodes") == Some("2");
    CoerceIntText(2);
    assert IntToString(2) == "2";
    CoerceUrl(url);
  }

  /**
   * A word that starts with a letter and is neither "true" nor "false" stays
   * text, unless `float` reads it as an infinity or nan.
   */
  lemma CoerceWord(value: string)
    requires value != [] && NoSpace(value) && IsAlpha(value[0])
    requires Lower(value) != "true" && Lower(value) != "false"
    ensures !NonFiniteWord(value) ==> Coerce(value) == Str(value)
    ensures NonFiniteWord(value) ==> Coerce(value).Inf? || Coerce(value).NaN?
  {
    assert !IsDigit(value[0]) && value[0] != '-' && value[0] != '+' && value[0] != '.';
    WordNotNumber(value);
    if !NonFiniteWord(value) {
      assert ParseInt(value) == None && ParseFloat(value) == None;
      assert Coerce(value) == Str(value);
    } else {
      var x := ParseFloat(value).value;
      assert !x.Finite?;
      assert Coerce(value) == FromFloat(x);
    }
  }

  /** An exponent literal is not an int but `float` reads it. */
  lemma CoerceExponent()
    ensures Coerce("1.5e3") == Float(1500.0)
  {
    Strings.ExponentUp();
    assert !IsDigit("1.5e3"[1]);
    assert ParseInt("1.5e3") == None;
  }

  /** The feed URL of the example parses as neither a number nor a bool. */
  lemma CoerceUrl(url: string)
    requires url == "https://example.com/feed.xml"
    ensures Coerce(url) == Str(url)
  {
    assert NoSpace(url) by {
      forall k | 0 <= k < |url| ensures !IsSpace(url[k]) {
      }
    }
    assert |Lower(url)| == 28;
    CoerceWord(url);
  }

  // ---------------------------------------------------------------------
  // build_test_command

  /** `--{param} {value}`. */
  function Flag(param: (string, string)): string
  {
    "--" + param.0 + " " + param.1
  }

  /** The `cmd` list: the test flag, one flag per parameter, then the extra text when non-empty. */
  function CommandParts(testType: string, params: Params, extra: string): (parts: seq<string>)
    ensures |parts| == 1 + |params| + (if extra != [] then 1 else 0)
    ensures parts[0] == "--test-" + testType
    ensures forall k :: 0 <= k < |params| ==> parts[1 + k] == Flag(params[k])
    ensures extra != [] ==> parts[|parts| - 1] == extra
  {
    ["--test-" + testType]
      + seq(|params|, k requires 0 <= k < |params| => Flag(params[k]))
      + (if extra != [] then [extra] else [])
  }

  const LocalPrefix: string := "python src/api_test.py "

  const DockerPrefix: string :=
    "docker run -it --rm --env-file \"src/.env\" podcast_summarizer "
    + "bash -c \"uvicorn src.podcast_summarizer.api.main:app "
    + "--host 0.0.0.0 --port 80 & sleep 3 && "
    + "python src/api_test.py "

  /** `build_test_command`. */
  function TestCommand(testType: string, params: Params, extra: string, env: string): string
  {
    var apiCmd := Join(CommandParts(testType, params, extra), " ");
    if env == "local_source" then LocalPrefix + apiCmd else DockerPrefix + apiCmd + "\""
  }

  method BuildTestCommand(testType: string, params: Params, extra: string, env: string) returns (command: string)
    ensures command == TestCommand(testType, params, extra, env)
  {
    var cmd := ["--test-" + testType];
    for i := 0 to |params|
      invariant cmd == ["--test-" + testType] + seq(i, k requires 0 <= k < i => Flag(params[k]))
    {
      cmd := cmd + [Flag(params[i])];
    }
    if extra != [] {
      cmd := cmd + [extra];
    }
    assert cmd == CommandParts(testType, params, extra);
    var apiCmd := Join(cmd, " ");
    if env == "local_source" {
      command := LocalPrefix + apiCmd;
    } else {
      command := DockerPrefix + apiCmd + "\"";
    }
  }

  /**
   * The command starts with the api_test invocation and the test flag, inside
   * the docker wrapper unless the environment is `local_source`, and every
   * parameter flag occurs in it.
   */
  lemma TestCommandShape(testType: string, params: Params, extra: string, env: string)
    ensures var c := TestCommand(testType, params, extra, env);
      (env == "local_source" ==> StartsWith(c, LocalPrefix + "--test-" + testType)) &&
      (env != "local_source" ==> StartsWith(c, DockerPrefix + "--test-" + testType) && EndsWith(c, "\"")) &&
      forall k :: 0 <= k < |params| ==> Contains(c, Flag(params[k]))
  {
    var parts := CommandParts(testType, params, extra);
    var pre := if env == "local_source" then LocalPrefix else DockerPrefix;
    var post := if env == "local_source" then "" else "\"";
    var c := TestCommand(testType, params, extra, env);
    assert c == pre + Join(parts, " ") + post;
    assert pre + "--test-" + testType == pre + parts[0];
    WrappedJoin(pre, parts, post);
    forall k | 0 <= k < |params| ensures Contains(c, Flag(params[k])) {
      assert parts[1 + k] == Flag(params[k]);
    }
  }

  /** A joined command between a prefix and a suffix starts with its first part and contains every part. */
  lemma WrappedJoin(pre: string, parts: seq<string>, post: string)
    requires parts != []
    ensures StartsWith(pre + Join(parts, " ") + post, pre + parts[0])
    ensures EndsWith(pre + Join(parts, " ") + post, post)
    ensures forall k :: 0 <= k < |parts| ==> Contains(pre + Join(parts, " ") + post, parts[k])
  {
    var apiCmd := Join(parts, " ");
    JoinStartsWith(parts, " ");
    WrappedEnds(pre, apiCmd, parts[0], post);
    forall k | 0 <= k < |parts| ensures Contains(pre + apiCmd + post, parts[k]) {
      JoinContains(parts, " ", k);
      ContainsExtend(apiCmd, parts[k], pre, post);
    }
  }

  /** Wrapping a string keeps its start behind the prefix and ends with the suffix. */
  lemma WrappedEnds(pre: string, s: string, first: string, post: string)
    requires StartsWith(s, first)
    ensures StartsWith(pre + s + post, pre + first)
    ensures EndsWith(pre + s + post, post)
  {
    var c := pre + s + post;
    assert c[..|pre + first|] == pre + first by {
      forall k | 0 <= k < |pre + first| ensures c[k] == (pre + first)[k] {
        if k >= |pre| {
          assert c[k] == s[k - |pre|] == s[..|first|][k - |pre|];
        }
      }
    }
    assert c[|c| - |post|..] == post;
  }

  /** The command-generation example of the test suite: the command begins with the test flag... */
  lemma CommandExampleHead(params: Params, url: string)
    requires params == [("feed-url", url), ("limit-episodes", "2")]
    ensures Contains(TestCommand("process", params, "", "local_source"), "python src/api_test.py --test-process")
  {
    var c := TestCommand("process", params, "", "local_source");
    var head := LocalPrefix + "--test-" + "process";
    assert head == "python src/api_test.py --test-process";
    TestCommandShape("process", params, "", "local_source");
    ContainsPrefix(c, head);
  }

  /** ...and holds both parameter flags, whatever the feed URL. */
  lemma CommandExampleFlags(params: Params, url: string)
    requires params == [("feed-url", url), ("limit-episodes", "2")]
    ensures Contains(TestCommand("process", params, "", "local_source"), "--feed-url " + url)
    ensures Contains(TestCommand("process", params, "", "local_source"), "--limit-episodes 2")
  {
    FlagIn("process", params, 0, Flag(params[0]));
    FlagIn("process", params, 1, Flag(params[1]));
    FeedFlag(url);
  }

  lemma FeedFlag(url: string)
    ensures Flag(("feed-url", url)) == "--feed-url " + url
    ensures Flag(("limit-episodes", "2")) == "--limit-episodes 2"
  {
    assert "--" + "feed-url" + " " == "--feed-url ";
  }

  lemma FlagIn(testType: string, params: Params, k: int, flag: string)
    requires 0 <= k < |params| && Flag(params[k]) == flag
    ensures Contains(TestCommand(testType, params, "", "local_source"), flag)
  {
    TestCommandShape(testType, params, "", "local_source");
  }
}
