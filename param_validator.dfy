/**
 * The parameter checks of the test tooling's GUI: text fields are converted
 * to the types the request models expect and checked against the same bounds.
 * A raised `ValidationError` is an `Err` carrying its message.
 */
module ParamValidator {
  import opened Wrappers
  import opened Json
  import opened Strings
  import opened EpisodeIndices
  import RequestModels

  const IndicesError: string := "Episode indices must be numbers separated by commas (e.g., '1,2,3' or '1-3')"

  /** What one comma-separated piece contributes, or `None` when `int()` fails on it. */
  function PieceValues(piece: string): (r: Option<seq<int>>)
    ensures r.Some? ==> r.value == PartValues(Token(piece))
  {
    if '-' in piece then
      (match RangeBounds(piece)
       case Some(bounds) => Some(Range(bounds.0, bounds.1))
       case None => None)
    else
      (match ParseInt(piece)
       case Some(v) => Some([v])
       case None => None)
  }

  /** What every piece contributes, in order. */
  function PieceResults(pieces: seq<string>): (r: seq<Option<seq<int>>>)
    ensures |r| == |pieces| && forall k :: 0 <= k < |pieces| ==> r[k] == PieceValues(pieces[k])
  {
    seq(|pieces|, k requires 0 <= k < |pieces| => PieceValues(pieces[k]))
  }

  /** `indices` after extending by every contribution, or `None` once one fails. */
  function ExtendAll(opts: seq<Option<seq<int>>>): Option<seq<int>>
  {
    if opts == [] then Some([])
    else match ExtendAll(opts[..|opts| - 1])
      case None => None
      case Some(xs) =>
        (match opts[|opts| - 1]
         case Some(ys) => Some(xs + ys)
         case None => None)
  }

  /** Extending by contribution `i` after the contributions before it. */
  lemma ExtendAllPrefix(opts: seq<Option<seq<int>>>, i: nat)
    requires i < |opts|
    ensures var prev := ExtendAll(opts[..i]);
      ExtendAll(opts[..i + 1]) ==
        if prev.None? || opts[i].None? then None else Some(prev.value + opts[i].value)
  {
    assert opts[..i + 1][..i] == opts[..i];
  }

  predicate AllSome(opts: seq<Option<seq<int>>>)
  {
    forall k :: 0 <= k < |opts| ==> opts[k].Some?
  }

  /** Some contribution holds `v`. */
  predicate Contributes(opts: seq<Option<seq<int>>>, v: int)
  {
    exists k :: 0 <= k < |opts| && opts[k].Some? && v in opts[k].value
  }

  predicate AllPiecesParse(pieces: seq<string>)
  {
    forall k :: 0 <= k < |pieces| ==> PieceValues(pieces[k]).Some?
  }

  function AsParts(pieces: seq<string>): (r: seq<Part>)
    ensures |r| == |pieces| && forall k :: 0 <= k < |pieces| ==> r[k] == Token(pieces[k])
  {
    seq(|pieces|, k requires 0 <= k < |pieces| => Token(pieces[k]))
  }

  /** The contributions are accepted iff none of them failed. */
  lemma {:induction false} ExtendAllAccepts(opts: seq<Option<seq<int>>>)
    ensures ExtendAll(opts).Some? <==> AllSome(opts)
  {
    if opts != [] {
      var init := opts[..|opts| - 1];
      ExtendAllAccepts(init);
      assert AllSome(opts) <==> AllSome(init) && opts[|opts| - 1].Some? by {
        assert forall k :: 0 <= k < |init| ==> init[k] == opts[k];
      }
    }
  }

  /** An accepted list holds exactly the values the contributions hold. */
  lemma {:induction false} ExtendAllMembers(opts: seq<Option<seq<int>>>)
    requires ExtendAll(opts).Some?
    ensures forall v :: v in ExtendAll(opts).value <==> Contributes(opts, v)
  {
    if opts != [] {
      var init, last := opts[..|opts| - 1], opts[|opts| - 1];
      ExtendAllMembers(init);
      var xs, ys := ExtendAll(init).value, last.value;
      assert ExtendAll(opts).value == xs + ys;
      forall v ensures v in xs + ys <==> Contributes(opts, v) {
        if v in ys {
          assert opts[|opts| - 1].Some? && v in opts[|opts| - 1].value;
        }
        if v in xs {
          var k :| 0 <= k < |init| && init[k].Some? && v in init[k].value;
          assert opts[k] == init[k];
        }
        if Contributes(opts, v) && v !in ys {
          var k :| 0 <= k < |opts| && opts[k].Some? && v in opts[k].value;
          assert k < |init| && init[k] == opts[k];
        }
      }
    }
  }

  lemma {:induction false} ExtendAllFails(opts: seq<Option<seq<int>>>, i: nat)
    requires i <= |opts| && ExtendAll(opts[..i]).None?
    ensures ExtendAll(opts).None?
    decreases |opts| - i
  {
    if i < |opts| {
      assert opts[..i + 1][..i] == opts[..i];
      ExtendAllFails(opts, i + 1);
    } else {
      assert opts[..i] == opts;
    }
  }

  /** When every piece parses, the pieces contribute exactly what they select. */
  lemma PiecesContribute(pieces: seq<string>, v: int)
    requires AllSome(PieceResults(pieces))
    ensures Contributes(PieceResults(pieces), v) <==> Chosen(AsParts(pieces), v)
  {
    var opts, parts := PieceResults(pieces), AsParts(pieces);
    if Contributes(opts, v) {
      var k :| 0 <= k < |opts| && opts[k].Some? && v in opts[k].value;
      PartValuesSelected(parts[k], v);
    }
    if Chosen(parts, v) {
      var k :| 0 <= k < |parts| && Selected(parts[k], v);
      PartValuesSelected(parts[k], v);
      assert opts[k].Some?;
    }
  }

  /**
   * `parse_episode_indices` of the validator: `[]` for an empty string, one
   * index for a string of digits, otherwise the comma pieces in order, ranges
   * expanded, neither sorted nor de-duplicated; any piece that is not an int or
   * a two-int range fails the whole string.
   */
  function Indices(value: string): Result<seq<int>>
  {
    var t := Strip(value);
    if value == [] then Ok([])
    else if t != [] && AllDigits(t) then Ok([DigitsValue(t)])
    else match ExtendAll(PieceResults(SplitOn(value, ',')))
      case Some(xs) => Ok(xs)
      case None => Err(IndicesError)
  }

  method ParseEpisodeIndices(value: string) returns (r: Result<seq<int>>)
    ensures r == Indices(value)
  {
    if value == [] {
      return Ok([]);
    }
    var t := Strip(value);
    if t != [] && AllDigits(t) {
      return Ok([DigitsValue(t)]);
    }
    var indices: seq<int> := [];
    var pieces := SplitOn(value, ',');
    ghost var opts := PieceResults(pieces);
    for i := 0 to |pieces|
      invariant ExtendAll(opts[..i]) == Some(indices)
    {
      ExtendAllPrefix(opts, i);
      var piece := pieces[i];
      if PieceValues(piece).None? {
        ExtendAllFails(opts, i + 1);
        return Err(IndicesError);
      }
      indices := AppendPart(indices, Token(piece));
    }
    assert opts[..|pieces|] == opts;
    r := Ok(indices);
  }

  /** A string that is not one number is accepted iff every comma piece parses. */
  lemma IndicesAccepts(value: string)
    requires value != [] && !(Strip(value) != [] && AllDigits(Strip(value)))
    ensures Indices(value).Ok? <==> AllPiecesParse(SplitOn(value, ','))
  {
    var pieces := SplitOn(value, ',');
    ExtendAllAccepts(PieceResults(pieces));
    assert AllSome(PieceResults(pieces)) <==> AllPiecesParse(pieces);
  }

  /** An accepted string yields exactly the values its comma pieces select. */
  lemma IndicesMembers(value: string)
    requires value != [] && !(Strip(value) != [] && AllDigits(Strip(value)))
    requires Indices(value).Ok?
    ensures forall v :: v in Indices(value).value <==> Chosen(AsParts(SplitOn(value, ',')), v)
  {
    var pieces := SplitOn(value, ',');
    var opts := PieceResults(pieces);
    ExtendAllAccepts(opts);
    ExtendAllMembers(opts);
    forall v ensures v in Indices(value).value <==> Chosen(AsParts(pieces), v) {
      PiecesContribute(pieces, v);
    }
  }

  /** A string of digits, blanks around it allowed, is one index. */
  lemma DigitsAreOneIndex(value: string, n: nat)
    requires Strip(value) == NatToString(n)
    ensures Indices(value) == Ok([n])
  {
  }

  /** The list keeps request order and repeats: it is neither sorted nor de-duplicated. */
  lemma KeepsOrderAndRepeats()
    ensures Indices("3,1,1") == Ok([3, 1, 1])
  {
    KeepsOrderPieces();
    KeepsOrderNotOneNumber();
    KeepsOrderResults();
    KeepsOrderExtend();
  }

  lemma KeepsOrderNotOneNumber()
    ensures !AllDigits(Strip("3,1,1"))
  {
    StripNoSpace("3,1,1");
    assert "3,1,1"[1] == ',';
  }

  lemma KeepsOrderResults()
    ensures PieceResults(["3", "1", "1"]) == [Some([3]), Some([1]), Some([1])]
  {
    PieceThree();
    PieceOne();
    var pieces := ["3", "1", "1"];
    assert pieces[0] == "3" && pieces[1] == "1" && pieces[2] == "1";
  }

  lemma PieceThree()
    ensures PieceValues("3") == Some([3])
  {
    StripNoSpace("3");
  }

  lemma PieceOne()
    ensures PieceValues("1") == Some([1])
  {
    StripNoSpace("1");
  }

  lemma KeepsOrderExtend()
    ensures ExtendAll([Some([3]), Some([1]), Some([1])]) == Some([3, 1, 1])
  {
    var opts: seq<Option<seq<int>>> := [Some([3]), Some([1]), Some([1])];
    assert ExtendAll(opts[..1]) == Some([3]) by {
      var o1 := opts[..1];
      assert o1 == [Some([3])] && o1[..|o1| - 1] == [];
      assert ExtendAll([]) == Some([]);
      var none: seq<int> := [];
      assert none + [3] == [3];
    }
    assert ExtendAll(opts[..2]) == Some([3, 1]) by {
      var o2 := opts[..2];
      assert o2[..|o2| - 1] == opts[..1] && o2[|o2| - 1] == Some([1]);
      assert [3] + [1] == [3, 1];
    }
    assert opts[..|opts| - 1] == opts[..2] && opts[|opts| - 1] == Some([1]);
    assert [3, 1] + [1] == [3, 1, 1];
  }

  lemma KeepsOrderPieces()
    ensures SplitOn("3,1,1", ',') == ["3", "1", "1"]
  {
    assert IndexOf("3,1,1", ',') == 1 && "3,1,1"[..1] == "3" && "3,1,1"[2..] == "1,1";
    assert IndexOf("1,1", ',') == 1 && "1,1"[..1] == "1" && "1,1"[2..] == "1";
    assert SplitOn("1", ',') == ["1"];
  }

  /** An inverted range contributes nothing. */
  lemma InvertedRangeIsEmpty()
    ensures Indices("5-3") == Ok([])
  {
    assert SplitOn("5-3", ',') == ["5-3"] by {
      assert IndexOf("5-3", ',') == 3;
    }
    assert !AllDigits(Strip("5-3")) by {
      StripNoSpace("5-3");
      assert "5-3"[1] == '-';
    }
    InvertedPieceIsEmpty();
    SinglePieceIndices("5-3", []);
  }

  /** A value that is one piece, not a bare number, yields what that piece contributes. */
  lemma SinglePieceIndices(value: string, xs: seq<int>)
    requires value != [] && !AllDigits(Strip(value))
    requires SplitOn(value, ',') == [value] && PieceValues(value) == Some(xs)
    ensures Indices(value) == Ok(xs)
  {
    var opts := PieceResults([value]);
    assert opts == [Some(xs)];
    assert opts[..|opts| - 1] == [] && ExtendAll([]) == Some([]);
    assert [] + xs == xs;
  }

  /** The piece `5-3` names a range whose start exceeds its end, so it adds nothing. */
  lemma InvertedPieceIsEmpty()
    ensures PieceValues("5-3") == Some([])
  {
    InvertedBounds();
    assert "5-3"[1] == '-';
  }

  /** The bounds read from `5-3`. */
  lemma InvertedBounds()
    ensures RangeBounds("5-3") == Some((5, 3))
  {
    assert IndexOf("5-3", '-') == 1;
    assert "5-3"[2..] == "3" && IndexOf("3", '-') == 1 && "5-3"[..1] == "5";
    assert SplitOn("3", '-') == ["3"];
    assert SplitOn("5-3", '-') == ["5", "3"];
    StripNoSpace("5");
    StripNoSpace("3");
  }

  /** One piece that is not a number fails the whole string. */
  lemma BadPieceFails()
    ensures Indices("1,x") == Err(IndicesError)
  {
    BadPieceSplit();
    BadPieceNotNumber();
    PieceOne();
    PieceX();
    var opts := PieceResults(["1", "x"]);
    assert opts == [Some([1]), None];
    assert opts[..1] == [Some([1])];
  }

  lemma BadPieceSplit()
    ensures SplitOn("1,x", ',') == ["1", "x"]
  {
    assert IndexOf("1,x", ',') == 1 && "1,x"[..1] == "1" && "1,x"[2..] == "x";
    assert SplitOn("x", ',') == ["x"];
  }

  lemma BadPieceNotNumber()
    ensures !AllDigits(Strip("1,x"))
  {
    StripNoSpace("1,x");
  }

  lemma PieceX()
    ensures PieceValues("x") == None
  {
    StripNoSpace("x");
  }

  // ---------------------------------------------------------------------
  // Bound checks

  function ValidateChunkSize(value: int): (r: Result<int>)
    ensures r.Ok? <==> 500 <= value <= 8000
    ensures r.Ok? ==> r.value == value
    ensures r.Err? ==> r.error == "Chunk size must be between 500 and 8000"
  {
    if !(500 <= value <= 8000) then Err("Chunk size must be between 500 and 8000") else Ok(value)
  }

  function ValidateChunkOverlap(value: int): (r: Result<int>)
    ensures r.Ok? <==> 0 <= value <= 1000
    ensures r.Ok? ==> r.value == value
    ensures r.Err? ==> r.error == "Chunk overlap must be between 0 and 1000"
  {
    if !(0 <= value <= 1000) then Err("Chunk overlap must be between 0 and 1000") else Ok(value)
  }

  function ValidateTemperature(value: real): (r: Result<real>)
    ensures r.Ok? <==> 0.0 <= value <= 1.0
    ensures r.Ok? ==> r.value == value
    ensures r.Err? ==> r.error == "Temperature must be between 0.0 and 1.0"
  {
    if !(0.0 <= value <= 1.0) then Err("Temperature must be between 0.0 and 1.0") else Ok(value)
  }

  /** The validator's bounds are the request model's: each value is accepted by both or by neither. */
  lemma BoundsMatchModels(episodeId: string, x: int, t: real)
    ensures RequestModels.UniqueNames(RequestModels.EpisodeSummaryRequest)
    ensures ValidateChunkSize(x).Ok? <==>
      RequestModels.Validate(RequestModels.EpisodeSummaryRequest,
                             RequestModels.SummaryWith(episodeId, "chunk_size", Int(x))).Ok?
    ensures ValidateChunkOverlap(x).Ok? <==>
      RequestModels.Validate(RequestModels.EpisodeSummaryRequest,
                             RequestModels.SummaryWith(episodeId, "chunk_overlap", Int(x))).Ok?
    ensures ValidateTemperature(t).Ok? <==>
      RequestModels.Validate(RequestModels.EpisodeSummaryRequest,
                             RequestModels.SummaryWith(episodeId, "temperature", Float(t))).Ok?
  {
    RequestModels.ChunkSizeBounds(episodeId, x);
    RequestModels.ChunkOverlapBounds(episodeId, x);
    RequestModels.TemperatureBounds(episodeId, t);
  }

  // ---------------------------------------------------------------------
  // Conversion

  function NumberError(name: string): string
  {
    "Parameter '" + name + "' must be a valid number"
  }

  function BoundsError(name: string): string
  {
    "Parameter '" + name + "' must be between 0.0 and 1.0"
  }

  /**
   * How `convert_to_int` ends: a number, the `ValidationError` it raises
   * itself, or an exception it lets through (the `OverflowError` of
   * `int(float('inf'))`), which the caller reports.
   */
  datatype IntConversion = Converted(n: int) | Invalid(message: string) | Overflow(message: string)

  const InfinityToInt := "cannot convert float infinity to integer"

  /**
   * `convert_to_int`: `int(float(value))`, truncating toward zero. `int` of
   * nan raises a `ValueError`, which is caught; `int` of an infinity raises
   * an `OverflowError`, which is not.
   */
  function ConvertToInt(value: string, name: string): (r: IntConversion)
    ensures r.Converted? <==> ParseFloat(value).Some? && ParseFloat(value).value.Finite?
    ensures r.Converted? ==> r.n == TruncReal(ParseFloat(value).value.r)
    ensures r.Overflow? <==> ParseFloat(value).Some? && ParseFloat(value).value.Infinite?
    ensures r.Overflow? ==> r.message == InfinityToInt
    ensures r.Invalid? ==> r.message == NumberError(name)
  {
    match ParseFloat(value)
    case Some(Finite(f)) => Converted(TruncReal(f))
    case Some(Infinite(_)) => Overflow(InfinityToInt)
    case Some(NotANumber) => Invalid(NumberError(name))
    case None => Invalid(NumberError(name))
  }

  /**
   * `convert_to_float` as called for the temperature, with bounds 0.0 and
   * 1.0. An infinity lies outside them, and nan fails every comparison, so
   * both get the bounds message.
   */
  function ConvertToUnitFloat(value: string, name: string): (r: Result<real>)
    ensures r.Ok? <==> ParseFloat(value).Some? && ParseFloat(value).value.Finite? && 0.0 <= ParseFloat(value).value.r <= 1.0
    ensures r.Ok? ==> r.value == ParseFloat(value).value.r
    ensures ParseFloat(value).None? ==> r == Err(NumberError(name))
    ensures ParseFloat(value).Some? && r.Err? ==> r.error == BoundsError(name)
  {
    match ParseFloat(value)
    case Some(Finite(f)) => if !(0.0 <= f <= 1.0) then Err(BoundsError(name)) else Ok(f)
    case Some(_) => Err(BoundsError(name))
    case None => Err(NumberError(name))
  }

  /** The message `convert_and_validate_param` wraps an unexpected exception in. */
  function ProcessingError(name: string, message: string): string
  {
    "Error processing parameter '" + name + "': " + message
  }

  /** `convert_to_int` seen from `convert_and_validate_param`, which wraps what escapes it. */
  function IntParam(value: string, name: string): (r: Result<int>)
    ensures r.Ok? <==> ConvertToInt(value, name).Converted?
    ensures r.Ok? ==> r.value == ConvertToInt(value, name).n
    ensures ConvertToInt(value, name).Invalid? ==> r == Err(NumberError(name))
    ensures ConvertToInt(value, name).Overflow? ==> r == Err(ProcessingError(name, InfinityToInt))
  {
    match ConvertToInt(value, name)
    case Converted(n) => Ok(n)
    case Invalid(m) => Err(m)
    case Overflow(m) => Err(ProcessingError(name, m))
  }

  /** The chunk-size branch: convert to an int, then check the bounds. */
  function ChunkSizeParam(value: string): (r: Result<Value>)
    ensures r.Ok? ==> r.value.Int? && 500 <= r.value.i <= 8000
    ensures ConvertToInt(value, "chunk_size").Overflow? ==> r == Err(ProcessingError("chunk_size", InfinityToInt))
  {
    match IntParam(value, "chunk_size")
    case Ok(n) => (match ValidateChunkSize(n) case Ok(m) => Ok(Int(m)) case Err(e) => Err(e))
    case Err(e) => Err(e)
  }

  /** The chunk-overlap branch: convert to an int, then check the bounds. */
  function ChunkOverlapParam(value: string): (r: Result<Value>)
    ensures r.Ok? ==> r.value.Int? && 0 <= r.value.i <= 1000
    ensures ConvertToInt(value, "chunk_overlap").Overflow? ==> r == Err(ProcessingError("chunk_overlap", InfinityToInt))
  {
    match IntParam(value, "chunk_overlap")
    case Ok(n) => (match ValidateChunkOverlap(n) case Ok(m) => Ok(Int(m)) case Err(e) => Err(e))
    case Err(e) => Err(e)
  }

  /**
   * The temperature branch: convert to a float in [0, 1]; the second bound
   * check can then no longer fail, so a number out of range reports the
   * conversion's bounds error.
   */
  function TemperatureParam(value: string): (r: Result<Value>)
    ensures r.Ok? ==> r.value.Float? && 0.0 <= r.value.f <= 1.0
    ensures ParseFloat(value).Some? && r.Err? ==> r.error == BoundsError("temperature")
  {
    match ConvertToUnitFloat(value, "temperature")
    case Ok(f) => (match ValidateTemperature(f) case Ok(g) => Ok(Float(g)) case Err(e) => Err(e))
    case Err(e) => Err(e)
  }

  /** The parameters converted with `int(float(value))`. */
  predicate IntNamed(name: string)
  {
    name == "split_size_mb" || name == "limit_episodes" || name == "chunk_size" || name == "chunk_overlap"
  }

  predicate IsBoolText(value: string)
  {
    Lower(value) == "true" || Lower(value) == "false"
  }

  /**
   * `convert_and_validate_param`: `None` for an empty field, a bool for
   * "true"/"false" in any case whatever the name, a checked number for the
   * numeric names, a list for the indices, and the text itself otherwise.
   */
  function ConvertAndValidate(name: string, value: string): (r: Result<Value>)
    ensures r == Ok(Null) <==> value == []
    ensures value != [] && IsBoolText(value) ==> r == Ok(Bool(Lower(value) == "true"))
    ensures r.Ok? && name == "chunk_size" && !IsBoolText(value) && value != [] ==>
      r.value.Int? && 500 <= r.value.i <= 8000
    ensures r.Ok? && name == "chunk_overlap" && !IsBoolText(value) && value != [] ==>
      r.value.Int? && 0 <= r.value.i <= 1000
    ensures r.Ok? && name == "temperature" && !IsBoolText(value) && value != [] ==>
      r.value.Float? && 0.0 <= r.value.f <= 1.0
    ensures value != [] && !IsBoolText(value) &&
      name !in ["split_size_mb", "episode_indices", "chunk_size", "chunk_overlap", "temperature", "limit_episodes"]
      ==> r == Ok(Str(value))
    ensures (value != [] && !IsBoolText(value) && IntNamed(name) &&
             ParseFloat(value).Some? && ParseFloat(value).value.Infinite?)
      ==> r == Err(ProcessingError(name, InfinityToInt))
    ensures value != [] && !IsBoolText(value) && name == "temperature" && ParseFloat(value).Some? && r.Err? ==>
      r.error == BoundsError(name)
  {
    if value == [] then Ok(Null)
    else if IsBoolText(value) then Ok(Bool(Lower(value) == "true"))
    else if name == "split_size_mb" || name == "limit_episodes" then
      (match IntParam(value, name) case Ok(n) => Ok(Int(n)) case Err(e) => Err(e))
    else if name == "episode_indices" then
      (match Indices(value) case Ok(xs) => Ok(Ints(xs)) case Err(e) => Err(e))
    else if name == "chunk_size" then ChunkSizeParam(value)
    else if name == "chunk_overlap" then ChunkOverlapParam(value)
    else if name == "temperature" then TemperatureParam(value)
    else Ok(Str(value))
  }

  /** The text of an integer is neither empty nor "true"/"false". */
  lemma IntTextNotBool(n: int)
    ensures IntToString(n) != [] && !IsBoolText(IntToString(n))
  {
    var s := IntToString(n);
    if n < 0 { assert s[0] == '-'; } else { assert IsDigit(s[0]); }
    assert Lower(s)[0] == LowerChar(s[0]);
  }

  /** An integer typed into the chunk-size field is accepted iff it lies in [500, 8000]. */
  lemma ChunkSizeFieldAccepts(n: int)
    ensures ConvertAndValidate("chunk_size", IntToString(n)) ==
      (if 500 <= n <= 8000 then Ok(Int(n)) else Err("Chunk size must be between 500 and 8000"))
  {
    var s := IntToString(n);
    RealStringOfInt(n);
    IntTextNotBool(n);
    assert TruncReal(n as real) == n;
    assert ConvertToInt(s, "chunk_size") == Converted(n);
    assert IntParam(s, "chunk_size") == Ok(n);
    assert ConvertAndValidate("chunk_size", s) == ChunkSizeParam(s);
  }

  /** Bool text wins over the name: "TRUE" in the chunk-size field gives `True`, skipping the bound check. */
  lemma BoolTextBypassesBounds()
    ensures ConvertAndValidate("chunk_size", "TRUE") == Ok(Bool(true))
  {
    assert Lower("TRUE") == "true";
  }

  /**
   * "inf" in the chunk-size field escapes `convert_to_int` as an
   * `OverflowError` and comes back wrapped.
   */
  lemma InfinityChunkSize()
    ensures ConvertAndValidate("chunk_size", "inf") == Err(ProcessingError("chunk_size", InfinityToInt))
  {
    LowerCaseWords();
    assert !IsBoolText("inf") by { assert Lower("inf") == "inf"; }
    assert IntParam("inf", "chunk_size") == Err(ProcessingError("chunk_size", InfinityToInt));
  }

  /** An exponent literal goes through `float()` first, so "1.5e3" is 1500. */
  lemma ExponentInt()
    ensures ConvertToInt("1.5e3", "chunk_size") == Converted(1500)
  {
    Strings.ExponentUp();
  }

  /** "nan" in the chunk-size field is an invalid number. */
  lemma NanChunkSize()
    ensures ConvertAndValidate("chunk_size", "nan") == Err(NumberError("chunk_size"))
  {
    LowerCaseWords();
    assert !IsBoolText("nan") by { assert Lower("nan") == "nan"; }
    assert IntParam("nan", "chunk_size") == Err(NumberError("chunk_size"));
  }

  /** "nan" as the temperature fails the bounds test. */
  lemma NanTemperature()
    ensures ConvertAndValidate("temperature", "nan") == Err(BoundsError("temperature"))
  {
    LowerCaseWords();
    assert !IsBoolText("nan") by { assert Lower("nan") == "nan"; }
    assert ConvertToUnitFloat("nan", "temperature") == Err(BoundsError("temperature"));
  }

  // ---------------------------------------------------------------------
  // Whole payload

  /** `validate_payload`: the first missing required field's message, or `None` when the payload passes. */
  function ValidatePayload(payload: Dict, testType: string): (r: Option<string>)
    ensures testType in {"process", "upsert"} ==> (r.None? <==> Truthy(GetOr(payload, "feed_url", Null)))
    ensures testType == "summarize" ==>
      (r.None? <==> Truthy(GetOr(payload, "episode_id", Null)) && Truthy(GetOr(payload, "user_id", Null)))
    ensures testType == "summarize" && !Truthy(GetOr(payload, "episode_id", Null)) ==>
      r == Some("Episode ID is required for summarize operations")
    ensures testType !in {"process", "upsert", "summarize"} ==> r.None?
  {
    if testType == "process" then
      if !Truthy(GetOr(payload, "feed_url", Null)) then Some("Feed URL is required for process operations") else None
    else if testType == "summarize" then
      if !Truthy(GetOr(payload, "episode_id", Null)) then Some("Episode ID is required for summarize operations")
      else if !Truthy(GetOr(payload, "user_id", Null)) then Some("User ID is required for summarize operations")
      else None
    else if testType == "upsert" then
      if !Truthy(GetOr(payload, "feed_url", Null)) then Some("Feed URL is required for upsert operations") else None
    else None
  }
}
