/**
 * JSON-shaped Python values (`None`, bool, int, float, str, list, dict) as the
 * core passes them around. A dict keeps its keys in insertion order, as
 * Python's does, so it is a sequence of (key, value) pairs with distinct keys.
 */
module Json {
  import opened Wrappers
  import Strings

  datatype Value =
    | Null
    | Bool(b: bool)
    | Int(i: int)
    | Float(f: real)
    | Inf(negative: bool)
    | NaN
    | Str(s: string)
    | List(items: seq<Value>)
    | Obj(fields: seq<(string, Value)>)

  type Dict = seq<(string, Value)>

  /** The Python float `x` as a value. */
  function FromFloat(x: Strings.PyFloat): (v: Value)
    ensures x.Finite? <==> v.Float?
    ensures x.Finite? ==> v.f == x.r
  {
    match x
    case Finite(r) => Float(r)
    case Infinite(negative) => Inf(negative)
    case NotANumber => NaN
  }

  /** Python truthiness: None, False, 0, 0.0, "", [] and {} are falsy. */
  predicate Truthy(v: Value)
  {
    match v
    case Null => false
    case Bool(b) => b
    case Int(i) => i != 0
    case Float(f) => f != 0.0
    case Inf(_) => true
    case NaN => true
    case Str(s) => s != []
    case List(xs) => xs != []
    case Obj(fs) => fs != []
  }

  /** Python's `a or b`: `a` when truthy, otherwise `b`. */
  function Or(a: Value, b: Value): (r: Value)
    ensures Truthy(a) ==> r == a
    ensures !Truthy(a) ==> r == b
  {
    if Truthy(a) then a else b
  }

  function Keys(d: Dict): (ks: seq<string>)
    ensures |ks| == |d|
    ensures forall i :: 0 <= i < |d| ==> ks[i] == d[i].0
  {
    if d == [] then [] else [d[0].0] + Keys(d[1..])
  }

  predicate HasKey(d: Dict, k: string)
  {
    d != [] && (d[0].0 == k || HasKey(d[1..], k))
  }

  /** A Python dict never holds the same key twice. */
  predicate KeysUnique(d: Dict)
  {
    d == [] || (!HasKey(d[1..], d[0].0) && KeysUnique(d[1..]))
  }

  /** `d.get(k)`: the value stored under `k`, if any. */
  function Get(d: Dict, k: string): (r: Option<Value>)
    ensures r.None? <==> !HasKey(d, k)
    ensures r.Some? ==> (k, r.value) in d
  {
    if d == [] then None
    else if d[0].0 == k then Some(d[0].1)
    else Get(d[1..], k)
  }

  /** The value found for `k` is that of the first pair with key `k`. */
  lemma {:induction false} GetFirstAt(d: Dict, k: string, i: nat)
    requires i < |d| && d[i].0 == k
    requires forall j :: 0 <= j < i ==> d[j].0 != k
    ensures Get(d, k) == Some(d[i].1)
  {
    if i > 0 {
      GetFirstAt(d[1..], k, i - 1);
    }
  }

  /** Looking a key up in `a + b` finds it in `a` first. */
  lemma {:induction false} GetAppend(a: Dict, b: Dict, k: string)
    ensures Get(a + b, k) == if HasKey(a, k) then Get(a, k) else Get(b, k)
  {
    if a == [] {
      assert a + b == b;
    } else {
      GetAppend(a[1..], b, k);
      assert (a + b)[1..] == a[1..] + b;
    }
  }

  /** A key no pair of `d` carries is not in `d`. */
  lemma {:induction false} KeyAbsent(d: Dict, k: string)
    requires forall j :: 0 <= j < |d| ==> d[j].0 != k
    ensures !HasKey(d, k)
  {
    if d != [] {
      KeyAbsent(d[1..], k);
    }
  }

  /** Looking up a key that first occurs at `b[i]` in `a + b + c`, where `a` lacks it. */
  lemma GetMiddle(a: Dict, b: Dict, c: Dict, k: string, i: nat)
    requires i < |b| && b[i].0 == k
    requires forall j :: 0 <= j < i ==> b[j].0 != k
    requires forall j :: 0 <= j < |a| ==> a[j].0 != k
    ensures Get(a + b + c, k) == Some(b[i].1)
  {
    GetFirstAt(b, k, i);
    KeyAbsent(a, k);
    GetAppend(a, b, k);
    GetAppend(a + b, c, k);
  }

  /** `d.get(k, default)`. */
  function GetOr(d: Dict, k: string, default: Value): Value
  {
    match Get(d, k)
    case Some(v) => v
    case None => default
  }

  /** `d[k] = v`: replaces the value in place, or appends a new key at the end. */
  function Put(d: Dict, k: string, v: Value): (r: Dict)
    ensures Get(r, k) == Some(v)
    ensures forall k' :: k' != k ==> Get(r, k') == Get(d, k')
  {
    if d == [] then [(k, v)]
    else if d[0].0 == k then [(k, v)] + d[1..]
    else [d[0]] + Put(d[1..], k, v)
  }

  lemma {:induction false} PutKeys(d: Dict, k: string, v: Value)
    ensures HasKey(d, k) ==> Keys(Put(d, k, v)) == Keys(d)
    ensures !HasKey(d, k) ==> Keys(Put(d, k, v)) == Keys(d) + [k]
    ensures KeysUnique(d) ==> KeysUnique(Put(d, k, v))
  {
    if d != [] && d[0].0 != k {
      PutKeys(d[1..], k, v);
      var r := Put(d[1..], k, v);
      assert Put(d, k, v) == [d[0]] + r;
      assert ([d[0]] + r)[1..] == r;
      assert HasKey(r, d[0].0) == HasKey(d[1..], d[0].0) by {
        assert Get(r, d[0].0) == Get(d[1..], d[0].0);
      }
    } else if d != [] {
      assert ([(k, v)] + d[1..])[1..] == d[1..];
    }
  }

  /** `d[k] = v` on a key not yet present appends the pair at the end. */
  lemma {:induction false} PutFresh(d: Dict, k: string, v: Value)
    requires !HasKey(d, k)
    ensures Put(d, k, v) == d + [(k, v)]
  {
    if d != [] {
      PutFresh(d[1..], k, v);
      assert [d[0]] + (d[1..] + [(k, v)]) == d + [(k, v)];
    }
  }

  lemma {:induction false} HasKeyAt(d: Dict, k: string)
    ensures HasKey(d, k) <==> exists i :: 0 <= i < |d| && d[i].0 == k
  {
    if d != [] {
      HasKeyAt(d[1..], k);
      if HasKey(d[1..], k) {
        var i :| 0 <= i < |d[1..]| && d[1..][i].0 == k;
        assert d[i + 1].0 == k;
      }
      if exists i :: 0 <= i < |d| && d[i].0 == k {
        var i :| 0 <= i < |d| && d[i].0 == k;
        if i > 0 {
          assert d[1..][i - 1].0 == k;
        }
      }
    }
  }

  /** The dict without key `k`, other pairs in their order. */
  function Remove(d: Dict, k: string): (r: Dict)
    ensures !HasKey(r, k)
    ensures forall k' :: k' != k ==> Get(r, k') == Get(d, k')
    ensures forall p :: p in r <==> p in d && p.0 != k
  {
    if d == [] then []
    else if d[0].0 == k then Remove(d[1..], k)
    else [d[0]] + Remove(d[1..], k)
  }

  /** Adding a fresh key and removing it again gives back the dict. */
  lemma {:induction false} RemovePutFresh(d: Dict, k: string, v: Value)
    requires !HasKey(d, k)
    ensures Remove(Put(d, k, v), k) == d
  {
    if d != [] {
      RemovePutFresh(d[1..], k, v);
    }
  }

  /** `d.update(e)`: every pair of `e` put in order, later ones winning. */
  function Update(d: Dict, e: Dict): (r: Dict)
    requires KeysUnique(e)
    ensures forall k :: HasKey(e, k) ==> Get(r, k) == Get(e, k)
    ensures forall k :: !HasKey(e, k) ==> Get(r, k) == Get(d, k)
    decreases |e|
  {
    if e == [] then d
    else Update(Put(d, e[0].0, e[0].1), e[1..])
  }

  /**
   * What iterating over `x` yields: the items of a list, the one-character
   * strings of a str, the keys of a dict; `None` when `x` is not iterable.
   */
  function Iterated(x: Value): (r: Option<seq<Value>>)
    ensures r.Some? <==> x.List? || x.Str? || x.Obj?
    ensures x.List? ==> r == Some(x.items)
    ensures x.Str? ==> |r.value| == |x.s| && forall i :: 0 <= i < |x.s| ==> r.value[i] == Str([x.s[i]])
    ensures x.Obj? ==> |r.value| == |x.fields| && forall i :: 0 <= i < |x.fields| ==> r.value[i] == Str(x.fields[i].0)
  {
    match x
    case List(items) => Some(items)
    case Str(s) => Some(seq(|s|, i requires 0 <= i < |s| => Str([s[i]])))
    case Obj(fields) => Some(seq(|fields|, i requires 0 <= i < |fields| => Str(fields[i].0)))
    case _ => None
  }

  /**
   * The key the model cannot hold: Python would store a non-str scalar such
   * as an int as a dict key, while a `Dict` here is keyed by strings.
   */
  const NonStrKey := "dict key is not a str"

  /** Python's `TypeError` for an element that is not iterable. */
  function NotSequence(k: nat): string
  {
    "cannot convert dictionary update sequence element #" + Strings.IntToString(k) + " to a sequence"
  }

  /** Python's `ValueError` for an element of the wrong length. */
  function WrongLength(k: nat, n: nat): string
  {
    "dictionary update sequence element #" + Strings.IntToString(k) + " has length " + Strings.IntToString(n) + "; 2 is required"
  }

  /**
   * The (key, value) pair element `#k` of a `d.update(seq)` contributes: it
   * must be iterable, of length exactly two, and its first item hashable.
   * The errors carry Python's `TypeError` and `ValueError` texts.
   */
  function UpdatePair(x: Value, k: nat): (r: Result<(string, Value)>)
    ensures r.Ok? <==> Iterated(x).Some? && |Iterated(x).value| == 2 && Iterated(x).value[0].Str?
    ensures r.Ok? ==> r.value == (Iterated(x).value[0].s, Iterated(x).value[1])
    ensures Iterated(x).None? ==> r == Err(NotSequence(k))
    ensures Iterated(x).Some? && |Iterated(x).value| != 2 ==> r == Err(WrongLength(k, |Iterated(x).value|))
  {
    match Iterated(x)
    case None => Err(NotSequence(k))
    case Some(items) =>
      if |items| != 2 then Err(WrongLength(k, |items|))
      else
        match items[0]
        case Str(key) => Ok((key, items[1]))
        case List(_) => Err("unhashable type: 'list'")
        case Obj(_) => Err("unhashable type: 'dict'")
        case _ => Err(NonStrKey)
  }

  /** `d.update(xs)` for a sequence: element by element, stopping at the first that is not a pair. */
  function UpdatePairs(d: Dict, xs: seq<Value>): (r: Result<Dict>)
  {
    if xs == [] then Ok(d)
    else
      match UpdatePairs(d, xs[..|xs| - 1])
      case Err(e) => Err(e)
      case Ok(d') =>
        match UpdatePair(xs[|xs| - 1], |xs| - 1)
        case Err(e) => Err(e)
        case Ok(p) => Ok(Put(d', p.0, p.1))
  }

  /** One step of `UpdatePairs`: the update of all but the last element, then the last pair. */
  lemma UpdatePairsStep(d: Dict, xs: seq<Value>)
    requires xs != []
    ensures UpdatePairs(d, xs).Ok? <==> UpdatePairs(d, xs[..|xs| - 1]).Ok? && UpdatePair(xs[|xs| - 1], |xs| - 1).Ok?
    ensures UpdatePairs(d, xs).Ok? ==>
      UpdatePairs(d, xs).value ==
        Put(UpdatePairs(d, xs[..|xs| - 1]).value, UpdatePair(xs[|xs| - 1], |xs| - 1).value.0, UpdatePair(xs[|xs| - 1], |xs| - 1).value.1)
    ensures UpdatePairs(d, xs[..|xs| - 1]).Err? ==> UpdatePairs(d, xs) == UpdatePairs(d, xs[..|xs| - 1])
    ensures UpdatePairs(d, xs[..|xs| - 1]).Ok? && UpdatePair(xs[|xs| - 1], |xs| - 1).Err? ==>
      UpdatePairs(d, xs) == Err(UpdatePair(xs[|xs| - 1], |xs| - 1).error)
  {
  }

  /** Every element of `xs`, numbered from 0, is a pair. */
  predicate AllPairs(xs: seq<Value>)
  {
    forall i :: 0 <= i < |xs| ==> UpdatePair(xs[i], i).Ok?
  }

  /** Every element is a pair exactly when all but the last are and the last is. */
  lemma AllPairsSnoc(xs: seq<Value>)
    requires xs != []
    ensures AllPairs(xs) <==> AllPairs(xs[..|xs| - 1]) && UpdatePair(xs[|xs| - 1], |xs| - 1).Ok?
  {
    var n := |xs| - 1;
    assert forall i :: 0 <= i < n ==> xs[..n][i] == xs[i];
  }

  /** The update goes through exactly when every element is a pair. */
  lemma {:induction false} UpdatePairsOk(d: Dict, xs: seq<Value>)
    ensures UpdatePairs(d, xs).Ok? <==> forall i :: 0 <= i < |xs| ==> UpdatePair(xs[i], i).Ok?
  {
    if xs != [] {
      UpdatePairsOk(d, xs[..|xs| - 1]);
      UpdatePairsStep(d, xs);
      AllPairsSnoc(xs);
      assert UpdatePairs(d, xs).Ok? <==> AllPairs(xs);
    }
  }

  /** A failing update reports the first element that is not a pair. */
  lemma {:induction false} UpdatePairsFirstError(d: Dict, xs: seq<Value>, i: nat)
    requires i < |xs| && UpdatePair(xs[i], i).Err?
    requires forall j :: 0 <= j < i ==> UpdatePair(xs[j], j).Ok?
    ensures UpdatePairs(d, xs) == Err(UpdatePair(xs[i], i).error)
  {
    var n := |xs| - 1;
    var front := xs[..n];
    UpdatePairsStep(d, xs);
    if i == n {
      forall j | 0 <= j < n ensures UpdatePair(front[j], j).Ok? {
        assert front[j] == xs[j];
      }
      UpdatePairsOk(d, front);
    } else {
      forall j | 0 <= j < i ensures UpdatePair(front[j], j).Ok? {
        assert front[j] == xs[j];
      }
      assert front[i] == xs[i];
      UpdatePairsFirstError(d, front, i);
    }
  }

  /** `x`, as element `#j` of an update, is a pair whose key is `key`. */
  predicate PairNames(x: Value, j: nat, key: string)
  {
    UpdatePair(x, j).Ok? && UpdatePair(x, j).value.0 == key
  }

  /** Element `i` is a pair naming `key`, and no later element is. */
  predicate LastNamer(xs: seq<Value>, key: string, i: nat)
    requires i < |xs|
  {
    PairNames(xs[i], i, key) && forall j :: i < j < |xs| ==> !PairNames(xs[j], j, key)
  }

  /** A key that no pair names keeps its old value. */
  lemma {:induction false} UpdatePairsUnnamed(d: Dict, xs: seq<Value>, key: string)
    requires UpdatePairs(d, xs).Ok?
    requires forall i :: 0 <= i < |xs| ==> !PairNames(xs[i], i, key)
    ensures Get(UpdatePairs(d, xs).value, key) == Get(d, key)
  {
    if xs != [] {
      var n := |xs| - 1;
      var front := xs[..n];
      UpdatePairsStep(d, xs);
      forall i | 0 <= i < n ensures !PairNames(front[i], i, key) {
        assert front[i] == xs[i];
      }
      UpdatePairsUnnamed(d, front, key);
      assert !PairNames(xs[n], n, key);
    }
  }

  /** A key holds the value of the last pair that names it. */
  lemma {:induction false} UpdatePairsLast(d: Dict, xs: seq<Value>, key: string, i: nat)
    requires UpdatePairs(d, xs).Ok? && i < |xs| && LastNamer(xs, key, i)
    ensures Get(UpdatePairs(d, xs).value, key) == Some(UpdatePair(xs[i], i).value.1)
  {
    var n := |xs| - 1;
    var front := xs[..n];
    UpdatePairsStep(d, xs);
    if i < n {
      assert !PairNames(xs[n], n, key);
      assert front[i] == xs[i];
      forall j | i < j < n ensures !PairNames(front[j], j, key) {
        assert front[j] == xs[j];
      }
      UpdatePairsLast(d, front, key, i);
    }
  }

  /**
   * After a successful update, a key holds the value of the last pair that
   * names it, and a key no pair names keeps its old value.
   */
  lemma UpdatePairsGet(d: Dict, xs: seq<Value>, key: string)
    requires UpdatePairs(d, xs).Ok?
    ensures forall i :: 0 <= i < |xs| ==> UpdatePair(xs[i], i).Ok?
    ensures (forall i :: 0 <= i < |xs| ==> !PairNames(xs[i], i, key)) ==> Get(UpdatePairs(d, xs).value, key) == Get(d, key)
    ensures forall i :: 0 <= i < |xs| && LastNamer(xs, key, i) ==>
      Get(UpdatePairs(d, xs).value, key) == Some(UpdatePair(xs[i], i).value.1)
  {
    UpdatePairsOk(d, xs);
    if forall i :: 0 <= i < |xs| ==> !PairNames(xs[i], i, key) {
      UpdatePairsUnnamed(d, xs, key);
    }
    forall i | 0 <= i < |xs| && LastNamer(xs, key, i)
      ensures Get(UpdatePairs(d, xs).value, key) == Some(UpdatePair(xs[i], i).value.1)
    {
      UpdatePairsLast(d, xs, key, i);
    }
  }

  /**
   * `d.update(v)` for what `json.loads` returns: a dict merges key by key; a
   * list, str or other iterable must yield pairs; anything else raises
   * Python's "object is not iterable" `TypeError`.
   */
  function UpdateWith(d: Dict, v: Value): (r: Result<Dict>)
    requires v.Obj? ==> KeysUnique(v.fields)
    ensures v.Obj? ==> r == Ok(Update(d, v.fields))
    ensures Iterated(v).None? ==> r == Err("'" + TypeLabel(v) + "' object is not iterable")
  {
    match v
    case Obj(fields) => Ok(Update(d, fields))
    case _ =>
      match Iterated(v)
      case Some(xs) => UpdatePairs(d, xs)
      case None => Err("'" + TypeLabel(v) + "' object is not iterable")
  }

  /** A list of [key, value] lists merges like a dict; an empty list or str changes nothing. */
  lemma PairListUpdate()
    ensures UpdateWith([("a", Int(1))], List([List([Str("a"), Int(2)]), List([Str("b"), Null])]))
      == Ok([("a", Int(2)), ("b", Null)])
    ensures UpdateWith([("a", Int(1))], List([])) == Ok([("a", Int(1))])
    ensures UpdateWith([("a", Int(1))], Str("")) == Ok([("a", Int(1))])
  {
    var xs := [List([Str("a"), Int(2)]), List([Str("b"), Null])];
    assert xs[..1] == [List([Str("a"), Int(2)])];
    assert xs[..1][..0] == [];
    assert UpdatePair(xs[0], 0) == Ok(("a", Int(2)));
    assert UpdatePair(xs[1], 1) == Ok(("b", Null));
    assert xs[..1][0] == xs[0];
    assert UpdatePairs([("a", Int(1))], xs[..1][..0]) == Ok([("a", Int(1))]);
    assert Put([("a", Int(1))], "a", Int(2)) == [("a", Int(2))];
    assert UpdatePairs([("a", Int(1))], xs[..1]) == Ok([("a", Int(2))]);
    assert Put([("a", Int(2))], "b", Null) == [("a", Int(2))] + Put([], "b", Null);
    assert Put([], "b", Null) == [("b", Null)];
    assert xs[..|xs| - 1] == xs[..1];
    assert xs[|xs| - 1] == xs[1];
    assert [("a", Int(2))] + [("b", Null)] == [("a", Int(2)), ("b", Null)];
    assert UpdatePair(xs[|xs| - 1], |xs| - 1) == Ok(("b", Null));
    assert UpdatePairs([("a", Int(1))], xs) == Ok([("a", Int(2)), ("b", Null)]);
    assert Iterated(List(xs)) == Some(xs);
  }

  /** A non-empty str fails on its first character, which is not a pair. */
  lemma StrUpdateFails(d: Dict, s: string)
    requires s != []
    ensures UpdateWith(d, Str(s)) == Err("dictionary update sequence element #0 has length 1; 2 is required")
  {
    var xs := Iterated(Str(s)).value;
    assert UpdateWith(d, Str(s)) == UpdatePairs(d, xs);
    assert xs[0] == Str([s[0]]);
    OneCharNotPair(s[0]);
    UpdatePairsFirstError(d, xs, 0);
  }

  /** A one-character str is an element of length one. */
  lemma OneCharNotPair(c: char)
    ensures UpdatePair(Str([c]), 0) == Err("dictionary update sequence element #0 has length 1; 2 is required")
  {
    assert |Iterated(Str([c])).value| == 1;
    FirstElementLengthOne();
  }

  lemma FirstElementLengthOne()
    ensures WrongLength(0, 1) == "dictionary update sequence element #0 has length 1; 2 is required"
  {
    Strings.SmallNumerals();
  }

  /** A Python list of ints. */
  function Ints(xs: seq<int>): (v: Value)
    ensures v.List? && |v.items| == |xs|
    ensures forall i :: 0 <= i < |xs| ==> v.items[i] == Int(xs[i])
  {
    List(seq(|xs|, i requires 0 <= i < |xs| => Int(xs[i])))
  }

  /** The list holds `Int(v)` exactly when `v` is one of the integers. */
  lemma IntsHas(xs: seq<int>, v: int)
    ensures Int(v) in Ints(xs).items <==> v in xs
  {
    var items := Ints(xs).items;
    if v in xs {
      var k :| 0 <= k < |xs| && xs[k] == v;
      assert items[k] == Int(v);
    }
    if Int(v) in items {
      var k :| 0 <= k < |items| && items[k] == Int(v);
      assert xs[k] == v;
    }
  }

  /** A Python list of strings. */
  function Strs(xs: seq<string>): (v: Value)
    ensures v.List? && |v.items| == |xs|
    ensures forall i :: 0 <= i < |xs| ==> v.items[i] == Str(xs[i])
  {
    List(seq(|xs|, i requires 0 <= i < |xs| => Str(xs[i])))
  }

  /** The strings of a list of strings; None for any other value. */
  function AsStrs(v: Value): (r: Option<seq<string>>)
    ensures r.Some? ==> v.List? && |r.value| == |v.items|
  {
    if v.List? && forall i :: 0 <= i < |v.items| ==> v.items[i].Str? then
      Some(seq(|v.items|, i requires 0 <= i < |v.items| => v.items[i].s))
    else None
  }

  lemma AsStrsStrs(xs: seq<string>)
    ensures AsStrs(Strs(xs)) == Some(xs)
  {
    assert AsStrs(Strs(xs)).value == xs;
  }

  /**
   * `str(v)` for the values whose text the model writes out: None, bools,
   * ints, strs and the non-finite floats. The shortest round-trip digits of
   * a finite float, and the repr of a list or dict, are not modelled.
   */
  function Show(v: Value): (r: Option<string>)
    ensures v.Str? ==> r == Some(v.s)
    ensures v.Int? ==> r == Some(Strings.IntToString(v.i))
    ensures r.None? <==> v.Float? || v.List? || v.Obj?
  {
    match v
    case Null => Some("None")
    case Bool(b) => Some(if b then "True" else "False")
    case Int(i) => Some(Strings.IntToString(i))
    case Inf(negative) => Some(if negative then "-inf" else "inf")
    case NaN => Some("nan")
    case Str(s) => Some(s)
    case _ => None
  }

  /** The name of `v`'s Python type. */
  function TypeLabel(v: Value): string
  {
    match v
    case Null => "NoneType"
    case Bool(_) => "bool"
    case Int(_) => "int"
    case Float(_) => "float"
    case Inf(_) => "float"
    case NaN => "float"
    case Str(_) => "str"
    case List(_) => "list"
    case Obj(_) => "dict"
  }

  /** `str(type(v))`, as Python prints it in error messages. */
  function TypeName(v: Value): string
  {
    "<class '" + TypeLabel(v) + "'>"
  }
}
