/**
 * Rows ordered newest first by a date column: Python's stable
 * `sorted(rows, key=lambda x: x.get(field, ''), reverse=True)`, which the
 * e-mail workflow uses, and the database's `ORDER BY field DESC`.
 * Dates are ISO-8601 text, so comparing them as strings orders them in time.
 */
module Ordering {
  import opened Wrappers
  import opened Json

  /** Python's `a <= b` on strings: lexicographic by code point. */
  predicate StrLe(a: string, b: string)
  {
    a == [] || (b != [] && (a[0] < b[0] || (a[0] == b[0] && StrLe(a[1..], b[1..]))))
  }

  lemma {:induction false} StrLeRefl(a: string)
    ensures StrLe(a, a)
  {
    if a != [] {
      StrLeRefl(a[1..]);
    }
  }

  lemma {:induction false} StrLeTotal(a: string, b: string)
    ensures StrLe(a, b) || StrLe(b, a)
  {
    if a != [] && b != [] && a[0] == b[0] {
      StrLeTotal(a[1..], b[1..]);
    }
  }

  lemma {:induction false} StrLeTrans(a: string, b: string, c: string)
    requires StrLe(a, b) && StrLe(b, c)
    ensures StrLe(a, c)
  {
    if a != [] && b != [] && c != [] && a[0] == b[0] && b[0] == c[0] {
      StrLeTrans(a[1..], b[1..], c[1..]);
    }
  }

  /** `x.get(field, '')`. */
  function DateOf(e: Dict, field: string): Value
  {
    GetOr(e, field, Str(""))
  }

  /** The sort key as a string ("" where it is not one). */
  function Key(e: Dict, field: string): string
  {
    if DateOf(e, field).Str? then DateOf(e, field).s else ""
  }

  predicate DatesAreText(eps: seq<Dict>, field: string)
  {
    forall i :: 0 <= i < |eps| ==> DateOf(eps[i], field).Str?
  }

  /** Newest first: every episode's key is at least that of every later one. */
  predicate NewestFirst(eps: seq<Dict>, field: string)
  {
    forall i, j :: 0 <= i < j < |eps| ==> StrLe(Key(eps[j], field), Key(eps[i], field))
  }

  /** Places `x` after every episode whose key is not smaller, so equal keys keep their order. */
  function Insert(x: Dict, s: seq<Dict>, field: string): (r: seq<Dict>)
    ensures |r| == |s| + 1
  {
    if s == [] then [x]
    else if StrLe(Key(x, field), Key(s[|s| - 1], field)) then s + [x]
    else Insert(x, s[..|s| - 1], field) + [s[|s| - 1]]
  }

  /** A stable sort by `field`, greatest key first: Python's `sorted(..., key=..., reverse=True)`. */
  function SortNewestFirst(eps: seq<Dict>, field: string): (r: seq<Dict>)
    ensures |r| == |eps|
  {
    if eps == [] then [] else Insert(eps[|eps| - 1], SortNewestFirst(eps[..|eps| - 1], field), field)
  }

  lemma {:induction false} InsertPerm(x: Dict, s: seq<Dict>, field: string)
    ensures multiset(Insert(x, s, field)) == multiset(s) + multiset{x}
  {
    if s != [] && !StrLe(Key(x, field), Key(s[|s| - 1], field)) {
      InsertPerm(x, s[..|s| - 1], field);
      assert s == s[..|s| - 1] + [s[|s| - 1]];
    }
  }

  /** Every key in `Insert(x, s)` is the key of `x` or of an element of `s`. */
  lemma {:induction false} InsertKeys(x: Dict, s: seq<Dict>, field: string, k: nat)
    requires k < |s| + 1
    ensures Insert(x, s, field)[k] == x || Insert(x, s, field)[k] in s
  {
    InsertPerm(x, s, field);
    assert Insert(x, s, field)[k] in multiset(Insert(x, s, field));
  }

  lemma {:induction false} InsertNewestFirst(x: Dict, s: seq<Dict>, field: string)
    requires NewestFirst(s, field)
    ensures NewestFirst(Insert(x, s, field), field)
  {
    if s != [] {
      var last := s[|s| - 1];
      var init := s[..|s| - 1];
      if StrLe(Key(x, field), Key(last, field)) {
        var r := s + [x];
        forall i, j | 0 <= i < j < |r|
          ensures StrLe(Key(r[j], field), Key(r[i], field))
        {
          if j == |s| && i < |s| - 1 {
            StrLeTrans(Key(x, field), Key(last, field), Key(s[i], field));
          }
        }
      } else {
        StrLeTotal(Key(x, field), Key(last, field));
        InsertNewestFirst(x, init, field);
        var r0 := Insert(x, init, field);
        var r := r0 + [last];
        forall i, j | 0 <= i < j < |r|
          ensures StrLe(Key(r[j], field), Key(r[i], field))
        {
          if j == |r0| {
            InsertKeys(x, init, field, i);
            if r0[i] != x {
              var p :| 0 <= p < |init| && init[p] == r0[i];
              assert s[p] == init[p];
            }
          }
        }
      }
    }
  }

  /** The sorted candidates are the same episodes, newest first. */
  lemma {:induction false} SortNewestFirstSound(eps: seq<Dict>, field: string)
    ensures NewestFirst(SortNewestFirst(eps, field), field)
    ensures multiset(SortNewestFirst(eps, field)) == multiset(eps)
  {
    if eps != [] {
      var init := eps[..|eps| - 1];
      SortNewestFirstSound(init, field);
      InsertNewestFirst(eps[|eps| - 1], SortNewestFirst(init, field), field);
      InsertPerm(eps[|eps| - 1], SortNewestFirst(init, field), field);
      assert eps == init + [eps[|eps| - 1]];
    }
  }

  /** Where every key is the same the stable sort keeps the order it was given. */
  lemma {:induction false} SortSameKeyKeepsOrder(eps: seq<Dict>, field: string)
    requires forall i :: 0 <= i < |eps| ==> Key(eps[i], field) == ""
    ensures SortNewestFirst(eps, field) == eps
  {
    if eps != [] {
      var init := eps[..|eps| - 1];
      SortSameKeyKeepsOrder(init, field);
      if init != [] {
        assert Key(init[|init| - 1], field) == "";
      }
      assert init + [eps[|eps| - 1]] == eps;
    }
  }
}
