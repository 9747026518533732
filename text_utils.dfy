/**
 * `processors/text_utils.py`: the metadata `split_text` stamps on every chunk
 * the text splitter returns, and `deduplicate_highlights`, which drops a
 * highlight whose word set overlaps an already kept one by more than 60%.
 */
module TextUtils {
  import opened Wrappers
  import opened Json
  import opened Strings

  // ---------------------------------------------------------------------
  // Chunk metadata

  /** The four entries the loop body assigns to chunk `i` of `n`, in order. */
  function Stamps(i: nat, n: nat): (e: Dict)
    ensures KeysUnique(e)
  {
    var e := [("chunk_id", Int(i + 1)), ("total_chunks", Int(n)), ("is_first", Bool(i == 0)), ("is_last", Bool(i == n - 1))];
    assert KeysUnique(e[3..]) by { assert e[3..][1..] == []; }
    assert KeysUnique(e[2..]) by {
      assert e[2..][1..] == e[3..];
      KeyAbsent(e[3..], "is_first");
    }
    assert KeysUnique(e[1..]) by {
      assert e[1..][1..] == e[2..];
      KeyAbsent(e[2..], "total_chunks");
    }
    KeyAbsent(e[1..], "chunk_id");
    e
  }

  /** The metadata of chunk `i` of `n` after the loop body has run on it. */
  function ChunkMeta(m: Dict, i: nat, n: nat): Dict
  {
    Update(m, Stamps(i, n))
  }

  /**
   * Chunk `i` of `n` is numbered from 1, knows the total, is flagged first
   * only at 0 and last only at n - 1; every other metadata entry is kept.
   */
  lemma ChunkMetaFields(m: Dict, i: nat, n: nat)
    ensures var r := ChunkMeta(m, i, n);
      Get(r, "chunk_id") == Some(Int(i + 1)) &&
      Get(r, "total_chunks") == Some(Int(n)) &&
      Get(r, "is_first") == Some(Bool(i == 0)) &&
      Get(r, "is_last") == Some(Bool(i == n - 1))
    ensures forall k :: k != "chunk_id" && k != "total_chunks" && k != "is_first" && k != "is_last" ==>
      Get(ChunkMeta(m, i, n), k) == Get(m, k)
  {
    var e := Stamps(i, n);
    GetFirstAt(e, "chunk_id", 0);
    GetFirstAt(e, "total_chunks", 1);
    GetFirstAt(e, "is_first", 2);
    GetFirstAt(e, "is_last", 3);
    forall k | k != "chunk_id" && k != "total_chunks" && k != "is_first" && k != "is_last"
      ensures Get(ChunkMeta(m, i, n), k) == Get(m, k)
    {
      KeyAbsent(e, k);
    }
  }

  /**
   * The `for i, doc in enumerate(docs)` loop of `split_text`, on the metadata
   * dicts of the documents, updated in place.
   */
  method AnnotateChunks(metas: array<Dict>)
    modifies metas
    ensures forall i :: 0 <= i < metas.Length ==> metas[i] == ChunkMeta(old(metas[i]), i, metas.Length)
  {
    ghost var before := metas[..];
    ghost var after := seq(metas.Length, k requires 0 <= k < metas.Length => ChunkMeta(before[k], k, metas.Length));
    for i := 0 to metas.Length
      invariant forall k :: 0 <= k < i ==> metas[k] == after[k]
      invariant forall k :: i <= k < metas.Length ==> metas[k] == before[k]
    {
      metas[i] := ChunkMeta(metas[i], i, metas.Length);
    }
  }

  // ---------------------------------------------------------------------
  // Highlight de-duplication

  /** `set(h.lower().split())`. */
  function Words(h: string): set<string>
  {
    set w | w in SplitWs(Lower(h))
  }

  /**
   * The similarity test of the inner loop on two word sets: both non-empty
   * and `len(a & b) / len(a | b) > 0.6`, stated on integers as
   * 5·|a∩b| > 3·|a∪b|.
   */
  predicate Overlapping(a: set<string>, b: set<string>)
  {
    |a| > 0 && |b| > 0 && 5 * |a * b| > 3 * |a + b|
  }

  /** Two highlights are similar when their word sets, as `words` reads them, overlap. */
  function SimilarBy(words: string -> set<string>): (string, string) -> bool
  {
    (h, e) => Overlapping(words(h), words(e))
  }

  /** The Jaccard test does not depend on which highlight came first. */
  lemma SimilarSymmetric(words: string -> set<string>, h: string, e: string)
    ensures SimilarBy(words)(h, e) == SimilarBy(words)(e, h)
  {
    assert words(h) * words(e) == words(e) * words(h);
    assert words(h) + words(e) == words(e) + words(h);
  }

  /** A highlight without words is never similar to anything. */
  lemma WordlessNotSimilar(words: string -> set<string>, h: string, e: string)
    requires words(h) == {}
    ensures !SimilarBy(words)(h, e) && !SimilarBy(words)(e, h)
  {
    assert |words(h)| == 0;
    assert words(e) * words(h) == {};
  }

  predicate AnySimilar(h: string, kept: seq<string>, sim: (string, string) -> bool)
  {
    exists k :: 0 <= k < |kept| && sim(h, kept[k])
  }

  /** The highlights kept from `hs`, for any similarity test `sim`. */
  function DedupBy(hs: seq<string>, sim: (string, string) -> bool): (r: seq<string>)
    ensures |r| <= |hs|
  {
    if hs == [] then []
    else
      var kept := DedupBy(hs[..|hs| - 1], sim);
      var h := hs[|hs| - 1];
      if AnySimilar(h, kept, sim) then kept else kept + [h]
  }

  function Dedup(hs: seq<string>): seq<string>
  {
    DedupBy(hs, SimilarBy(Words))
  }

  /** `deduplicate_highlights`: the outer loop over the input. */
  method DeduplicateHighlights(highlights: seq<string>) returns (unique: seq<string>)
    ensures unique == Dedup(highlights)
  {
    unique := [];
    for i := 0 to |highlights|
      invariant unique == Dedup(highlights[..i])
    {
      assert highlights[..i + 1][..i] == highlights[..i];
      var h := highlights[i];
      var isUnique := IsUnique(h, unique, Words);
      if isUnique {
        unique := unique + [h];
      }
    }
    assert highlights[..|highlights|] == highlights;
  }

  /**
   * The inner loop: `h` is unique unless some kept highlight is similar to
   * it; `words` is `set(x.lower().split())`.
   */
  method IsUnique(h: string, unique: seq<string>, words: string -> set<string>) returns (isUnique: bool)
    ensures isUnique <==> !AnySimilar(h, unique, SimilarBy(words))
  {
    isUnique := true;
    var j := 0;
    while j < |unique|
      invariant 0 <= j <= |unique|
      invariant isUnique
      invariant forall k :: 0 <= k < j ==> !SimilarBy(words)(h, unique[k])
      decreases |unique| - j
    {
      var highlightWords := words(h);
      var existingWords := words(unique[j]);
      if |highlightWords| != 0 && |existingWords| != 0 &&
         5 * |highlightWords * existingWords| > 3 * |highlightWords + existingWords|
      {
        isUnique := false;
        break;
      }
      j := j + 1;
    }
  }

  /** `a` can be obtained from `b` by deleting elements. */
  predicate Subsequence(a: seq<string>, b: seq<string>)
  {
    a == [] ||
    (b != [] &&
     (Subsequence(a, b[..|b| - 1]) ||
      (a[|a| - 1] == b[|b| - 1] && Subsequence(a[..|a| - 1], b[..|b| - 1]))))
  }

  /** The kept highlights are a subsequence of the input: nothing new, order kept. */
  lemma {:induction false} DedupSubsequence(hs: seq<string>, sim: (string, string) -> bool)
    ensures Subsequence(DedupBy(hs, sim), hs)
  {
    if hs != [] {
      var init := hs[..|hs| - 1];
      DedupSubsequence(init, sim);
      var kept := DedupBy(init, sim);
      if !AnySimilar(hs[|hs| - 1], kept, sim) {
        assert (kept + [hs[|hs| - 1]])[..|kept|] == kept;
      }
    }
  }

  /** No member of `r` is similar to one before it. */
  predicate Pairwise(r: seq<string>, sim: (string, string) -> bool)
  {
    forall i, j :: 0 <= i < j < |r| ==> !sim(r[j], r[i])
  }

  /** No kept highlight is similar to one kept before it. */
  lemma {:induction false} DedupPairwise(hs: seq<string>, sim: (string, string) -> bool)
    ensures Pairwise(DedupBy(hs, sim), sim)
  {
    if hs != [] {
      var init := hs[..|hs| - 1];
      DedupPairwise(init, sim);
      var kept := DedupBy(init, sim);
      var h := hs[|hs| - 1];
      if !AnySimilar(h, kept, sim) {
        var r := kept + [h];
        forall i, j | 0 <= i < j < |r|
          ensures !sim(r[j], r[i])
        {
          if j < |kept| {
            assert r[j] == kept[j] && r[i] == kept[i];
          } else {
            assert r[j] == h && r[i] == kept[i];
          }
        }
      }
    }
  }

  /** A list whose members are pairwise dissimilar is kept whole. */
  lemma {:induction false} DedupKeepsDissimilar(hs: seq<string>, sim: (string, string) -> bool)
    requires Pairwise(hs, sim)
    ensures DedupBy(hs, sim) == hs
  {
    if hs != [] {
      var init := hs[..|hs| - 1];
      assert Pairwise(init, sim) by {
        forall i, j | 0 <= i < j < |init|
          ensures !sim(init[j], init[i])
        {
          assert init[j] == hs[j] && init[i] == hs[i];
        }
      }
      DedupKeepsDissimilar(init, sim);
      forall k | 0 <= k < |init|
        ensures !sim(hs[|hs| - 1], init[k])
      {
        assert init[k] == hs[k];
      }
      assert init + [hs[|hs| - 1]] == hs;
    }
  }

  /** Applying the de-duplication twice changes nothing more. */
  lemma DedupByIdempotent(hs: seq<string>, sim: (string, string) -> bool)
    ensures DedupBy(DedupBy(hs, sim), sim) == DedupBy(hs, sim)
  {
    DedupPairwise(hs, sim);
    DedupKeepsDissimilar(DedupBy(hs, sim), sim);
  }

  lemma DedupIdempotent(hs: seq<string>)
    ensures Dedup(Dedup(hs)) == Dedup(hs)
  {
    DedupByIdempotent(hs, SimilarBy(Words));
  }

  /** What is kept from a prefix of the input is a prefix of what is kept from all of it. */
  lemma {:induction false} DedupPrefix(hs: seq<string>, sim: (string, string) -> bool, i: nat)
    requires i <= |hs|
    ensures DedupBy(hs[..i], sim) <= DedupBy(hs, sim)
    decreases |hs| - i
  {
    if i < |hs| {
      DedupPrefix(hs, sim, i + 1);
      assert hs[..i + 1][..i] == hs[..i];
    } else {
      assert hs[..i] == hs;
    }
  }

  /** A highlight similar to nothing kept before it is kept. */
  lemma DedupKeepsUnmatched(hs: seq<string>, sim: (string, string) -> bool, i: nat)
    requires i < |hs|
    requires !AnySimilar(hs[i], DedupBy(hs[..i], sim), sim)
    ensures hs[i] in DedupBy(hs, sim)
  {
    var p := DedupBy(hs[..i + 1], sim);
    assert p == DedupBy(hs[..i], sim) + [hs[i]] by {
      var prefix := hs[..i + 1];
      assert prefix[..|prefix| - 1] == hs[..i];
      assert prefix[|prefix| - 1] == hs[i];
    }
    DedupPrefix(hs, sim, i + 1);
    assert DedupBy(hs, sim)[|p| - 1] == hs[i];
  }

  /** A highlight that is not kept was similar to one kept before it. */
  lemma {:induction false} DedupDrops(hs: seq<string>, sim: (string, string) -> bool, i: nat)
    requires i < |hs|
    requires hs[i] !in DedupBy(hs, sim)
    ensures AnySimilar(hs[i], DedupBy(hs[..i], sim), sim)
  {
    if !AnySimilar(hs[i], DedupBy(hs[..i], sim), sim) {
      DedupKeepsUnmatched(hs, sim, i);
    }
  }

  /** Highlights without words, and the first highlight, are always kept. */
  lemma DedupKeeps(hs: seq<string>, i: nat)
    requires i < |hs|
    requires i == 0 || Words(hs[i]) == {}
    ensures hs[i] in Dedup(hs)
  {
    var kept := Dedup(hs[..i]);
    if i == 0 {
      assert hs[..i] == [];
    } else {
      forall k | 0 <= k < |kept|
        ensures !SimilarBy(Words)(hs[i], kept[k])
      {
        WordlessNotSimilar(Words, hs[i], kept[k]);
      }
    }
    DedupKeepsUnmatched(hs, SimilarBy(Words), i);
  }
}
