/** VectorStoreService: an in-memory exact nearest-neighbour store. It keeps
    the chunk texts and, position for position, their embeddings in a flat
    L2 index; a search scans every stored vector and returns the entries
    with the smallest squared Euclidean distance. Vectors are sequences of
    reals (float32 rounding is not modelled). */
module VectorStore {
  import opened Wrappers

  type Vector = seq<real>

  /** What add_documents receives per entry: {'text': ..., 'embedding': ...}. */
  datatype IndexEntry = IndexEntry(text: string, embedding: Vector)

  /** What search returns per entry: {'text': ..., 'score': ...}. */
  datatype Hit = Hit(text: string, score: real)

  /** FAISS's placeholder distance for the slots it pads with label -1. */
  const FLT_MAX: real := 340282346638528859811704183484516925440.0

  /** The squared Euclidean distance that IndexFlatL2 reports. */
  function SqDist(a: Vector, b: Vector): (d: real)
    requires |a| == |b|
    ensures d >= 0.0
  {
    if |a| == 0 then 0.0
    else
      var t := a[0] - b[0];
      t * t + SqDist(a[1..], b[1..])
  }

  predicate SameDimension(vecs: seq<Vector>, dimension: nat)
  {
    forall i :: 0 <= i < |vecs| ==> |vecs[i]| == dimension
  }

  /** The distance of the query to every stored vector, in storage order. */
  function Distances(vecs: seq<Vector>, q: Vector): (d: seq<real>)
    requires SameDimension(vecs, |q|)
    ensures |d| == |vecs|
    ensures forall i :: 0 <= i < |vecs| ==> d[i] == SqDist(q, vecs[i])
  {
    seq(|vecs|, i requires 0 <= i < |vecs| => SqDist(q, vecs[i]))
  }

  function Texts(entries: seq<IndexEntry>): (r: seq<string>)
    ensures |r| == |entries| && forall i :: 0 <= i < |entries| ==> r[i] == entries[i].text
  {
    seq(|entries|, i requires 0 <= i < |entries| => entries[i].text)
  }

  function Embeddings(entries: seq<IndexEntry>): (r: seq<Vector>)
    ensures |r| == |entries| && forall i :: 0 <= i < |entries| ==> r[i] == entries[i].embedding
  {
    seq(|entries|, i requires 0 <= i < |entries| => entries[i].embedding)
  }

  // ------------------------------------------------- ranking specification

  predicate InRange(ids: seq<nat>, n: nat)
  {
    forall a :: 0 <= a < |ids| ==> ids[a] < n
  }

  predicate Distinct(ids: seq<nat>)
  {
    forall a, b :: 0 <= a < b < |ids| ==> ids[a] != ids[b]
  }

  /** Non-decreasing distance along `ids`. */
  predicate SortedBy(d: seq<real>, ids: seq<nat>)
    requires InRange(ids, |d|)
  {
    forall a, b :: 0 <= a < b < |ids| ==> d[ids[a]] <= d[ids[b]]
  }

  /** No entry left out of `ids` (among the first `n`) is closer than one in it. */
  predicate NoneCloserOutside(d: seq<real>, ids: seq<nat>, n: nat)
    requires InRange(ids, |d|) && n <= |d|
  {
    forall j, a :: 0 <= j < n && j !in ids && 0 <= a < |ids| ==> d[ids[a]] <= d[j]
  }

  /** `ids` are k nearest entries for the distances `d`: min(N, k) distinct
      positions, closest first, none left out closer than one chosen. Ties
      may be broken either way. */
  predicate Ranked(d: seq<real>, k: nat, ids: seq<nat>)
  {
    && |ids| == Min(|d|, k)
    && InRange(ids, |d|)
    && Distinct(ids)
    && SortedBy(d, ids)
    && NoneCloserOutside(d, ids, |d|)
  }

  // ------------------------------------------------------- flat L2 search

  /** Insert position `i` into a list kept sorted by distance (after the
      entries at the same distance). */
  function InsertByDistance(d: seq<real>, best: seq<nat>, i: nat): (r: seq<nat>)
    requires i < |d| && InRange(best, |d|)
    ensures |r| == |best| + 1
    ensures forall x :: x in r <==> x in best || x == i
  {
    if best == [] then [i]
    else if d[i] < d[best[0]] then [i] + best
    else
      assert forall m :: 0 <= m < |best[1..]| ==> best[1..][m] == best[m + 1];
      [best[0]] + InsertByDistance(d, best[1..], i)
  }

  /** Inserting keeps the list in range and sorted by distance. */
  lemma {:induction false} InsertKeepsSorted(d: seq<real>, best: seq<nat>, i: nat)
    requires i < |d| && InRange(best, |d|) && SortedBy(d, best)
    ensures InRange(InsertByDistance(d, best, i), |d|)
    ensures SortedBy(d, InsertByDistance(d, best, i))
  {
    var r := InsertByDistance(d, best, i);
    if best == [] {
    } else if d[i] < d[best[0]] {
      SortedInFront(d, best, i);
    } else {
      var tail := best[1..];
      assert forall m :: 0 <= m < |tail| ==> tail[m] == best[m + 1];
      InsertKeepsSorted(d, tail, i);
      SortedBehindHead(d, best[0], tail, InsertByDistance(d, tail, i), i);
    }
  }

  /** A position closer than the current head may go first. */
  lemma SortedInFront(d: seq<real>, best: seq<nat>, i: nat)
    requires i < |d| && InRange(best, |d|) && SortedBy(d, best)
    requires best != [] && d[i] < d[best[0]]
    ensures InRange([i] + best, |d|) && SortedBy(d, [i] + best)
  {
    var r := [i] + best;
    forall a, b | 0 <= a < b < |r|
      ensures d[r[a]] <= d[r[b]]
    {
      assert r[b] == best[b - 1];
      if a > 0 {
        assert r[a] == best[a - 1];
      } else if b > 1 {
        assert d[best[0]] <= d[best[b - 1]];
      }
    }
  }

  /** A head no farther than everything behind it stays in front of a sorted rest. */
  lemma SortedBehindHead(d: seq<real>, h: nat, tail: seq<nat>, rest: seq<nat>, i: nat)
    requires h < |d| && i < |d| && d[h] <= d[i]
    requires InRange(tail, |d|) && forall m :: 0 <= m < |tail| ==> d[h] <= d[tail[m]]
    requires InRange(rest, |d|) && SortedBy(d, rest)
    requires forall x :: x in rest <==> x in tail || x == i
    ensures InRange([h] + rest, |d|) && SortedBy(d, [h] + rest)
  {
    var r := [h] + rest;
    forall a, b | 0 <= a < b < |r|
      ensures d[r[a]] <= d[r[b]]
    {
      assert r[b] == rest[b - 1];
      if a > 0 {
        assert r[a] == rest[a - 1];
      } else {
        assert rest[b - 1] in rest;
        if rest[b - 1] != i {
          var m :| 0 <= m < |tail| && tail[m] == rest[b - 1];
        }
      }
    }
  }

  /** Inserting a new position keeps the list free of duplicates. */
  lemma {:induction false} InsertKeepsDistinct(d: seq<real>, best: seq<nat>, i: nat)
    requires i < |d| && InRange(best, |d|) && i !in best && Distinct(best)
    ensures Distinct(InsertByDistance(d, best, i))
  {
    var r := InsertByDistance(d, best, i);
    if best != [] && d[i] < d[best[0]] {
      assert forall b :: 0 < b < |r| ==> r[b] == best[b - 1];
    } else if best != [] {
      var tail := best[1..];
      assert forall m :: 0 <= m < |tail| ==> tail[m] == best[m + 1];
      InsertKeepsDistinct(d, tail, i);
      var rest := InsertByDistance(d, tail, i);
      assert forall b :: 0 <= b < |rest| ==> rest[b] in rest;
      assert best[0] !in tail;
      assert forall b :: 0 < b < |r| ==> r[b] == rest[b - 1];
    }
  }

  lemma MembersInRange(ids: seq<nat>, n: nat)
    requires InRange(ids, n)
    ensures forall x :: x in ids ==> x < n
  {
    forall x | x in ids ensures x < n {
      var a :| 0 <= a < |ids| && ids[a] == x;
    }
  }

  /** Dropping the farthest of k + 1 candidates keeps the invariant of the scan. */
  lemma KeepNearest(d: seq<real>, best: seq<nat>, i: nat, grown: seq<nat>, k: nat)
    requires i < |d| && InRange(best, i) && Distinct(best) && SortedBy(d, best)
    requires NoneCloserOutside(d, best, i)
    requires |grown| == k + 1 && InRange(grown, |d|) && Distinct(grown) && SortedBy(d, grown)
    requires forall x :: x in grown <==> x in best || x == i
    ensures InRange(grown[..k], i + 1) && Distinct(grown[..k]) && SortedBy(d, grown[..k])
    ensures NoneCloserOutside(d, grown[..k], i + 1)
  {
    var kept := grown[..k];
    assert grown == kept + [grown[k]];
    MembersInRange(best, i);
    forall a | 0 <= a < k ensures kept[a] < i + 1 {
      assert grown[a] in grown;
    }
    forall j, a | 0 <= j < i + 1 && j !in kept && 0 <= a < |kept|
      ensures d[kept[a]] <= d[j]
    {
      if j in grown {
        assert j == grown[k];
      } else if kept[a] != i {
        assert kept[a] in best;
      } else {
        assert grown[k] != i;
        assert grown[k] in best;
        assert d[kept[a]] <= d[grown[k]];
      }
    }
  }

  /** IndexFlatL2.search for one query: k labels and distances, the first
      min(N, k) ranked, the rest padded with label -1. */
  method FlatL2Search(vecs: seq<Vector>, q: Vector, k: nat) returns (distances: seq<real>, labels: seq<int>, ghost ids: seq<nat>)
    requires k > 0 && SameDimension(vecs, |q|)
    ensures |distances| == |labels| == k
    ensures Ranked(Distances(vecs, q), k, ids)
    ensures forall p :: 0 <= p < |ids| ==> labels[p] == ids[p] && distances[p] == SqDist(q, vecs[ids[p]])
    ensures forall p :: |ids| <= p < k ==> labels[p] == -1
  {
    var d := Distances(vecs, q);
    var best: seq<nat> := [];
    for i := 0 to |vecs|
      invariant |best| == Min(i, k)
      invariant InRange(best, i) && Distinct(best) && SortedBy(d, best)
      invariant NoneCloserOutside(d, best, i)
      invariant |best| < k ==> forall j :: 0 <= j < i ==> j in best
    {
      assert i !in best;
      var grown := InsertByDistance(d, best, i);
      InsertKeepsSorted(d, best, i);
      InsertKeepsDistinct(d, best, i);
      if |grown| > k {
        KeepNearest(d, best, i, grown, k);
        best := grown[..k];
      } else {
        MembersInRange(best, i);
        assert forall a :: 0 <= a < |grown| ==> grown[a] in grown;
        best := grown;
      }
    }
    labels, distances := [], [];
    for p := 0 to k
      invariant |labels| == |distances| == p
      invariant forall t :: 0 <= t < p && t < |best| ==> labels[t] == best[t] && distances[t] == d[best[t]]
      invariant forall t :: |best| <= t < p ==> labels[t] == -1
    {
      if p < |best| {
        labels, distances := labels + [best[p]], distances + [d[best[p]]];
      } else {
        labels, distances := labels + [-1], distances + [FLT_MAX];
      }
    }
    ids := best;
  }

  // ---------------------------------------------------------- the service

  class VectorStoreService {
    const dimension: nat
    /** The chunk texts, in insertion order. */
    var documentChunks: seq<string>
    /** The vectors held by the flat L2 index; its ntotal is |index|. */
    var index: seq<Vector>

    /** Text i belongs to vector i, and every vector has the index's dimension. */
    ghost predicate Valid()
      reads this
    {
      |documentChunks| == |index| && SameDimension(index, dimension)
    }

    /** __init__: an empty index of the given dimension. */
    constructor (dimension: nat)
      ensures Valid()
      ensures this.dimension == dimension && documentChunks == [] && index == []
    {
      this.dimension := dimension;
      documentChunks := [];
      index := [];
    }

    /** add_documents: appends the texts and the embeddings in input order;
        an empty list changes nothing. */
    method AddDocuments(documents: seq<IndexEntry>)
      requires Valid()
      requires SameDimension(Embeddings(documents), dimension)
      modifies this
      ensures Valid()
      ensures documentChunks == old(documentChunks) + Texts(documents)
      ensures index == old(index) + Embeddings(documents)
    {
      if |documents| == 0 {
        assert Texts(documents) == [] && Embeddings(documents) == [];
        assert documentChunks + [] == documentChunks && index + [] == index;
        return;
      }
      documentChunks := documentChunks + Texts(documents);
      index := index + Embeddings(documents);
    }

    /** search: the min(N, top_k) nearest stored entries, closest first, each
        with its own text and its squared distance; [] on an empty index. */
    method Search(queryEmbedding: Vector, topK: nat) returns (results: seq<Hit>, ghost ids: seq<nat>)
      requires Valid()
      requires topK > 0
      requires |index| > 0 ==> |queryEmbedding| == dimension
      ensures |index| == 0 ==> results == []
      ensures |index| > 0 ==> Ranked(Distances(index, queryEmbedding), topK, ids)
      ensures |results| == |ids| == Min(|index|, topK)
      ensures forall j :: 0 <= j < |results| ==>
        ids[j] < |index| && results[j] == Hit(documentChunks[ids[j]], SqDist(queryEmbedding, index[ids[j]]))
    {
      if |index| == 0 {
        return [], [];
      }
      var distances, labels;
      distances, labels, ids := FlatL2Search(index, queryEmbedding, topK);
      results := [];
      for p := 0 to |labels|
        invariant |results| == Min(p, |ids|)
        invariant forall j :: 0 <= j < |results| ==>
          results[j] == Hit(documentChunks[ids[j]], SqDist(queryEmbedding, index[ids[j]]))
      {
        if labels[p] != -1 {
          results := results + [Hit(documentChunks[labels[p]], distances[p])];
        }
      }
    }
  }

  // ------------------------------------------------- building and asking

  /** The text of the assertion FAISS raises for a vector of the wrong width:
      it carries no message. */
  const DIMENSION_MISMATCH: string := ""

  /** zip(chunks, embeddings) as index entries: entry i pairs chunk i with
      embedding i, as far as the shorter list goes. */
  function PairEntries(chunks: seq<string>, embeddings: seq<Vector>): (r: seq<IndexEntry>)
    ensures |r| == Min(|chunks|, |embeddings|)
    ensures Texts(r) == chunks[..|r|] && Embeddings(r) == embeddings[..|r|]
  {
    var n := Min(|chunks|, |embeddings|);
    var r := seq(n, i requires 0 <= i < n => IndexEntry(chunks[i], embeddings[i]));
    assert Texts(r) == chunks[..n];
    assert Embeddings(r) == embeddings[..n];
    r
  }

  /** The texts of the chosen entries, in the chosen order. */
  function TextsAt(entries: seq<IndexEntry>, ids: seq<nat>): (r: seq<string>)
    requires InRange(ids, |entries|)
    ensures |r| == |ids| && forall j :: 0 <= j < |ids| ==> r[j] == entries[ids[j]].text
  {
    seq(|ids|, j requires 0 <= j < |ids| => entries[ids[j]].text)
  }

  /** `ids` are k nearest entries to the query. */
  ghost predicate Retrieved(entries: seq<IndexEntry>, query: Vector, k: nat, ids: seq<nat>)
  {
    SameDimension(Embeddings(entries), |query|) && Ranked(Distances(Embeddings(entries), query), k, ids)
  }

  /** A new store of the given dimension holding the entries. */
  method StoreOf(dimension: nat, entries: seq<IndexEntry>) returns (store: VectorStoreService)
    requires SameDimension(Embeddings(entries), dimension)
    ensures fresh(store) && store.Valid() && store.dimension == dimension
    ensures store.documentChunks == Texts(entries) && store.index == Embeddings(entries)
  {
    store := new VectorStoreService(dimension);
    store.AddDocuments(entries);
    assert [] + Texts(entries) == Texts(entries) && [] + Embeddings(entries) == Embeddings(entries);
  }

  // -------------------------------------------------------------- lemmas

  /** Scores of ranked results never decrease. */
  lemma RankedScoresNonDecreasing(d: seq<real>, k: nat, ids: seq<nat>, a: nat, b: nat)
    requires Ranked(d, k, ids) && a <= b < |ids|
    ensures d[ids[a]] <= d[ids[b]]
  {
  }

  function SetOf(ids: seq<nat>): (r: set<nat>)
    ensures forall x :: x in r <==> x in ids
  {
    set x | x in ids
  }

  lemma {:induction false} DistinctSetSize(ids: seq<nat>)
    requires Distinct(ids)
    ensures |SetOf(ids)| == |ids|
  {
    if ids != [] {
      var init := ids[..|ids| - 1];
      assert ids == init + [ids[|ids| - 1]];
      assert ids[|ids| - 1] !in init;
      DistinctSetSize(init);
      assert ids[|ids| - 1] !in SetOf(init);
      assert SetOf(ids) == SetOf(init) + {ids[|ids| - 1]};
    }
  }

  /** The positions 0 .. n-1 as a set. */
  function Range(n: nat): (r: set<nat>)
    ensures forall x: int :: x in r <==> 0 <= x < n
    ensures |r| == n
  {
    if n == 0 then {} else Range(n - 1) + {n - 1}
  }

  /** When k is at least N, a ranked result holds every stored entry. */
  lemma RankedTakesAllWhenFew(d: seq<real>, k: nat, ids: seq<nat>)
    requires Ranked(d, k, ids) && |d| <= k
    ensures forall i :: 0 <= i < |d| ==> i in ids
  {
    var chosen := SetOf(ids);
    var all := Range(|d|);
    DistinctSetSize(ids);
    assert chosen <= all;
    assert all == chosen + (all - chosen);
    assert chosen * (all - chosen) == {};
    assert |all - chosen| == 0;
    forall i | 0 <= i < |d| ensures i in ids {
      assert i in all;
      assert i !in all - chosen;
    }
  }
}
