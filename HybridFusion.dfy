/** The result fusion of the hybrid engine (`_combine_results`,
    server/hybrid_search.py): two ranked lists are merged into one entry per
    chunk id, each entry scored as a weighted sum of its (optionally
    max-normalised) full-text and vector scores, and the entries are sorted
    by that combined score, highest first. */
module HybridFusion {
  import opened Wrappers
  import opened SearchModels
  import opened Collections

  /** Fusion settings: the two weights, whether scores are normalised, and
      the divisor each list's scores are normalised by. */
  datatype Fusion = Fusion(
    ftsWeight: real,
    semanticWeight: real,
    normalize: bool,
    ftsNormalizer: real,
    vectorNormalizer: real)

  function FtsScores(items: seq<SearchResultItem>): (xs: seq<real>)
    ensures |xs| == |items| && forall i :: 0 <= i < |items| ==> xs[i] == ScoreOr0(items[i].ftsScore)
  {
    seq(|items|, i requires 0 <= i < |items| => ScoreOr0(items[i].ftsScore))
  }

  function VectorScores(items: seq<SearchResultItem>): (xs: seq<real>)
    ensures |xs| == |items| && forall i :: 0 <= i < |items| ==> xs[i] == ScoreOr0(items[i].vectorScore)
  {
    seq(|items|, i requires 0 <= i < |items| => ScoreOr0(items[i].vectorScore))
  }

  /** The divisor of a list's scores: its maximum when normalising a
      non-empty list whose maximum is positive, and 1 otherwise. */
  function Normalizer(scores: seq<real>, normalize: bool): (n: real)
    ensures n > 0.0
    ensures normalize && |scores| > 0 && MaxOf(scores) > 0.0 ==> n == MaxOf(scores)
    ensures !(normalize && |scores| > 0 && MaxOf(scores) > 0.0) ==> n == 1.0
  {
    if |scores| > 0 && normalize then
      var m := MaxOf(scores);
      if m > 0.0 then m else 1.0
    else 1.0
  }

  /** `(score or 0) / normalizer if normalize_scores else (score or 0)` */
  function Normalized(score: Option<real>, normalizer: real, normalize: bool): real
    requires normalizer > 0.0
  {
    if normalize then ScoreOr0(score) / normalizer else ScoreOr0(score)
  }

  function FusionOf(fts: seq<SearchResultItem>, vec: seq<SearchResultItem>, ftsWeight: real, semanticWeight: real, normalize: bool): (f: Fusion)
    ensures f.ftsNormalizer > 0.0 && f.vectorNormalizer > 0.0
  {
    Fusion(ftsWeight, semanticWeight, normalize,
           Normalizer(FtsScores(fts), normalize), Normalizer(VectorScores(vec), normalize))
  }

  lemma RatioInUnitInterval(x: real, n: real)
    requires 0.0 <= x <= n && n > 0.0
    ensures 0.0 <= x / n <= 1.0
  {
  }

  /** With normalisation on and no negative score, every normalised score of
      the list lies in [0, 1]. */
  lemma NormalizedInUnitInterval(scores: seq<real>, k: int)
    requires 0 <= k < |scores|
    requires forall i :: 0 <= i < |scores| ==> scores[i] >= 0.0
    ensures 0.0 <= Normalized(Some(scores[k]), Normalizer(scores, true), true) <= 1.0
  {
    var m := MaxOf(scores);
    if m > 0.0 {
      RatioInUnitInterval(scores[k], m);
    } else {
      assert scores[k] <= m;
    }
  }

  function ChunkIds(items: seq<SearchResultItem>): (ids: seq<string>)
    ensures |ids| == |items| && forall i :: 0 <= i < |items| ==> ids[i] == items[i].chunkId
  {
    seq(|items|, i requires 0 <= i < |items| => items[i].chunkId)
  }

  lemma ChunkIdsSnoc(s: seq<SearchResultItem>, n: nat)
    requires n < |s|
    ensures ChunkIds(s[..n + 1]) == ChunkIds(s[..n]) + [s[n].chunkId]
  {
  }

  /** The position of the last item with chunk id `c`, or -1. */
  function LastIndex(s: seq<SearchResultItem>, c: string): (k: int)
    ensures -1 <= k < |s|
    ensures k >= 0 ==> s[k].chunkId == c
  {
    if |s| == 0 then -1
    else if s[|s| - 1].chunkId == c then |s| - 1
    else LastIndex(s[..|s| - 1], c)
  }

  /** The position of the first item with chunk id `c`, or -1. */
  function FirstIndex(s: seq<SearchResultItem>, c: string): (k: int)
    ensures -1 <= k < |s|
    ensures k >= 0 ==> s[k].chunkId == c
  {
    if |s| == 0 then -1
    else
      var k := FirstIndex(s[..|s| - 1], c);
      if k >= 0 then k else if s[|s| - 1].chunkId == c then |s| - 1 else -1
  }

  /** Both searches find an item exactly when the id occurs, and find the
      last and the first occurrence respectively. */
  lemma {:induction false} IndexFound(s: seq<SearchResultItem>, c: string)
    ensures LastIndex(s, c) >= 0 <==> c in ChunkIds(s)
    ensures FirstIndex(s, c) >= 0 <==> c in ChunkIds(s)
    ensures forall j :: LastIndex(s, c) < j < |s| ==> s[j].chunkId != c
    ensures forall j :: 0 <= j < FirstIndex(s, c) ==> s[j].chunkId != c
    ensures FirstIndex(s, c) < 0 ==> forall j :: 0 <= j < |s| ==> s[j].chunkId != c
  {
    if |s| > 0 {
      var t := s[..|s| - 1];
      IndexFound(t, c);
      assert ChunkIds(s) == ChunkIds(t) + [s[|s| - 1].chunkId];
    }
  }

  lemma IndicesOfSnoc(s: seq<SearchResultItem>, n: nat, c: string)
    requires n < |s|
    ensures LastIndex(s[..n + 1], c) == if s[n].chunkId == c then n else LastIndex(s[..n], c)
    ensures FirstIndex(s[..n + 1], c) ==
              if FirstIndex(s[..n], c) >= 0 then FirstIndex(s[..n], c)
              else if s[n].chunkId == c then n else -1
  {
    assert s[..n + 1][..n] == s[..n];
  }

  /** The normalised full-text score of the LAST full-text item with id `c`
      (a later duplicate replaces an earlier one), or 0 when there is none. */
  function FtsPart(fts: seq<SearchResultItem>, c: string, f: Fusion): real
    requires f.ftsNormalizer > 0.0
  {
    var k := LastIndex(fts, c);
    if k >= 0 then Normalized(fts[k].ftsScore, f.ftsNormalizer, f.normalize) else 0.0
  }

  /** The normalised vector score of the LAST vector item with id `c`, or 0. */
  function VectorPart(vec: seq<SearchResultItem>, c: string, f: Fusion): real
    requires f.vectorNormalizer > 0.0
  {
    var k := LastIndex(vec, c);
    if k >= 0 then Normalized(vec[k].vectorScore, f.vectorNormalizer, f.normalize) else 0.0
  }

  /** The distance of the LAST vector item with id `c`, or None. */
  function DistanceFor(vec: seq<SearchResultItem>, c: string): Option<real> {
    var k := LastIndex(vec, c);
    if k >= 0 then vec[k].distance else None
  }

  /** The item whose descriptive fields the entry keeps: the LAST full-text
      item with id `c`, else the FIRST vector item with it. */
  function BaseItem(fts: seq<SearchResultItem>, vec: seq<SearchResultItem>, c: string): (item: SearchResultItem)
    requires c in ChunkIds(fts) || c in ChunkIds(vec)
    ensures item.chunkId == c
  {
    IndexFound(fts, c);
    IndexFound(vec, c);
    var k := LastIndex(fts, c);
    if k >= 0 then fts[k] else vec[FirstIndex(vec, c)]
  }

  /** A new entry built from a search result: its descriptive fields with
      the given scores and distance (the `SearchResultItem(...)` calls of the
      two loops). */
  function Rescored(base: SearchResultItem, ftsScore: real, vectorScore: real, distance: Option<real>, combined: real): SearchResultItem {
    base.(ftsScore := Some(ftsScore), vectorScore := Some(vectorScore), distance := distance, combinedScore := Some(combined))
  }

  /** An existing entry updated in place by a later vector match. */
  function WithVectorMatch(entry: SearchResultItem, vectorScore: real, distance: Option<real>, combined: real): SearchResultItem {
    entry.(vectorScore := Some(vectorScore), distance := distance, combinedScore := Some(combined))
  }

  /** The fused entry for chunk id `c`, stated per chunk rather than per loop
      step: the base item with the two normalised scores, the distance of the
      vector match, and the weighted sum as combined score. */
  function FusedItem(fts: seq<SearchResultItem>, vec: seq<SearchResultItem>, c: string, f: Fusion): (item: SearchResultItem)
    requires f.ftsNormalizer > 0.0 && f.vectorNormalizer > 0.0
    requires c in ChunkIds(fts) || c in ChunkIds(vec)
    ensures item.chunkId == c
  {
    var nf := FtsPart(fts, c, f);
    var nv := VectorPart(vec, c, f);
    Rescored(BaseItem(fts, vec, c), nf, nv, DistanceFor(vec, c), Weighted(nf, nv, f))
  }

  /** The combined score of a full-text and a vector score. */
  function Weighted(nf: real, nv: real, f: Fusion): real {
    nf * f.ftsWeight + nv * f.semanticWeight
  }

  /** A chunk missing from one list contributes only the other weighted
      score. */
  lemma WeightedOneSided(score: real, f: Fusion)
    ensures Weighted(score, 0.0, f) == score * f.ftsWeight
    ensures Weighted(0.0, score, f) == score * f.semanticWeight
  {
  }

  /** A chunk found only by full-text search keeps the fields of its last
      full-text match, gets vector score 0 and no distance, and its combined
      score is the weighted full-text score alone. */
  lemma FtsOnlyEntry(fts: seq<SearchResultItem>, vec: seq<SearchResultItem>, c: string, f: Fusion)
    requires f.ftsNormalizer > 0.0 && f.vectorNormalizer > 0.0
    requires c in ChunkIds(fts) && c !in ChunkIds(vec)
    ensures LastIndex(fts, c) >= 0
    ensures FtsPart(fts, c, f) == Normalized(fts[LastIndex(fts, c)].ftsScore, f.ftsNormalizer, f.normalize)
    ensures FusedItem(fts, vec, c, f) ==
      Rescored(fts[LastIndex(fts, c)], FtsPart(fts, c, f), 0.0, None, Weighted(FtsPart(fts, c, f), 0.0, f))
  {
    IndexFound(fts, c);
    IndexFound(vec, c);
    assert BaseItem(fts, vec, c) == fts[LastIndex(fts, c)];
    assert VectorPart(vec, c, f) == 0.0;
  }

  /** A chunk found only by vector search keeps the fields of its first
      vector match, gets full-text score 0 and the distance of its last
      vector match, and its combined score is the weighted vector score
      alone. */
  lemma VectorOnlyEntry(fts: seq<SearchResultItem>, vec: seq<SearchResultItem>, c: string, f: Fusion)
    requires f.ftsNormalizer > 0.0 && f.vectorNormalizer > 0.0
    requires c !in ChunkIds(fts) && c in ChunkIds(vec)
    ensures 0 <= FirstIndex(vec, c) <= LastIndex(vec, c)
    ensures VectorPart(vec, c, f) == Normalized(vec[LastIndex(vec, c)].vectorScore, f.vectorNormalizer, f.normalize)
    ensures FusedItem(fts, vec, c, f) ==
      Rescored(vec[FirstIndex(vec, c)], 0.0, VectorPart(vec, c, f), vec[LastIndex(vec, c)].distance,
               Weighted(0.0, VectorPart(vec, c, f), f))
  {
    IndexFound(fts, c);
    IndexFound(vec, c);
    assert BaseItem(fts, vec, c) == vec[FirstIndex(vec, c)];
    assert FtsPart(fts, c, f) == 0.0;
  }

  /** A chunk found by both keeps the fields of its last full-text match,
      takes the distance of its last vector match, and its combined score is
      the weighted sum of both scores. */
  lemma BothEntry(fts: seq<SearchResultItem>, vec: seq<SearchResultItem>, c: string, f: Fusion)
    requires f.ftsNormalizer > 0.0 && f.vectorNormalizer > 0.0
    requires c in ChunkIds(fts) && c in ChunkIds(vec)
    ensures LastIndex(fts, c) >= 0 && LastIndex(vec, c) >= 0
    ensures FtsPart(fts, c, f) == Normalized(fts[LastIndex(fts, c)].ftsScore, f.ftsNormalizer, f.normalize)
    ensures VectorPart(vec, c, f) == Normalized(vec[LastIndex(vec, c)].vectorScore, f.vectorNormalizer, f.normalize)
    ensures FusedItem(fts, vec, c, f) ==
      Rescored(fts[LastIndex(fts, c)], FtsPart(fts, c, f), VectorPart(vec, c, f), vec[LastIndex(vec, c)].distance,
               Weighted(FtsPart(fts, c, f), VectorPart(vec, c, f), f))
  {
    IndexFound(fts, c);
    IndexFound(vec, c);
    assert BaseItem(fts, vec, c) == fts[LastIndex(fts, c)];
  }

  /** One step of the full-text loop leaves the entries of all other ids
      unchanged. */
  lemma FtsStep(fts: seq<SearchResultItem>, i: nat, c: string, f: Fusion)
    requires i < |fts| && f.ftsNormalizer > 0.0 && f.vectorNormalizer > 0.0
    requires c in ChunkIds(fts[..i + 1]) && fts[i].chunkId != c
    ensures c in ChunkIds(fts[..i])
    ensures FusedItem(fts[..i + 1], [], c, f) == FusedItem(fts[..i], [], c, f)
  {
    IndicesOfSnoc(fts, i, c);
    ChunkIdsSnoc(fts, i);
  }

  /** One step of the vector loop leaves the entries of all other ids
      unchanged. */
  lemma VectorStep(fts: seq<SearchResultItem>, vec: seq<SearchResultItem>, j: nat, c: string, f: Fusion)
    requires j < |vec| && f.ftsNormalizer > 0.0 && f.vectorNormalizer > 0.0
    requires (c in ChunkIds(fts) || c in ChunkIds(vec[..j + 1])) && vec[j].chunkId != c
    ensures c in ChunkIds(fts) || c in ChunkIds(vec[..j])
    ensures FusedItem(fts, vec[..j + 1], c, f) == FusedItem(fts, vec[..j], c, f)
  {
    IndicesOfSnoc(vec, j, c);
    ChunkIdsSnoc(vec, j);
    IndexFound(fts, c);
    IndexFound(vec[..j], c);
    var k := FirstIndex(vec[..j], c);
    if LastIndex(fts, c) < 0 {
      assert vec[..j + 1][k] == vec[..j][k];
    }
    assert BaseItem(fts, vec[..j + 1], c) == BaseItem(fts, vec[..j], c);
    var l := LastIndex(vec[..j], c);
    if l >= 0 {
      assert vec[..j + 1][l] == vec[..j][l];
    }
  }

  /** One fused entry per distinct chunk id, in the order the ids first
      appear in the full-text list followed by the vector list (the order of
      the keys of the source's dict). */
  function FusedItems(fts: seq<SearchResultItem>, vec: seq<SearchResultItem>, f: Fusion): (items: seq<SearchResultItem>)
    requires f.ftsNormalizer > 0.0 && f.vectorNormalizer > 0.0
    ensures |items| <= |fts| + |vec|
  {
    var ids := Dedup(ChunkIds(fts) + ChunkIds(vec));
    assert forall k :: 0 <= k < |ids| ==> ids[k] in ChunkIds(fts) + ChunkIds(vec);
    seq(|ids|, k requires 0 <= k < |ids| => FusedItem(fts, vec, ids[k], f))
  }

  /** The fused entries carry each chunk id found in either list exactly
      once, and each is the fused entry of its id. */
  lemma FusedItemsProperties(fts: seq<SearchResultItem>, vec: seq<SearchResultItem>, f: Fusion)
    requires f.ftsNormalizer > 0.0 && f.vectorNormalizer > 0.0
    ensures var items := FusedItems(fts, vec, f);
      && ChunkIds(items) == Dedup(ChunkIds(fts) + ChunkIds(vec))
      && Distinct(items)
      && (forall x :: x in items ==> (x.chunkId in ChunkIds(fts) || x.chunkId in ChunkIds(vec))
                                     && x == FusedItem(fts, vec, x.chunkId, f))
  {
    var ids := Dedup(ChunkIds(fts) + ChunkIds(vec));
    var items := FusedItems(fts, vec, f);
    assert ChunkIds(items) == ids;
    forall i, j | 0 <= i < j < |items| ensures items[i] != items[j] {
      assert items[i].chunkId == ids[i] && items[j].chunkId == ids[j];
    }
    forall x | x in items
      ensures x.chunkId in ChunkIds(fts) || x.chunkId in ChunkIds(vec)
      ensures x == FusedItem(fts, vec, x.chunkId, f)
    {
      var k :| 0 <= k < |items| && items[k] == x;
      assert ids[k] in ChunkIds(fts) + ChunkIds(vec);
    }
  }

  /** The sort key: `x.combined_score or 0`. */
  function CombinedKey(item: SearchResultItem): real {
    ScoreOr0(item.combinedScore)
  }

  /** What `_combine_results` returns. */
  function Combined(fts: seq<SearchResultItem>, vec: seq<SearchResultItem>, ftsWeight: real, semanticWeight: real, normalize: bool): seq<SearchResultItem> {
    SortByKeyDesc(FusedItems(fts, vec, FusionOf(fts, vec, ftsWeight, semanticWeight, normalize)), CombinedKey)
  }

  /** The combined list holds exactly one entry per chunk id found in either
      list, each entry is the fused entry of its id, the list is ordered by
      non-increasing combined score, and it is no longer than both lists
      together. */
  lemma CombinedProperties(fts: seq<SearchResultItem>, vec: seq<SearchResultItem>, ftsWeight: real, semanticWeight: real, normalize: bool)
    ensures |Combined(fts, vec, ftsWeight, semanticWeight, normalize)| <= |fts| + |vec|
    ensures NonIncreasing(Combined(fts, vec, ftsWeight, semanticWeight, normalize), CombinedKey)
    ensures forall c ::
              c in ChunkIds(Combined(fts, vec, ftsWeight, semanticWeight, normalize)) <==> c in ChunkIds(fts) || c in ChunkIds(vec)
    ensures FusedList(Combined(fts, vec, ftsWeight, semanticWeight, normalize), fts, vec,
                      FusionOf(fts, vec, ftsWeight, semanticWeight, normalize))
  {
    var f := FusionOf(fts, vec, ftsWeight, semanticWeight, normalize);
    var items := FusedItems(fts, vec, f);
    var out := Combined(fts, vec, ftsWeight, semanticWeight, normalize);
    FusedItemsProperties(fts, vec, f);
    ReorderedIds(items, out);
    ReorderedFused(items, out, fts, vec, f);
  }

  /** Every entry of `out` has a chunk id from one of the lists and is the
      fused entry of that id, and no chunk id occurs twice. */
  ghost predicate FusedList(out: seq<SearchResultItem>, fts: seq<SearchResultItem>, vec: seq<SearchResultItem>, f: Fusion)
    requires f.ftsNormalizer > 0.0 && f.vectorNormalizer > 0.0
  {
    && (forall i, j :: 0 <= i < j < |out| ==> out[i].chunkId != out[j].chunkId)
    && (forall i :: 0 <= i < |out| ==>
          (out[i].chunkId in ChunkIds(fts) || out[i].chunkId in ChunkIds(vec))
          && out[i] == FusedItem(fts, vec, out[i].chunkId, f))
  }

  /** Reordering keeps the set of chunk ids. */
  lemma ReorderedIds(a: seq<SearchResultItem>, b: seq<SearchResultItem>)
    requires multiset(a) == multiset(b)
    ensures forall c :: c in ChunkIds(a) <==> c in ChunkIds(b)
  {
    SameElements(a, b);
    forall c ensures c in ChunkIds(a) ==> c in ChunkIds(b) {
      if c in ChunkIds(a) {
        var i :| 0 <= i < |a| && a[i].chunkId == c;
        assert a[i] in b;
        var j :| 0 <= j < |b| && b[j] == a[i];
        assert ChunkIds(b)[j] == c;
      }
    }
    forall c ensures c in ChunkIds(b) ==> c in ChunkIds(a) {
      if c in ChunkIds(b) {
        var j :| 0 <= j < |b| && b[j].chunkId == c;
        assert b[j] in a;
        var i :| 0 <= i < |a| && a[i] == b[j];
        assert ChunkIds(a)[i] == c;
      }
    }
  }

  /** A reordering of distinct fused entries is a fused list. */
  lemma ReorderedFused(items: seq<SearchResultItem>, out: seq<SearchResultItem>,
                       fts: seq<SearchResultItem>, vec: seq<SearchResultItem>, f: Fusion)
    requires f.ftsNormalizer > 0.0 && f.vectorNormalizer > 0.0
    requires multiset(out) == multiset(items)
    requires Distinct(items)
    requires forall x :: x in items ==> (x.chunkId in ChunkIds(fts) || x.chunkId in ChunkIds(vec))
                                        && x == FusedItem(fts, vec, x.chunkId, f)
    ensures FusedList(out, fts, vec, f)
  {
    SameElements(out, items);
    DistinctMultiplicity(items);
    DistinctMultiplicity(out);
    assert Distinct(out) by {
      forall x | x in out ensures multiset(out)[x] == 1 {
        assert x in items;
      }
    }
    forall i, j | 0 <= i < j < |out| ensures out[i].chunkId != out[j].chunkId {
      assert out[i] in items && out[j] in items;
    }
    forall i | 0 <= i < |out|
      ensures (out[i].chunkId in ChunkIds(fts) || out[i].chunkId in ChunkIds(vec))
              && out[i] == FusedItem(fts, vec, out[i].chunkId, f)
    {
      assert out[i] in items;
    }
  }

  /** The dict of `_combine_results` after the items `fts` and `vec` have
      been processed: its keys in insertion order are the distinct chunk ids
      of both lists, and each value is the fused entry of its key. */
  ghost predicate Tracks(order: seq<string>, entries: map<string, SearchResultItem>,
                         fts: seq<SearchResultItem>, vec: seq<SearchResultItem>, f: Fusion)
    requires f.ftsNormalizer > 0.0 && f.vectorNormalizer > 0.0
  {
    && order == Dedup(ChunkIds(fts) + ChunkIds(vec))
    && KeysInOrder(order, entries)
    && EntriesFused(entries, fts, vec, f)
  }

  /** The key order lists exactly the dict's keys. */
  ghost predicate KeysInOrder(order: seq<string>, entries: map<string, SearchResultItem>) {
    forall c :: c in entries <==> c in order
  }

  /** Every value of the dict is the fused entry of its key. */
  ghost predicate EntriesFused(entries: map<string, SearchResultItem>,
                               fts: seq<SearchResultItem>, vec: seq<SearchResultItem>, f: Fusion)
    requires f.ftsNormalizer > 0.0 && f.vectorNormalizer > 0.0
  {
    forall c :: c in entries ==> (c in ChunkIds(fts) || c in ChunkIds(vec)) && entries[c] == FusedItem(fts, vec, c, f)
  }

  /** Looking an id up in a dict that tracks the processed items: it is a
      key exactly when one of the lists holds it, and its value is then its
      fused entry. */
  lemma TracksLookup(order: seq<string>, entries: map<string, SearchResultItem>,
                     fts: seq<SearchResultItem>, vec: seq<SearchResultItem>, f: Fusion, x: string)
    requires f.ftsNormalizer > 0.0 && f.vectorNormalizer > 0.0
    requires Tracks(order, entries, fts, vec, f)
    ensures x in entries <==> x in ChunkIds(fts) || x in ChunkIds(vec)
    ensures x in entries ==> entries[x] == FusedItem(fts, vec, x, f)
  {
    assert x in order <==> x in ChunkIds(fts) + ChunkIds(vec);
  }

  /** The entry the full-text loop stores for item `i`, whose normalised
      score is `nf`, is the fused entry of its id over the processed prefix. */
  lemma FtsEntry(fts: seq<SearchResultItem>, i: nat, f: Fusion, nf: real)
    requires i < |fts| && f.ftsNormalizer > 0.0 && f.vectorNormalizer > 0.0
    requires nf == Normalized(fts[i].ftsScore, f.ftsNormalizer, f.normalize)
    ensures fts[i].chunkId in ChunkIds(fts[..i + 1])
    ensures FusedItem(fts[..i + 1], [], fts[i].chunkId, f) == Rescored(fts[i], nf, 0.0, None, nf * f.ftsWeight)
  {
    var s, x := fts[..i + 1], fts[i].chunkId;
    assert ChunkIds(s)[i] == x;
    IndicesOfSnoc(fts, i, x);
    assert s[i] == fts[i];
    FtsOnlyEntry(s, [], x, f);
    assert FtsPart(s, x, f) == nf;
    WeightedOneSided(nf, f);
  }

  /** Storing a value under a key keeps the key order in step with the
      dict's keys: a new key is appended. */
  lemma KeysAfterStore(order: seq<string>, entries: map<string, SearchResultItem>, x: string, item: SearchResultItem)
    requires KeysInOrder(order, entries)
    ensures KeysInOrder(if x in entries then order else order + [x], entries[x := item])
  {
  }

  /** Storing the entry of full-text item `i` keeps the dict tracking the
      processed prefix. */
  lemma TrackFts(fts: seq<SearchResultItem>, i: nat, f: Fusion,
                 order: seq<string>, entries: map<string, SearchResultItem>, item: SearchResultItem)
    requires i < |fts| && f.ftsNormalizer > 0.0 && f.vectorNormalizer > 0.0
    requires Tracks(order, entries, fts[..i], [], f)
    requires fts[i].chunkId in ChunkIds(fts[..i + 1])
    requires item == FusedItem(fts[..i + 1], [], fts[i].chunkId, f)
    ensures Tracks(if fts[i].chunkId in entries then order else order + [fts[i].chunkId],
                   entries[fts[i].chunkId := item], fts[..i + 1], [], f)
  {
    var x := fts[i].chunkId;
    var order' := if x in entries then order else order + [x];
    var entries' := entries[x := item];
    assert ChunkIds([]) == [];
    assert order' == Dedup(ChunkIds(fts[..i + 1]) + ChunkIds([])) by {
      ChunkIdsSnoc(fts, i);
      assert ChunkIds(fts[..i]) + ChunkIds([]) == ChunkIds(fts[..i]);
      assert ChunkIds(fts[..i + 1]) + ChunkIds([]) == ChunkIds(fts[..i]) + [x];
      DedupSnoc(ChunkIds(fts[..i]), x);
    }
    KeysAfterStore(order, entries, x, item);
    TrackFtsEntries(fts, i, f, entries, item);
  }

  lemma TrackFtsEntries(fts: seq<SearchResultItem>, i: nat, f: Fusion,
                        entries: map<string, SearchResultItem>, item: SearchResultItem)
    requires i < |fts| && f.ftsNormalizer > 0.0 && f.vectorNormalizer > 0.0
    requires EntriesFused(entries, fts[..i], [], f)
    requires fts[i].chunkId in ChunkIds(fts[..i + 1])
    requires item == FusedItem(fts[..i + 1], [], fts[i].chunkId, f)
    ensures EntriesFused(entries[fts[i].chunkId := item], fts[..i + 1], [], f)
  {
    var x := fts[i].chunkId;
    var entries' := entries[x := item];
    forall c | c in entries'
      ensures (c in ChunkIds(fts[..i + 1]) || c in ChunkIds([])) && entries'[c] == FusedItem(fts[..i + 1], [], c, f)
    {
      if c != x {
        FtsStep(fts, i, c, f);
      }
    }
  }

  /** The updated entry the vector loop stores for item `j`, whose
      normalised score is `nv`, when its id is already in the dict with entry
      `prior`. */
  lemma VectorEntryUpdate(fts: seq<SearchResultItem>, vec: seq<SearchResultItem>, j: nat, f: Fusion,
                          prior: SearchResultItem, nv: real)
    requires j < |vec| && f.ftsNormalizer > 0.0 && f.vectorNormalizer > 0.0
    requires vec[j].chunkId in ChunkIds(fts) || vec[j].chunkId in ChunkIds(vec[..j])
    requires prior == FusedItem(fts, vec[..j], vec[j].chunkId, f)
    requires nv == Normalized(vec[j].vectorScore, f.vectorNormalizer, f.normalize)
    ensures vec[j].chunkId in ChunkIds(vec[..j + 1])
    ensures FusedItem(fts, vec[..j + 1], vec[j].chunkId, f) ==
      WithVectorMatch(prior, nv, vec[j].distance, Weighted(ScoreOr0(prior.ftsScore), nv, f))
  {
    var s, x := vec[..j + 1], vec[j].chunkId;
    assert ChunkIds(s)[j] == x;
    assert s[j] == vec[j];
    IndicesOfSnoc(vec, j, x);
    IndexFound(fts, x);
    IndexFound(vec[..j], x);
    IndexFound(s, x);
    var nf := FtsPart(fts, x, f);
    var k := FirstIndex(vec[..j], x);
    if LastIndex(fts, x) < 0 {
      assert s[k] == vec[..j][k];
    }
    assert BaseItem(fts, s, x) == BaseItem(fts, vec[..j], x);
    assert VectorPart(s, x, f) == nv;
    assert DistanceFor(s, x) == vec[j].distance;
    assert ScoreOr0(prior.ftsScore) == nf;
    MatchAfterRescore(BaseItem(fts, vec[..j], x), nf, VectorPart(vec[..j], x, f), DistanceFor(vec[..j], x),
                      Weighted(nf, VectorPart(vec[..j], x, f), f), nv, vec[j].distance, Weighted(nf, nv, f));
  }

  /** Updating a new entry in place gives the entry built with the new
      values directly. */
  lemma MatchAfterRescore(base: SearchResultItem, ftsScore: real, vectorScore: real, distance: Option<real>, combined: real,
                          vectorScore': real, distance': Option<real>, combined': real)
    ensures WithVectorMatch(Rescored(base, ftsScore, vectorScore, distance, combined), vectorScore', distance', combined') ==
            Rescored(base, ftsScore, vectorScore', distance', combined')
  {
  }

  /** The new entry the vector loop stores for item `j`, whose normalised
      score is `nv`, when its id is not yet in the dict. */
  lemma VectorEntryNew(fts: seq<SearchResultItem>, vec: seq<SearchResultItem>, j: nat, f: Fusion, nv: real)
    requires j < |vec| && f.ftsNormalizer > 0.0 && f.vectorNormalizer > 0.0
    requires !(vec[j].chunkId in ChunkIds(fts) || vec[j].chunkId in ChunkIds(vec[..j]))
    requires nv == Normalized(vec[j].vectorScore, f.vectorNormalizer, f.normalize)
    ensures vec[j].chunkId in ChunkIds(vec[..j + 1])
    ensures FusedItem(fts, vec[..j + 1], vec[j].chunkId, f) == Rescored(vec[j], 0.0, nv, vec[j].distance, nv * f.semanticWeight)
  {
    var s, x := vec[..j + 1], vec[j].chunkId;
    assert ChunkIds(s)[j] == x;
    assert s[j] == vec[j];
    IndicesOfSnoc(vec, j, x);
    IndexFound(vec[..j], x);
    VectorOnlyEntry(fts, s, x, f);
    assert VectorPart(s, x, f) == nv;
    WeightedOneSided(nv, f);
  }

  /** Storing the entry of vector item `j` keeps the dict tracking the
      processed prefix. */
  lemma TrackVector(fts: seq<SearchResultItem>, vec: seq<SearchResultItem>, j: nat, f: Fusion,
                    order: seq<string>, entries: map<string, SearchResultItem>, item: SearchResultItem)
    requires j < |vec| && f.ftsNormalizer > 0.0 && f.vectorNormalizer > 0.0
    requires Tracks(order, entries, fts, vec[..j], f)
    requires vec[j].chunkId in ChunkIds(vec[..j + 1])
    requires item == FusedItem(fts, vec[..j + 1], vec[j].chunkId, f)
    ensures Tracks(if vec[j].chunkId in entries then order else order + [vec[j].chunkId],
                   entries[vec[j].chunkId := item], fts, vec[..j + 1], f)
  {
    var x := vec[j].chunkId;
    var order' := if x in entries then order else order + [x];
    var entries' := entries[x := item];
    assert order' == Dedup(ChunkIds(fts) + ChunkIds(vec[..j + 1])) by {
      ChunkIdsSnoc(vec, j);
      assert ChunkIds(fts) + ChunkIds(vec[..j + 1]) == (ChunkIds(fts) + ChunkIds(vec[..j])) + [x];
      DedupSnoc(ChunkIds(fts) + ChunkIds(vec[..j]), x);
    }
    KeysAfterStore(order, entries, x, item);
    TrackVectorEntries(fts, vec, j, f, entries, item);
  }

  lemma TrackVectorEntries(fts: seq<SearchResultItem>, vec: seq<SearchResultItem>, j: nat, f: Fusion,
                           entries: map<string, SearchResultItem>, item: SearchResultItem)
    requires j < |vec| && f.ftsNormalizer > 0.0 && f.vectorNormalizer > 0.0
    requires EntriesFused(entries, fts, vec[..j], f)
    requires vec[j].chunkId in ChunkIds(vec[..j + 1])
    requires item == FusedItem(fts, vec[..j + 1], vec[j].chunkId, f)
    ensures EntriesFused(entries[vec[j].chunkId := item], fts, vec[..j + 1], f)
  {
    var x := vec[j].chunkId;
    var entries' := entries[x := item];
    forall c | c in entries'
      ensures (c in ChunkIds(fts) || c in ChunkIds(vec[..j + 1])) && entries'[c] == FusedItem(fts, vec[..j + 1], c, f)
    {
      if c != x {
        VectorStep(fts, vec, j, c, f);
      }
    }
  }

  /** `_combine_results`: fill a dict keyed by chunk id from the full-text
      list, then merge the vector list into it (updating entries already
      present), then sort the dict's values by combined score, highest
      first. The dict is its key order plus a map; its two loops are the two
      methods below. */
  method CombineResults(fts: seq<SearchResultItem>, vec: seq<SearchResultItem>, ftsWeight: real, semanticWeight: real, normalize: bool)
    returns (combined: seq<SearchResultItem>)
    ensures combined == Combined(fts, vec, ftsWeight, semanticWeight, normalize)
  {
    var ftsNormalizer := 1.0;
    if |fts| > 0 && normalize {
      var m := MaxOf(FtsScores(fts));
      ftsNormalizer := if m > 0.0 then m else 1.0;
    }
    var vectorNormalizer := 1.0;
    if |vec| > 0 && normalize {
      var m := MaxOf(VectorScores(vec));
      vectorNormalizer := if m > 0.0 then m else 1.0;
    }
    var f := Fusion(ftsWeight, semanticWeight, normalize, ftsNormalizer, vectorNormalizer);
    assert f == FusionOf(fts, vec, ftsWeight, semanticWeight, normalize);

    var order, entries := AddFtsResults(fts, f);
    order, entries := MergeVectorResults(fts, vec, f, order, entries);

    TracksValues(order, entries, fts, vec, f);
    combined := SortByKeyDesc(DictValues(order, entries), CombinedKey);
  }

  /** `list(combined.values())`: the values in key insertion order. */
  function DictValues(order: seq<string>, entries: map<string, SearchResultItem>): (values: seq<SearchResultItem>)
    requires forall k :: k in order ==> k in entries
    ensures |values| == |order| && forall i :: 0 <= i < |order| ==> values[i] == entries[order[i]]
  {
    seq(|order|, i requires 0 <= i < |order| => entries[order[i]])
  }

  /** The values of a dict that tracks both lists are the fused entries. */
  lemma TracksValues(order: seq<string>, entries: map<string, SearchResultItem>,
                     fts: seq<SearchResultItem>, vec: seq<SearchResultItem>, f: Fusion)
    requires f.ftsNormalizer > 0.0 && f.vectorNormalizer > 0.0
    requires Tracks(order, entries, fts, vec, f)
    ensures forall k :: k in order ==> k in entries
    ensures DictValues(order, entries) == FusedItems(fts, vec, f)
  {
  }

  /** The full-text loop of `_combine_results`: afterwards the dict holds,
      in first-seen order, the fused entry of every full-text chunk id as if
      the vector list were empty. */
  method AddFtsResults(fts: seq<SearchResultItem>, f: Fusion)
    returns (order: seq<string>, entries: map<string, SearchResultItem>)
    requires f.ftsNormalizer > 0.0 && f.vectorNormalizer > 0.0
    ensures Tracks(order, entries, fts, [], f)
  {
    order := [];
    entries := map[];
    assert Tracks(order, entries, fts[..0], [], f) by {
      assert ChunkIds(fts[..0]) + ChunkIds([]) == [];
    }
    var i := 0;
    while i < |fts|
      invariant 0 <= i <= |fts|
      invariant Tracks(order, entries, fts[..i], [], f)
    {
      var r := fts[i];
      var nf := Normalized(r.ftsScore, f.ftsNormalizer, f.normalize);
      var item := Rescored(r, nf, 0.0, None, nf * f.ftsWeight);
      FtsEntry(fts, i, f, nf);
      TrackFts(fts, i, f, order, entries, item);
      if r.chunkId !in entries {
        order := order + [r.chunkId];
      }
      entries := entries[r.chunkId := item];
      i := i + 1;
    }
    assert fts[..|fts|] == fts;
  }

  /** The vector loop of `_combine_results`: an id already in the dict gets
      the vector score, distance and the new combined score; a new id is
      appended with a vector-only entry. Afterwards the dict holds the fused
      entry of every id of either list. */
  method MergeVectorResults(fts: seq<SearchResultItem>, vec: seq<SearchResultItem>, f: Fusion,
                            order0: seq<string>, entries0: map<string, SearchResultItem>)
    returns (order: seq<string>, entries: map<string, SearchResultItem>)
    requires f.ftsNormalizer > 0.0 && f.vectorNormalizer > 0.0
    requires Tracks(order0, entries0, fts, [], f)
    ensures Tracks(order, entries, fts, vec, f)
  {
    order, entries := order0, entries0;
    assert vec[..0] == [];
    var j := 0;
    while j < |vec|
      invariant 0 <= j <= |vec|
      invariant Tracks(order, entries, fts, vec[..j], f)
    {
      var r := vec[j];
      var nv := Normalized(r.vectorScore, f.vectorNormalizer, f.normalize);
      var item;
      TracksLookup(order, entries, fts, vec[..j], f, r.chunkId);
      if r.chunkId in entries {
        var prior := entries[r.chunkId];
        item := WithVectorMatch(prior, nv, r.distance, Weighted(ScoreOr0(prior.ftsScore), nv, f));
        VectorEntryUpdate(fts, vec, j, f, prior, nv);
      } else {
        item := Rescored(r, 0.0, nv, r.distance, nv * f.semanticWeight);
        VectorEntryNew(fts, vec, j, f, nv);
      }
      TrackVector(fts, vec, j, f, order, entries, item);
      if r.chunkId !in entries {
        order := order + [r.chunkId];
      }
      entries := entries[r.chunkId := item];
      j := j + 1;
    }
    assert vec[..|vec|] == vec;
  }
}
