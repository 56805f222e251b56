/** The hybrid engine (`HybridSearchEngine.search_chunks`,
    server/hybrid_search.py): it rejects a non-positive weight total,
    normalises the two weights to sum 1, asks each engine that is available
    and has a positive weight for up to three times the requested number of
    results (at most 100), fuses the two lists and keeps the first `limit`
    entries. */
module HybridSearch {
  import opened Wrappers
  import opened SearchModels
  import opened Collections
  import opened HybridFusion
  import FtsSearch
  import VectorSearch

  /** The engine holds the two engines it delegates to. */
  datatype HybridEngine = HybridEngine(fts: FtsSearch.FtsEngine, vector: VectorSearch.VectorEngine)

  /** `hybrid_available`: at least one of the two engines can answer. */
  predicate HybridAvailable(e: HybridEngine) {
    e.fts.ftsAvailable || VectorSearch.VectorAvailable(e.vector)
  }

  const WeightsMessage: string := "Combined weights must be greater than 0"
  const FetchFactor: int := 3
  const FetchCap: int := 100

  /** `min(limit * 3, 100)`: how many results each engine is asked for. */
  function FetchLimit(limit: int): (n: int)
    ensures n <= FetchCap && n <= FetchFactor * limit
    ensures n == FetchCap || n == FetchFactor * limit
  {
    if limit * FetchFactor <= FetchCap then limit * FetchFactor else FetchCap
  }

  /** The two weights after normalisation. */
  datatype Weights = Weights(fts: real, semantic: real)

  /** Each weight divided by their total. */
  function NormalizeWeights(ftsWeight: real, semanticWeight: real): Weights
    requires ftsWeight + semanticWeight > 0.0
  {
    Weights(ftsWeight / (ftsWeight + semanticWeight), semanticWeight / (ftsWeight + semanticWeight))
  }

  /** Normalised weights are non-negative, sum to 1, keep the ratio of the
      requested weights, and are positive exactly when the requested weight
      is. */
  lemma NormalizeWeightsProperties(ftsWeight: real, semanticWeight: real)
    requires ftsWeight >= 0.0 && semanticWeight >= 0.0 && ftsWeight + semanticWeight > 0.0
    ensures NormalizeWeights(ftsWeight, semanticWeight).fts >= 0.0
    ensures NormalizeWeights(ftsWeight, semanticWeight).semantic >= 0.0
    ensures NormalizeWeights(ftsWeight, semanticWeight).fts + NormalizeWeights(ftsWeight, semanticWeight).semantic == 1.0
    ensures NormalizeWeights(ftsWeight, semanticWeight).fts * semanticWeight
            == NormalizeWeights(ftsWeight, semanticWeight).semantic * ftsWeight
    ensures NormalizeWeights(ftsWeight, semanticWeight).fts > 0.0 <==> ftsWeight > 0.0
    ensures NormalizeWeights(ftsWeight, semanticWeight).semantic > 0.0 <==> semanticWeight > 0.0
  {
    var t := ftsWeight + semanticWeight;
    assert ftsWeight / t + semanticWeight / t == t / t;
  }

  /** The request passed to the full-text engine: the hybrid query, filters
      and the fetch limit; no minimum score. */
  function FtsSubRequest(req: HybridSearchRequest): FtsSearchRequest {
    FtsSearchRequest(SearchRequest(req.base.query, FetchLimit(req.base.limit), req.base.tickers, req.base.ciks), None)
  }

  /** The request passed to the vector engine: the same, with distances
      requested and no distance threshold. */
  function VectorSubRequest(req: HybridSearchRequest): VectorSearchRequest {
    VectorSearchRequest(SearchRequest(req.base.query, FetchLimit(req.base.limit), req.base.tickers, req.base.ciks), true, None)
  }

  /** A valid hybrid request gives valid sub-requests: the fetch limit of a
      limit in 1..100 lies in 3..100, and everything else is carried over. */
  lemma SubRequestsProperties(req: HybridSearchRequest)
    requires ValidHybridRequest(req)
    ensures FetchFactor <= FetchLimit(req.base.limit) <= FetchCap
    ensures FetchLimit(req.base.limit) >= req.base.limit
    ensures ValidFtsRequest(FtsSubRequest(req)) && ValidVectorRequest(VectorSubRequest(req))
    ensures FtsSubRequest(req).base == VectorSubRequest(req).base
    ensures FtsSubRequest(req).base.query == req.base.query
    ensures FtsSubRequest(req).base.tickers == req.base.tickers && FtsSubRequest(req).base.ciks == req.base.ciks
    ensures VectorSubRequest(req).includeDistances
  {
  }

  /** The full-text engine is asked exactly when it is available and its
      normalised weight is positive. */
  predicate QueriesFts(e: HybridEngine, w: Weights) {
    e.fts.ftsAvailable && w.fts > 0.0
  }

  /** The vector engine is asked exactly when it is available and its
      normalised weight is positive. */
  predicate QueriesVector(e: HybridEngine, w: Weights) {
    VectorSearch.VectorAvailable(e.vector) && w.semantic > 0.0
  }

  /** The full-text list fed to the fusion: empty when the engine is not asked. */
  function FtsResults(e: HybridEngine, req: HybridSearchRequest, w: Weights): seq<SearchResultItem> {
    if QueriesFts(e, w) then FtsSearch.FtsResponse(e.fts, FtsSubRequest(req)).results else []
  }

  /** The vector list fed to the fusion: empty when the engine is not asked. */
  function VectorResults(e: HybridEngine, req: HybridSearchRequest, w: Weights): seq<SearchResultItem> {
    if QueriesVector(e, w) then VectorSearch.VectorResponse(e.vector, VectorSubRequest(req)).results else []
  }

  /** `combined[:limit]` for a non-negative limit. */
  function Truncate(combined: seq<SearchResultItem>, limit: nat): (r: seq<SearchResultItem>)
    ensures |r| <= limit && r <= combined
    ensures |r| == limit || r == combined
  {
    if limit <= |combined| then combined[..limit] else combined
  }

  /** What `search_chunks` answers. */
  function HybridResponse(e: HybridEngine, req: HybridSearchRequest): (r: SearchResponse)
    requires ValidHybridRequest(req)
    ensures r.searchMethod == Hybrid && r.query == req.base.query
    ensures r.totalResults == |r.results| <= req.base.limit
  {
    var total := req.ftsWeight + req.semanticWeight;
    if total <= 0.0 then ErrorResponse(req.base.query, Hybrid, WeightsMessage)
    else
      var w := NormalizeWeights(req.ftsWeight, req.semanticWeight);
      var fts := FtsResults(e, req, w);
      var vec := VectorResults(e, req, w);
      var combined := Combined(fts, vec, w.fts, w.semantic, req.normalizeScores);
      ResultsResponse(req.base.query, Hybrid, Truncate(combined, req.base.limit),
                      HybridWeights(w.fts, w.semantic, |fts|, |vec|, |combined|))
  }

  /** A weight total that is not positive (both weights zero, as they lie in
      [0, 1]) gives the zero-result error response whatever the engines are,
      so neither engine is consulted. */
  lemma RejectedWeights(e: HybridEngine, e': HybridEngine, req: HybridSearchRequest)
    requires ValidHybridRequest(req)
    ensures req.ftsWeight + req.semanticWeight <= 0.0 <==> req.ftsWeight == 0.0 && req.semanticWeight == 0.0
    ensures req.ftsWeight + req.semanticWeight <= 0.0 ==>
      HybridResponse(e, req) == ErrorResponse(req.base.query, Hybrid, WeightsMessage)
      && HybridResponse(e, req) == HybridResponse(e', req)
    ensures req.ftsWeight + req.semanticWeight > 0.0 ==> HybridResponse(e, req).explanation.HybridWeights?
  {
  }

  /** An engine whose normalised weight is zero or that is unavailable
      contributes nothing, and the explanation reports the sizes of the two
      lists and of the fused list. */
  lemma EngineGating(e: HybridEngine, req: HybridSearchRequest)
    requires ValidHybridRequest(req) && req.ftsWeight + req.semanticWeight > 0.0
    ensures var w := NormalizeWeights(req.ftsWeight, req.semanticWeight);
      && (QueriesFts(e, w) <==> e.fts.ftsAvailable && req.ftsWeight > 0.0)
      && (QueriesVector(e, w) <==> VectorSearch.VectorAvailable(e.vector) && req.semanticWeight > 0.0)
      && (!QueriesFts(e, w) ==> FtsResults(e, req, w) == [])
      && (!QueriesVector(e, w) ==> VectorResults(e, req, w) == [])
      && HybridResponse(e, req).explanation ==
           HybridWeights(w.fts, w.semantic, |FtsResults(e, req, w)|, |VectorResults(e, req, w)|,
                         |Combined(FtsResults(e, req, w), VectorResults(e, req, w), w.fts, w.semantic, req.normalizeScores)|)
  {
    NormalizeWeightsProperties(req.ftsWeight, req.semanticWeight);
  }

  /** A hybrid engine with neither engine available returns no result. */
  lemma UnavailableIsEmpty(e: HybridEngine, req: HybridSearchRequest)
    requires ValidHybridRequest(req) && !HybridAvailable(e)
    ensures HybridResponse(e, req).results == []
  {
  }

  /** The fused list `search_chunks` truncates, for a request whose weights
      do not total zero. */
  function HybridCombined(e: HybridEngine, req: HybridSearchRequest): seq<SearchResultItem>
    requires ValidHybridRequest(req) && req.ftsWeight + req.semanticWeight > 0.0
  {
    var w := NormalizeWeights(req.ftsWeight, req.semanticWeight);
    Combined(FtsResults(e, req, w), VectorResults(e, req, w), w.fts, w.semantic, req.normalizeScores)
  }

  /** The answer is the first `limit` entries of the fused list: ordered by
      non-increasing combined score, one per chunk id, every chunk id taken
      from one of the two lists, and as many as the limit allows. */
  lemma HybridResultsProperties(e: HybridEngine, req: HybridSearchRequest)
    requires ValidHybridRequest(req) && req.ftsWeight + req.semanticWeight > 0.0
    ensures HybridResponse(e, req).results <= HybridCombined(e, req)
    ensures |HybridResponse(e, req).results|
      == (if req.base.limit <= |HybridCombined(e, req)| then req.base.limit else |HybridCombined(e, req)|)
    ensures NonIncreasing(HybridResponse(e, req).results, CombinedKey)
    ensures forall i, j :: 0 <= i < j < |HybridResponse(e, req).results| ==>
      HybridResponse(e, req).results[i].chunkId != HybridResponse(e, req).results[j].chunkId
    ensures forall i :: 0 <= i < |HybridResponse(e, req).results| ==>
      || HybridResponse(e, req).results[i].chunkId
           in ChunkIds(FtsResults(e, req, NormalizeWeights(req.ftsWeight, req.semanticWeight)))
      || HybridResponse(e, req).results[i].chunkId
           in ChunkIds(VectorResults(e, req, NormalizeWeights(req.ftsWeight, req.semanticWeight)))
  {
    var w := NormalizeWeights(req.ftsWeight, req.semanticWeight);
    var fts := FtsResults(e, req, w);
    var vec := VectorResults(e, req, w);
    var combined := HybridCombined(e, req);
    var out := HybridResponse(e, req).results;
    CombinedProperties(fts, vec, w.fts, w.semantic, req.normalizeScores);
    assert out == Truncate(combined, req.base.limit);
    TruncatedFused(combined, out, fts, vec, FusionOf(fts, vec, w.fts, w.semantic, req.normalizeScores));
  }

  /** A prefix of a fused, ordered list is still fused and ordered. */
  lemma TruncatedFused(combined: seq<SearchResultItem>, out: seq<SearchResultItem>,
                       fts: seq<SearchResultItem>, vec: seq<SearchResultItem>, f: Fusion)
    requires out <= combined
    requires f.ftsNormalizer > 0.0 && f.vectorNormalizer > 0.0
    requires NonIncreasing(combined, CombinedKey) && FusedList(combined, fts, vec, f)
    ensures NonIncreasing(out, CombinedKey)
    ensures forall i, j :: 0 <= i < j < |out| ==> out[i].chunkId != out[j].chunkId
    ensures forall i :: 0 <= i < |out| ==> out[i].chunkId in ChunkIds(fts) || out[i].chunkId in ChunkIds(vec)
  {
    forall i | 0 <= i < |out| ensures out[i] == combined[i] {
    }
  }

  /** With the vector engine as written (it never returns a result), every
      hybrid answer is the full-text list re-ranked: each entry has vector
      score 0, no distance, and a combined score equal to its normalised
      full-text score times the normalised full-text weight. */
  lemma VectorNeverContributes(e: HybridEngine, req: HybridSearchRequest)
    requires ValidHybridRequest(req) && req.ftsWeight + req.semanticWeight > 0.0
    ensures var w := NormalizeWeights(req.ftsWeight, req.semanticWeight);
      VectorResults(e, req, w) == []
    ensures var out := HybridResponse(e, req).results;
      forall i :: 0 <= i < |out| ==>
        && out[i].vectorScore == Some(0.0)
        && out[i].distance == None
        && out[i].ftsScore.Some?
        && out[i].combinedScore == Some(Weighted(out[i].ftsScore.value, 0.0,
             FusionOf(FtsResults(e, req, NormalizeWeights(req.ftsWeight, req.semanticWeight)), [],
                      NormalizeWeights(req.ftsWeight, req.semanticWeight).fts,
                      NormalizeWeights(req.ftsWeight, req.semanticWeight).semantic, req.normalizeScores)))
  {
    var w := NormalizeWeights(req.ftsWeight, req.semanticWeight);
    VectorSearch.VectorSearchAlwaysEmpty(e.vector, VectorSubRequest(req));
    assert VectorResults(e, req, w) == [];
    var fts := FtsResults(e, req, w);
    var f := FusionOf(fts, [], w.fts, w.semantic, req.normalizeScores);
    var out := HybridResponse(e, req).results;
    HybridResultsProperties(e, req);
    CombinedProperties(fts, [], w.fts, w.semantic, req.normalizeScores);
    forall i | 0 <= i < |out|
      ensures out[i].vectorScore == Some(0.0) && out[i].distance == None && out[i].ftsScore.Some?
      ensures out[i].combinedScore == Some(Weighted(out[i].ftsScore.value, 0.0, f))
    {
      var c := out[i].chunkId;
      assert c in ChunkIds(fts);
      assert ChunkIds([]) == [];
      FtsOnlyEntry(fts, [], c, f);
    }
  }

  /** `search_chunks`, step by step. The source's `except` branch is not
      modelled: nothing inside its `try` raises (both engines catch their own
      failures and the sub-requests are valid). */
  method SearchChunks(e: HybridEngine, req: HybridSearchRequest) returns (r: SearchResponse)
    requires ValidHybridRequest(req)
    ensures r == HybridResponse(e, req)
  {
    var totalWeight := req.ftsWeight + req.semanticWeight;
    if totalWeight <= 0.0 {
      return SearchResponse(req.base.query, Hybrid, 0, [], Failed(WeightsMessage));
    }
    var ftsWeight := req.ftsWeight / totalWeight;
    var semanticWeight := req.semanticWeight / totalWeight;
    ghost var w := NormalizeWeights(req.ftsWeight, req.semanticWeight);
    assert w == Weights(ftsWeight, semanticWeight);

    var searchLimit := if req.base.limit * 3 <= 100 then req.base.limit * 3 else 100;
    var ftsResults := FetchFts(e, req, ftsWeight, searchLimit);
    var vectorResults := FetchVector(e, req, semanticWeight, searchLimit);

    var combinedResults := CombineResults(ftsResults, vectorResults, ftsWeight, semanticWeight, req.normalizeScores);
    var finalResults := if req.base.limit <= |combinedResults| then combinedResults[..req.base.limit] else combinedResults;

    r := SearchResponse(req.base.query, Hybrid, |finalResults|, finalResults,
                        HybridWeights(ftsWeight, semanticWeight, |ftsResults|, |vectorResults|, |combinedResults|));
  }

  /** The full-text block of `search_chunks`. */
  method FetchFts(e: HybridEngine, req: HybridSearchRequest, ftsWeight: real, searchLimit: int)
    returns (ftsResults: seq<SearchResultItem>)
    requires searchLimit == FetchLimit(req.base.limit)
    ensures ftsResults == FtsResults(e, req, Weights(ftsWeight, 0.0))
  {
    ftsResults := [];
    if e.fts.ftsAvailable && ftsWeight > 0.0 {
      var ftsRequest := FtsSearchRequest(SearchRequest(req.base.query, searchLimit, req.base.tickers, req.base.ciks), None);
      var ftsResponse := FtsSearch.SearchChunks(e.fts, ftsRequest);
      ftsResults := ftsResponse.results;
    }
  }

  /** The vector block of `search_chunks`. */
  method FetchVector(e: HybridEngine, req: HybridSearchRequest, semanticWeight: real, searchLimit: int)
    returns (vectorResults: seq<SearchResultItem>)
    requires searchLimit == FetchLimit(req.base.limit)
    ensures vectorResults == VectorResults(e, req, Weights(0.0, semanticWeight))
  {
    vectorResults := [];
    if VectorSearch.VectorAvailable(e.vector) && semanticWeight > 0.0 {
      var vectorRequest := VectorSearchRequest(SearchRequest(req.base.query, searchLimit, req.base.tickers, req.base.ciks), true, None);
      var vectorResponse := VectorSearch.SearchChunks(e.vector, vectorRequest);
      vectorResults := vectorResponse.results;
    }
  }
}
