/** The similarity engine (`VectorSearchEngine`, server/vector_search.py). Its
    query-embedding routine is unimplemented in the source and always raises,
    so every search that passes the availability gate ends in the error
    response; the code after that call is modelled with the embedding as a
    parameter so that it can still be stated. */
module VectorSearch {
  import opened Wrappers
  import opened SearchModels
  import opened Database
  import opened ChunkFilters

  /** The engine's state, fixed at construction: the connection, the two
      probe results and whether an OpenAI client could be created. */
  datatype VectorEngine = VectorEngine(
    db: Db,
    vssAvailable: bool,
    embeddingsAvailable: bool,
    hasOpenaiClient: bool)

  /** `vector_available` */
  predicate VectorAvailable(e: VectorEngine) {
    e.vssAvailable && e.embeddingsAvailable && e.hasOpenaiClient
  }

  const UnavailableMessage: string := "Vector search not available"
  const NoEmbeddingMessage: string := "Could not generate query embedding"
  const NotImplementedMessage: string := "The method _generate_query_embedding is not yet implemented."

  /** `_generate_query_embedding`: raises NotImplementedError for every query. */
  function GenerateQueryEmbedding(query: string): (o: Outcome<Option<seq<real>>>)
    ensures o == Raised(NotImplementedMessage)
  {
    Raised(NotImplementedMessage)
  }

  /** `_search_vectors`: the distance query, or an empty frame when the
      tickers resolve to no CIK. The embedding is the first parameter, the
      distance threshold is filtered only when given and non-zero, and the
      limit is the last parameter. */
  function VectorPlan(db: Db, req: VectorSearchRequest, embedding: seq<real>): (p: Plan)
    ensures p.EmptyFrame? <==> CikFilters(db, req.base).NoMatch?
    ensures p.Run? ==> p.query.source == ChunksByDistance && WellFormed(p.query, req.base.limit)
    ensures p.Run? ==> p.query.params[0] == PEmbedding(embedding)
    ensures p.Run? ==> (DistanceAtMost in p.query.conditions <==> GivenReal(req.maxDistance))
  {
    match CikFilters(db, req.base)
    case NoMatch => EmptyFrame
    case Filter(cs, ps) =>
      var dc := if GivenReal(req.maxDistance) then [DistanceAtMost] else [];
      var dp := if GivenReal(req.maxDistance) then [PReal(req.maxDistance.value)] else [];
      ConditionSlotsAppend(cs, dc);
      Run(Query(ChunksByDistance, cs + dc, [PEmbedding(embedding)] + ps + dp + [PInt(req.base.limit)]))
  }

  /** The distance query binds, after the embedding, exactly the CIK values
      of the filters (ticker CIKs, then listed CIKs), then the distance
      threshold when it is truthy, then the limit; its first conditions are
      the filters'. */
  lemma VectorPlanBinds(db: Db, req: VectorSearchRequest, embedding: seq<real>)
    ensures VectorPlan(db, req, embedding).Run? ==> CikFilters(db, req.base).Filter?
    ensures VectorPlan(db, req, embedding).Run? ==>
      var q, f := VectorPlan(db, req, embedding).query, CikFilters(db, req.base);
      && |q.params| == 2 + |f.params| + (if GivenReal(req.maxDistance) then 1 else 0)
      && q.params[1..1 + |f.params|] == f.params
      && q.conditions[..|f.conditions|] == f.conditions
    ensures VectorPlan(db, req, embedding).Run? && GivenReal(req.maxDistance) ==>
      VectorPlan(db, req, embedding).query.params[|VectorPlan(db, req, embedding).query.params| - 2]
        == PReal(req.maxDistance.value)
  {
    match CikFilters(db, req.base)
    case NoMatch =>
    case Filter(cs, ps) =>
      var dc := if GivenReal(req.maxDistance) then [DistanceAtMost] else [];
      var dp := if GivenReal(req.maxDistance) then [PReal(req.maxDistance.value)] else [];
      ParamsLayout(PEmbedding(embedding), ps, dp, PInt(req.base.limit));
      assert (cs + dc)[..|cs|] == cs;
  }

  /** `max(0, 1.0 - distance)`: cosine distance turned into a similarity. */
  function Similarity(distance: real): (s: real)
    ensures s >= 0.0
    ensures s >= 1.0 - distance
    ensures s == 1.0 - distance || s == 0.0
  {
    if 1.0 - distance > 0.0 then 1.0 - distance else 0.0
  }

  /** A cosine distance in [0, 2] gives a similarity in [0, 1], and a smaller
      distance never gives a smaller similarity. */
  lemma SimilarityProperties(d: real, d': real)
    ensures 0.0 <= d ==> Similarity(d) <= 1.0
    ensures d <= d' ==> Similarity(d) >= Similarity(d')
  {
  }

  /** One formatted row: the document id is rebuilt from the CIK, the
      similarity is the vector score, and the distance is kept only when it
      was requested. */
  function VectorItem(db: Db, row: ChunkRow, includeDistances: bool): SearchResultItem {
    NewResultItem(row.chunkId, row.cik + DocYearSuffix, row.cik, CompanyNameFor(db, row.cik),
                  row.filename, row.sectionName, row.chunkText, row.charCount)
      .(vectorScore := Some(Similarity(row.distance)),
        distance := if includeDistances then Some(row.distance) else None)
  }

  function VectorItems(db: Db, rows: seq<ChunkRow>, includeDistances: bool): (items: seq<SearchResultItem>)
    ensures |items| == |rows|
    ensures forall i :: 0 <= i < |rows| ==> items[i] == VectorItem(db, rows[i], includeDistances)
  {
    seq(|rows|, i requires 0 <= i < |rows| => VectorItem(db, rows[i], includeDistances))
  }

  /** Rows ordered by ascending distance (the query's ORDER BY) come out
      ordered by non-increasing similarity; every similarity is non-negative,
      and a distance is reported exactly when requested. */
  lemma {:induction false} VectorItemsProperties(db: Db, rows: seq<ChunkRow>, includeDistances: bool)
    requires forall i, j :: 0 <= i < j < |rows| ==> rows[i].distance <= rows[j].distance
    ensures var items := VectorItems(db, rows, includeDistances);
      forall i, j :: 0 <= i < j < |items| ==>
        items[i].vectorScore.value >= items[j].vectorScore.value
    ensures forall i :: 0 <= i < |rows| ==>
      var item := VectorItems(db, rows, includeDistances)[i];
      && item.docId == rows[i].cik + "_2019"
      && item.vectorScore.Some? && item.vectorScore.value >= 0.0
      && (item.distance.Some? <==> includeDistances)
      && item.ftsScore.None? && item.combinedScore.None?
  {
    var items := VectorItems(db, rows, includeDistances);
    forall i, j | 0 <= i < j < |items|
      ensures items[i].vectorScore.value >= items[j].vectorScore.value
    {
      SimilarityProperties(rows[i].distance, rows[j].distance);
    }
  }

  /** What `search_chunks` answers once the embedding call has produced
      `embedding` (lines after the availability gate). */
  function VectorResponseWith(engine: VectorEngine, req: VectorSearchRequest, embedding: Outcome<Option<seq<real>>>): (r: SearchResponse)
    ensures r.searchMethod == Vector && r.query == req.base.query
    ensures r.totalResults == |r.results|
    ensures !VectorAvailable(engine) ==>
              r.results == [] && r.explanation ==
                VectorUnavailable(UnavailableMessage, engine.vssAvailable, engine.embeddingsAvailable, engine.hasOpenaiClient)
    ensures VectorAvailable(engine) && embedding.Raised? ==> r == ErrorResponse(req.base.query, Vector, embedding.message)
    ensures VectorAvailable(engine) && embedding.Returned? && (embedding.value.None? || embedding.value.value == []) ==>
              r == ErrorResponse(req.base.query, Vector, NoEmbeddingMessage)
    ensures VectorAvailable(engine) && embedding.Returned? && embedding.value.Some? && embedding.value.value != []
            && VectorPlan(engine.db, req, embedding.value.value).EmptyFrame? ==>
              r == ResultsResponse(req.base.query, Vector, [], NoExplanation)
    ensures VectorAvailable(engine) && embedding.Returned? && embedding.value.Some? && embedding.value.value != []
            && VectorPlan(engine.db, req, embedding.value.value).Run?
            && engine.db.chunks(VectorPlan(engine.db, req, embedding.value.value).query).Raised? ==>
              r == ErrorResponse(req.base.query, Vector,
                                 engine.db.chunks(VectorPlan(engine.db, req, embedding.value.value).query).message)
    ensures VectorAvailable(engine) && embedding.Returned? && embedding.value.Some? && embedding.value.value != []
            && VectorPlan(engine.db, req, embedding.value.value).Run?
            && engine.db.chunks(VectorPlan(engine.db, req, embedding.value.value).query).Returned? ==>
              r.results == VectorItems(engine.db, engine.db.chunks(VectorPlan(engine.db, req, embedding.value.value).query).value,
                                       req.includeDistances)
              && r.explanation == NoExplanation
  {
    if !VectorAvailable(engine) then
      SearchResponse(req.base.query, Vector, 0, [],
        VectorUnavailable(UnavailableMessage, engine.vssAvailable, engine.embeddingsAvailable, engine.hasOpenaiClient))
    else
      match embedding
      case Raised(m) => ErrorResponse(req.base.query, Vector, m)
      case Returned(e) =>
        if e.None? || e.value == [] then ErrorResponse(req.base.query, Vector, NoEmbeddingMessage)
        else
          match VectorPlan(engine.db, req, e.value)
          case EmptyFrame => ResultsResponse(req.base.query, Vector, [], NoExplanation)
          case Run(q) =>
            match engine.db.chunks(q)
            case Raised(m) => ErrorResponse(req.base.query, Vector, m)
            case Returned(rows) =>
              ResultsResponse(req.base.query, Vector, VectorItems(engine.db, rows, req.includeDistances), NoExplanation)
  }

  /** What `search_chunks` answers. */
  function VectorResponse(engine: VectorEngine, req: VectorSearchRequest): SearchResponse {
    VectorResponseWith(engine, req, GenerateQueryEmbedding(req.base.query))
  }

  /** With the embedding routine as written, no vector search returns a
      result: an unavailable engine reports its three prerequisites, an
      available one reports the NotImplementedError message. */
  lemma VectorSearchAlwaysEmpty(engine: VectorEngine, req: VectorSearchRequest)
    ensures VectorResponse(engine, req).totalResults == 0
    ensures VectorResponse(engine, req).results == []
    ensures VectorAvailable(engine) ==> VectorResponse(engine, req).explanation == Failed(NotImplementedMessage)
    ensures !VectorAvailable(engine) ==> VectorResponse(engine, req).explanation.VectorUnavailable?
  {
  }

  /** `search_chunks` as written. */
  method SearchChunks(engine: VectorEngine, req: VectorSearchRequest) returns (r: SearchResponse)
    ensures r == VectorResponse(engine, req)
  {
    if !VectorAvailable(engine) {
      return SearchResponse(req.base.query, Vector, 0, [],
        VectorUnavailable(UnavailableMessage, engine.vssAvailable, engine.embeddingsAvailable, engine.hasOpenaiClient));
    }
    var embedding := GenerateQueryEmbedding(req.base.query);
    r := SearchAfterEmbedding(engine, req, embedding);
  }

  /** The body of `search_chunks` after the availability gate, given what
      the embedding call produced. */
  method SearchAfterEmbedding(engine: VectorEngine, req: VectorSearchRequest, embedding: Outcome<Option<seq<real>>>)
    returns (r: SearchResponse)
    requires VectorAvailable(engine)
    ensures r == VectorResponseWith(engine, req, embedding)
  {
    if embedding.Raised? {
      return ErrorResponse(req.base.query, Vector, embedding.message);
    }
    var e := embedding.value;
    if e.None? || e.value == [] {
      return ErrorResponse(req.base.query, Vector, NoEmbeddingMessage);
    }
    var plan := SearchVectors(engine, req, e.value);
    if plan.EmptyFrame? {
      var items := FormatResults(engine.db, [], req.includeDistances);
      return ResultsResponse(req.base.query, Vector, items, NoExplanation);
    }
    var outcome := engine.db.chunks(plan.query);
    if outcome.Raised? {
      return ErrorResponse(req.base.query, Vector, outcome.message);
    }
    var items := FormatResults(engine.db, outcome.value, req.includeDistances);
    r := ResultsResponse(req.base.query, Vector, items, NoExplanation);
  }

  /** `_search_vectors`, appending conditions and parameters step by step. */
  method SearchVectors(engine: VectorEngine, req: VectorSearchRequest, embedding: seq<real>) returns (plan: Plan)
    ensures plan == VectorPlan(engine.db, req, embedding)
  {
    var params := [PEmbedding(embedding)];
    var conditions: seq<Condition> := [];
    if Given(req.base.tickers) {
      var ciks := LookupCiksForTickers(engine.db, req.base.tickers.value);
      if ciks != [] {
        conditions := conditions + [CikIn(|ciks|)];
        params := params + TextParams(ciks);
      } else {
        return EmptyFrame;
      }
    }
    if Given(req.base.ciks) {
      conditions := conditions + [CikIn(|req.base.ciks.value|)];
      params := params + TextParams(req.base.ciks.value);
    }
    assert params == [params[0]] + params[1..];
    assert CikFilters(engine.db, req.base) == Filter(conditions, params[1..]);
    if GivenReal(req.maxDistance) {
      conditions := conditions + [DistanceAtMost];
      params := params + [PReal(req.maxDistance.value)];
    }
    params := params + [PInt(req.base.limit)];
    plan := Run(Query(ChunksByDistance, conditions, params));
  }

  /** `_format_results`: one item per row, in row order. */
  method FormatResults(db: Db, rows: seq<ChunkRow>, includeDistances: bool) returns (items: seq<SearchResultItem>)
    ensures items == VectorItems(db, rows, includeDistances)
  {
    if |rows| == 0 {
      return [];
    }
    items := [];
    var i := 0;
    while i < |rows|
      invariant 0 <= i <= |rows|
      invariant |items| == i
      invariant forall j :: 0 <= j < i ==> items[j] == VectorItem(db, rows[j], includeDistances)
    {
      var distance := rows[i].distance;
      var similarity := if 1.0 - distance > 0.0 then 1.0 - distance else 0.0;
      var item := NewResultItem(rows[i].chunkId, rows[i].cik + DocYearSuffix, rows[i].cik, CompanyNameFor(db, rows[i].cik),
                                rows[i].filename, rows[i].sectionName, rows[i].chunkText, rows[i].charCount)
                    .(vectorScore := Some(similarity), distance := if includeDistances then Some(distance) else None);
      items := items + [item];
      i := i + 1;
    }
  }
}
