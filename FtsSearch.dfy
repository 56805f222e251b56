/** The full-text engine (`FTSSearchEngine`, server/fts_search.py): BM25
    ranking when the FTS extension answered its probe at start-up, a
    case-insensitive substring match otherwise. */
module FtsSearch {
  import opened Wrappers
  import opened SearchModels
  import opened Database
  import opened ChunkFilters

  /** The engine's state, fixed at construction: its connection and the
      result of the FTS availability probe (the probe itself is not modelled). */
  datatype FtsEngine = FtsEngine(db: Db, ftsAvailable: bool)

  /** `_search_fts`: the BM25 query, or an empty frame when the tickers
      resolve to no CIK. The search text is the first parameter, the minimum
      score is filtered only when it is given and non-zero, and the limit is
      the last parameter. */
  function FtsPlan(db: Db, req: FtsSearchRequest): (p: Plan)
    ensures p.EmptyFrame? <==> CikFilters(db, req.base).NoMatch?
    ensures p.Run? ==> p.query.source == ChunksBm25 && WellFormed(p.query, req.base.limit)
    ensures p.Run? ==> p.query.params[0] == PText(req.base.query)
    ensures p.Run? ==> (ScoreAtLeast in p.query.conditions <==> GivenReal(req.minScore))
  {
    match CikFilters(db, req.base)
    case NoMatch => EmptyFrame
    case Filter(cs, ps) =>
      var sc := if GivenReal(req.minScore) then [ScoreAtLeast] else [];
      var sp := if GivenReal(req.minScore) then [PReal(req.minScore.value)] else [];
      ConditionSlotsAppend(cs, sc);
      Run(Query(ChunksBm25, cs + sc, [PText(req.base.query)] + ps + sp + [PInt(req.base.limit)]))
  }

  /** `_search_like_fallback`: the substring query `%query%`; the minimum
      score is not applied on this path. */
  function LikePlan(db: Db, req: FtsSearchRequest): (p: Plan)
    ensures p.EmptyFrame? <==> CikFilters(db, req.base).NoMatch?
    ensures p.Run? ==> p.query.source == ChunksLike && WellFormed(p.query, req.base.limit)
    ensures p.Run? ==> p.query.params[0] == PText("%" + req.base.query + "%")
    ensures p.Run? ==> ScoreAtLeast !in p.query.conditions
  {
    match CikFilters(db, req.base)
    case NoMatch => EmptyFrame
    case Filter(cs, ps) =>
      Run(Query(ChunksLike, cs, [PText("%" + req.base.query + "%")] + ps + [PInt(req.base.limit)]))
  }

  /** The BM25 query binds, after the search text, exactly the CIK values of
      the filters (ticker CIKs, then listed CIKs), then the minimum score when
      it is truthy, then the limit; its first conditions are the filters'. */
  lemma FtsPlanBinds(db: Db, req: FtsSearchRequest)
    ensures FtsPlan(db, req).Run? ==> CikFilters(db, req.base).Filter?
    ensures FtsPlan(db, req).Run? ==>
      var q, f := FtsPlan(db, req).query, CikFilters(db, req.base);
      && |q.params| == 2 + |f.params| + (if GivenReal(req.minScore) then 1 else 0)
      && q.params[1..1 + |f.params|] == f.params
      && q.conditions[..|f.conditions|] == f.conditions
    ensures FtsPlan(db, req).Run? && GivenReal(req.minScore) ==>
      FtsPlan(db, req).query.params[|FtsPlan(db, req).query.params| - 2] == PReal(req.minScore.value)
  {
    match CikFilters(db, req.base)
    case NoMatch =>
    case Filter(cs, ps) =>
      var sc := if GivenReal(req.minScore) then [ScoreAtLeast] else [];
      var sp := if GivenReal(req.minScore) then [PReal(req.minScore.value)] else [];
      ParamsLayout(PText(req.base.query), ps, sp, PInt(req.base.limit));
      assert (cs + sc)[..|cs|] == cs;
  }

  /** The substring query binds, after the pattern, exactly the CIK values
      of the filters, then the limit; its conditions are the filters'. */
  lemma LikePlanBinds(db: Db, req: FtsSearchRequest)
    ensures LikePlan(db, req).Run? ==> CikFilters(db, req.base).Filter?
    ensures LikePlan(db, req).Run? ==>
      var q, f := LikePlan(db, req).query, CikFilters(db, req.base);
      && |q.params| == 2 + |f.params|
      && q.params[1..1 + |f.params|] == f.params
      && q.conditions == f.conditions
  {
    match CikFilters(db, req.base)
    case NoMatch =>
    case Filter(cs, ps) =>
      ParamsLayout(PText("%" + req.base.query + "%"), ps, [], PInt(req.base.limit));
      assert [PText("%" + req.base.query + "%")] + ps + [] == [PText("%" + req.base.query + "%")] + ps;
  }

  /** The query `search_chunks` runs: BM25 exactly when FTS is available. */
  function QueryPlan(engine: FtsEngine, req: FtsSearchRequest): Plan {
    if engine.ftsAvailable then FtsPlan(engine.db, req) else LikePlan(engine.db, req)
  }

  /** One formatted row: the document id is rebuilt from the CIK, the BM25
      score (None for a NULL score) is the only score set. */
  function FtsItem(db: Db, row: ChunkRow): SearchResultItem {
    NewResultItem(row.chunkId, row.cik + DocYearSuffix, row.cik, CompanyNameFor(db, row.cik),
                  row.filename, row.sectionName, row.chunkText, row.charCount).(ftsScore := row.score)
  }

  function FtsItems(db: Db, rows: seq<ChunkRow>): (items: seq<SearchResultItem>)
    ensures |items| == |rows|
    ensures forall i :: 0 <= i < |rows| ==> items[i] == FtsItem(db, rows[i])
  {
    seq(|rows|, i requires 0 <= i < |rows| => FtsItem(db, rows[i]))
  }

  /** What `search_chunks` answers. */
  function FtsResponse(engine: FtsEngine, req: FtsSearchRequest): (r: SearchResponse)
    ensures r.searchMethod == Fts && r.query == req.base.query
    ensures r.totalResults == |r.results|
    ensures QueryPlan(engine, req).EmptyFrame? ==> r.results == [] && r.explanation == NoExplanation
    ensures r.explanation.Failed? <==>
              QueryPlan(engine, req).Run? && engine.db.chunks(QueryPlan(engine, req).query).Raised?
    ensures r.explanation.Failed? ==>
              r.results == [] && r.explanation.error == engine.db.chunks(QueryPlan(engine, req).query).message
    ensures QueryPlan(engine, req).Run? && engine.db.chunks(QueryPlan(engine, req).query).Returned? ==>
              r.results == FtsItems(engine.db, engine.db.chunks(QueryPlan(engine, req).query).value)
              && r.explanation == NoExplanation
  {
    match QueryPlan(engine, req)
    case EmptyFrame => ResultsResponse(req.base.query, Fts, [], NoExplanation)
    case Run(q) =>
      match engine.db.chunks(q)
      case Raised(m) => ErrorResponse(req.base.query, Fts, m)
      case Returned(rows) => ResultsResponse(req.base.query, Fts, FtsItems(engine.db, rows), NoExplanation)
  }

  /** Every formatted item keeps its row's chunk, carries the document id
      `cik + "_2019"`, has a BM25 score exactly when the row's score is not
      NULL, and no other score. */
  lemma FtsItemsProperties(db: Db, rows: seq<ChunkRow>)
    ensures forall i :: 0 <= i < |rows| ==>
      var item := FtsItems(db, rows)[i];
      && item.chunkId == rows[i].chunkId
      && item.docId == rows[i].cik + "_2019"
      && (item.ftsScore.None? <==> rows[i].score.None?)
      && item.vectorScore.None? && item.distance.None? && item.combinedScore.None?
  {
  }

  /** `search_chunks`: build the query for the available path, run it, and
      format the rows; a raising query becomes a zero-result error response. */
  method SearchChunks(engine: FtsEngine, req: FtsSearchRequest) returns (r: SearchResponse)
    ensures r == FtsResponse(engine, req)
  {
    var plan: Plan;
    if engine.ftsAvailable {
      plan := SearchFts(engine, req);
    } else {
      plan := SearchLikeFallback(engine, req);
    }
    if plan.EmptyFrame? {
      var items := FormatResults(engine.db, []);
      return ResultsResponse(req.base.query, Fts, items, NoExplanation);
    }
    var outcome := engine.db.chunks(plan.query);
    if outcome.Raised? {
      return ErrorResponse(req.base.query, Fts, outcome.message);
    }
    var items := FormatResults(engine.db, outcome.value);
    r := ResultsResponse(req.base.query, Fts, items, NoExplanation);
  }

  /** `_search_fts`, appending conditions and parameters step by step. */
  method SearchFts(engine: FtsEngine, req: FtsSearchRequest) returns (plan: Plan)
    ensures plan == FtsPlan(engine.db, req)
  {
    var params := [PText(req.base.query)];
    var conditions: seq<Condition> := [];
    if Given(req.base.tickers) {
      var ciks := LookupCiksForTickers(engine.db, req.base.tickers.value);
      if ciks != [] {
        conditions := conditions + [CikIn(|ciks|)];
        params := params + TextParams(ciks);
      } else {
        return EmptyFrame;
      }
    }
    if Given(req.base.ciks) {
      conditions := conditions + [CikIn(|req.base.ciks.value|)];
      params := params + TextParams(req.base.ciks.value);
    }
    assert params == [params[0]] + params[1..];
    assert CikFilters(engine.db, req.base) == Filter(conditions, params[1..]);
    if GivenReal(req.minScore) {
      conditions := conditions + [ScoreAtLeast];
      params := params + [PReal(req.minScore.value)];
    }
    params := params + [PInt(req.base.limit)];
    plan := Run(Query(ChunksBm25, conditions, params));
  }

  /** `_search_like_fallback`, appending conditions and parameters step by step. */
  method SearchLikeFallback(engine: FtsEngine, req: FtsSearchRequest) returns (plan: Plan)
    ensures plan == LikePlan(engine.db, req)
  {
    var params := [PText("%" + req.base.query + "%")];
    var conditions: seq<Condition> := [];
    if Given(req.base.tickers) {
      var ciks := LookupCiksForTickers(engine.db, req.base.tickers.value);
      if ciks != [] {
        conditions := conditions + [CikIn(|ciks|)];
        params := params + TextParams(ciks);
      } else {
        return EmptyFrame;
      }
    }
    if Given(req.base.ciks) {
      conditions := conditions + [CikIn(|req.base.ciks.value|)];
      params := params + TextParams(req.base.ciks.value);
    }
    params := params + [PInt(req.base.limit)];
    plan := Run(Query(ChunksLike, conditions, params));
  }

  /** `_format_results`: one item per row, in row order. */
  method FormatResults(db: Db, rows: seq<ChunkRow>) returns (items: seq<SearchResultItem>)
    ensures items == FtsItems(db, rows)
  {
    if |rows| == 0 {
      return [];
    }
    items := [];
    var i := 0;
    while i < |rows|
      invariant 0 <= i <= |rows|
      invariant |items| == i
      invariant forall j :: 0 <= j < i ==> items[j] == FtsItem(db, rows[j])
    {
      items := items + [FtsItem(db, rows[i])];
      i := i + 1;
    }
  }
}
