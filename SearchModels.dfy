/** The request and response models of the search API (server/search_models.py):
    Pydantic field bounds become validity predicates, field defaults become
    constructor functions, and the free-form `explanation` dictionary becomes
    a datatype with one variant per shape the engines produce. */
module SearchModels {
  import opened Wrappers

  const DefaultLimit: int := 10
  const MaxLimit: int := 100
  const DefaultFtsWeight: real := 0.3
  const DefaultSemanticWeight: real := 0.7
  const MaxCosineDistance: real := 2.0

  /** Fields shared by every search request (`SearchRequest`). */
  datatype SearchRequest = SearchRequest(
    query: string,
    limit: int,
    tickers: Option<seq<string>>,
    ciks: Option<seq<string>>)

  /** `FTSSearchRequest`: a full-text request with an optional BM25 threshold. */
  datatype FtsSearchRequest = FtsSearchRequest(base: SearchRequest, minScore: Option<real>)

  /** `VectorSearchRequest`: a similarity request. */
  datatype VectorSearchRequest = VectorSearchRequest(
    base: SearchRequest,
    includeDistances: bool,
    maxDistance: Option<real>)

  /** `HybridSearchRequest`: a request blending both engines. */
  datatype HybridSearchRequest = HybridSearchRequest(
    base: SearchRequest,
    ftsWeight: real,
    semanticWeight: real,
    normalizeScores: bool)

  /** `limit: int = Field(10, ge=1, le=100)` */
  predicate ValidSearchRequest(r: SearchRequest) {
    1 <= r.limit <= MaxLimit
  }

  /** `min_score: Optional[float] = Field(None, ge=0)` */
  predicate ValidFtsRequest(r: FtsSearchRequest) {
    ValidSearchRequest(r.base) && (r.minScore.Some? ==> r.minScore.value >= 0.0)
  }

  /** `max_distance: Optional[float] = Field(None, ge=0, le=2)` */
  predicate ValidVectorRequest(r: VectorSearchRequest) {
    ValidSearchRequest(r.base)
    && (r.maxDistance.Some? ==> 0.0 <= r.maxDistance.value <= MaxCosineDistance)
  }

  /** Both weights lie in [0, 1]. */
  predicate ValidHybridRequest(r: HybridSearchRequest) {
    ValidSearchRequest(r.base)
    && 0.0 <= r.ftsWeight <= 1.0
    && 0.0 <= r.semanticWeight <= 1.0
  }

  /** A request built from a query alone: `limit` 10, no ticker or CIK filter. */
  function NewSearchRequest(query: string): SearchRequest {
    SearchRequest(query, DefaultLimit, None, None)
  }

  function NewFtsRequest(query: string): FtsSearchRequest {
    FtsSearchRequest(NewSearchRequest(query), None)
  }

  function NewVectorRequest(query: string): VectorSearchRequest {
    VectorSearchRequest(NewSearchRequest(query), true, None)
  }

  function NewHybridRequest(query: string): HybridSearchRequest {
    HybridSearchRequest(NewSearchRequest(query), DefaultFtsWeight, DefaultSemanticWeight, true)
  }

  /** Every default value lies inside the bounds its field declares, and the
      default weights are not both zero. */
  lemma DefaultsAreValid(query: string)
    ensures ValidFtsRequest(NewFtsRequest(query))
    ensures ValidVectorRequest(NewVectorRequest(query))
    ensures ValidHybridRequest(NewHybridRequest(query))
    ensures NewHybridRequest(query).ftsWeight + NewHybridRequest(query).semanticWeight == 1.0
  {
  }

  /** One ranked chunk (`SearchResultItem`); the four scores are optional. */
  datatype SearchResultItem = SearchResultItem(
    chunkId: string,
    docId: string,
    cik: string,
    companyName: Option<string>,
    filename: string,
    sectionName: string,
    chunkText: string,
    charCount: int,
    ftsScore: Option<real>,
    vectorScore: Option<real>,
    distance: Option<real>,
    combinedScore: Option<real>)

  /** An item as Pydantic builds it when only the required fields are given:
      every score field takes its default, None. */
  function NewResultItem(
    chunkId: string, docId: string, cik: string, companyName: Option<string>,
    filename: string, sectionName: string, chunkText: string, charCount: int): (item: SearchResultItem)
    ensures item.ftsScore == None && item.vectorScore == None
    ensures item.distance == None && item.combinedScore == None
    ensures item.chunkId == chunkId && item.docId == docId && item.cik == cik && item.companyName == companyName
  {
    SearchResultItem(chunkId, docId, cik, companyName, filename, sectionName, chunkText, charCount,
                     None, None, None, None)
  }

  /** Python's `score or 0`: an absent score counts as zero. */
  function ScoreOr0(score: Option<real>): real {
    score.GetOr(0.0)
  }

  /** The `explanation` dictionary of a response. */
  datatype Explanation =
    | NoExplanation
      /** `{"error": message}` */
    | Failed(error: string)
      /** the vector engine's report of which of its three prerequisites hold */
    | VectorUnavailable(error: string, vssAvailable: bool, embeddingsAvailable: bool, openaiAvailable: bool)
      /** the hybrid engine's report of the normalised weights and list sizes */
    | HybridWeights(ftsWeight: real, semanticWeight: real, ftsResults: nat, vectorResults: nat, combinedUnique: nat)

  /** The `method` field of a response: "fts", "vector" or "hybrid". */
  datatype SearchMethod = Fts | Vector | Hybrid

  /** `SearchResponse` (the timing field is not modelled). */
  datatype SearchResponse = SearchResponse(
    query: string,
    searchMethod: SearchMethod,
    totalResults: int,
    results: seq<SearchResultItem>,
    explanation: Explanation)

  /** The zero-result response every engine returns on a failure. */
  function ErrorResponse(query: string, searchMethod: SearchMethod, message: string): (r: SearchResponse)
    ensures r.totalResults == 0 && r.results == [] && r.explanation == Failed(message)
  {
    SearchResponse(query, searchMethod, 0, [], Failed(message))
  }

  /** A successful response: the count it reports is the length of its list. */
  function ResultsResponse(query: string, searchMethod: SearchMethod, results: seq<SearchResultItem>, explanation: Explanation): (r: SearchResponse)
    ensures r.totalResults == |r.results| && r.results == results
  {
    SearchResponse(query, searchMethod, |results|, results, explanation)
  }

  /** Python truthiness of an optional list: present and non-empty. */
  predicate Given<T>(xs: Option<seq<T>>) {
    xs.Some? && |xs.value| > 0
  }

  /** Python truthiness of an optional float: present and non-zero. */
  predicate GivenReal(x: Option<real>) {
    x.Some? && x.value != 0.0
  }
}
