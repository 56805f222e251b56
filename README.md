# Search server core: hybrid fusion, query building and request models

This project models the Python search server behind the filing explorer and
proves properties of it. It covers five parts of that server.

- **Request and response models** (`server/search_models.py`). The Pydantic
  field bounds become validity predicates. The field defaults become
  constructor functions. The free-form `explanation` dictionary becomes a
  datatype with one variant per shape the engines produce.
- **The full-text engine** (`FTSSearchEngine`, `server/fts_search.py`). It
  uses BM25 ranking when the FTS extension is available and a `%query%`
  substring match otherwise. It resolves tickers to CIKs, and tickers that
  resolve to nothing give an empty frame. It formats rows with
  `doc_id = cik + "_2019"`, and a failing query becomes a zero-result error
  response.
- **The similarity engine** (`VectorSearchEngine`,
  `server/vector_search.py`). It has the three-way availability gate, the
  distance query builder, similarity `max(0, 1 - distance)` and the optional
  distance. Its query-embedding routine always raises, so every search that
  passes the gate ends in the error response.
- **The hybrid engine** (`HybridSearchEngine`, `server/hybrid_search.py`).
  - It rejects a non-positive weight total and normalises the weights.
  - It decides which engine to ask and with what fetch limit.
  - `_combine_results` merges the two lists into one entry per chunk id
    (the dict, its two loops, in-place updates of existing entries) and sorts
    by combined score with Python's stable descending sort.
  - It truncates to `limit`.
  - `_analyze_result_composition` computes the source breakdown, the company
    distribution and the score range.
- **The metadata endpoints** (`server/main.py`). This covers the condition
  and parameter lists of `search_companies` and `search_documents`, the
  comma-separated ticker and CIK parsing, the 400/404/500 answers, and the
  not-found rule of `get_document_by_id`.

Modelling choices:
- The database is a datatype of total functions (`Database.Db`). Each maps a
  query to the rows it returns or to the message of the exception it raises.
- A query is its source table, its list of WHERE conditions and its parameter
  list. The SQL text itself is not modelled. `WellFormed` states that the
  `?` placeholders and the parameters are in step and that the limit is the
  last parameter.
- Scores are `real`.
- Python's `x or 0`, truthiness of optional values and `sorted(...,
  reverse=True)` are written out as `ScoreOr0`, `Given`/`GivenReal`/`GivenInt`
  and `SortByKeyDesc`.
- An HTTP failure is `Api.HttpError(status, detail)`.
- The places where the source changes state step by step are methods proved
  against the specification functions. This covers the list-appending query
  builders, the formatting loops, the dict-filling loops of
  `_combine_results` and the company tally. The properties are proved as
  lemmas about those functions.

`search_companies` takes no `has_documents_only` parameter; the model has
none either.

## Model

| member | source | states |
|---|---|---|
| SearchModels.DefaultsAreValid | server/search_models.py:9-32 | requests built from defaults (limit 10, no filters, distances included, weights 0.3/0.7, normalisation on) satisfy every declared field bound, and the default weights sum to 1 |
| SearchModels.NewResultItem | server/search_models.py:35-50 | a result item built from its required fields has all four scores (fts, vector, distance, combined) absent |
| Database.LookupCiksProperties | server/fts_search.py:192-209 | an empty ticker list gives no CIK without consulting the database; the lookup only sees upper-cased tickers, so it is case-insensitive; a raising lookup gives no CIK |
| Database.CompanyNameFor | server/fts_search.py:238-251 | an empty CIK gives None; for a non-empty CIK the lookup's answer is returned (the name, or None when no row matches), and a failed lookup gives None |
| ChunkFilters.CikFilters | server/fts_search.py:119-133 | the filter step yields an empty frame exactly when tickers are given and resolve to no CIK; otherwise it adds one `cik IN` condition per given ticker/CIK filter and its placeholders equal its parameters |
| ChunkFilters.CikFiltersBinds | server/fts_search.py:119-133 | the filter parameters are exactly the CIKs the tickers resolve to (first, under the first `cik IN` condition) followed by the listed CIKs (last, under the last condition), and nothing else |
| FtsSearch.FtsPlan | server/fts_search.py:92-146 | BM25 query: empty frame exactly when tickers resolve to nothing; placeholders match parameters; the query text is the first parameter and the limit the last; `score >= ?` present exactly when `min_score` is truthy |
| FtsSearch.LikePlan | server/fts_search.py:148-190 | fallback query: same empty-frame rule and well-formedness, first parameter `%query%`, and never a score condition |
| FtsSearch.FtsPlanBinds | server/fts_search.py:115-146 | a running BM25 query binds, right after the query text, exactly the filter parameters, then `min_score` (second to last) when it is truthy, then the limit; its first conditions are the filter conditions |
| FtsSearch.LikePlanBinds | server/fts_search.py:166-190 | a running fallback query binds, right after `%query%`, exactly the filter parameters and then the limit; its conditions are exactly the filter conditions |
| FtsSearch.FtsResponse | server/fts_search.py:51-90 | `total_results` is the length of the results; an empty frame gives no results and no error; the response carries an error exactly when the chosen query raises, and then has no results and the exception's message; a query that returns rows answers their formatted items, one per row in order, with no error |
| FtsSearch.FtsItemsProperties | server/fts_search.py:211-236 | each formatted item keeps its row's chunk id, has `doc_id = cik + "_2019"`, has a BM25 score exactly when the row's score is not NULL, and no vector score, distance or combined score |
| FtsSearch.SearchChunks | server/fts_search.py:51-90 | `search_chunks` (BM25 exactly when FTS is available, LIKE otherwise) answers `FtsResponse` |
| FtsSearch.SearchFts | server/fts_search.py:92-146 | the append-by-append builder produces exactly `FtsPlan` |
| FtsSearch.SearchLikeFallback | server/fts_search.py:148-190 | the append-by-append builder produces exactly `LikePlan` |
| FtsSearch.FormatResults | server/fts_search.py:211-236 | the formatting loop gives one item per row in row order (`[]` for an empty frame) |
| VectorSearch.GenerateQueryEmbedding | server/vector_search.py:144-145 | the embedding routine raises NotImplementedError for every query |
| VectorSearch.VectorPlan | server/vector_search.py:147-194 | distance query: empty frame exactly when tickers resolve to nothing; placeholders match parameters; the embedding is the first parameter and the limit the last; the distance condition is present exactly when `max_distance` is truthy |
| VectorSearch.VectorPlanBinds | server/vector_search.py:166-194 | a running distance query binds, right after the embedding, exactly the filter parameters, then `max_distance` (second to last) when it is truthy, then the limit; its first conditions are the filter conditions |
| VectorSearch.Similarity | server/vector_search.py:226-228 | `max(0, 1 - distance)` is non-negative, at least `1 - distance`, and equal to one of the two |
| VectorSearch.SimilarityProperties | server/vector_search.py:226-228 | a non-negative distance gives a similarity of at most 1, and a smaller distance never gives a smaller similarity |
| VectorSearch.VectorItemsProperties | server/vector_search.py:215-245 | rows ordered by ascending distance give items ordered by non-increasing vector score; each item has `doc_id = cik + "_2019"`, a non-negative vector score, a distance exactly when requested, and no FTS or combined score |
| VectorSearch.VectorResponseWith | server/vector_search.py:80-142 | an unavailable engine answers no results and reports its three prerequisite flags; a raising embedding call gives the error response with its message; a missing or empty embedding gives "Could not generate query embedding"; after a non-empty embedding, an empty frame gives no results, a raising query gives the error response with its message, and returned rows give their formatted items with no error; `total_results` is always the length of the results |
| VectorSearch.VectorSearchAlwaysEmpty | server/vector_search.py:80-145 | with the embedding routine as written, every vector search returns zero results: the NotImplementedError message when available, the availability report otherwise |
| VectorSearch.SearchChunks | server/vector_search.py:80-142 | `search_chunks` answers `VectorResponse` |
| VectorSearch.SearchAfterEmbedding | server/vector_search.py:106-142 | the steps after the availability gate answer `VectorResponseWith` for the embedding outcome |
| VectorSearch.SearchVectors | server/vector_search.py:147-194 | the append-by-append builder produces exactly `VectorPlan` |
| VectorSearch.FormatResults | server/vector_search.py:215-245 | the formatting loop gives one item per row in row order (`[]` for an empty frame) |
| HybridFusion.Normalizer | server/hybrid_search.py:155-159 | the divisor is positive; it is the list's maximum when normalising a non-empty list with a positive maximum, and 1 otherwise |
| HybridFusion.NormalizedInUnitInterval | server/hybrid_search.py:155-162 | with normalisation on and no negative score, every normalised score lies in [0, 1] |
| HybridFusion.FtsOnlyEntry | server/hybrid_search.py:161-179 | a chunk only in the FTS list keeps the fields of its last FTS occurrence, gets vector score 0 and no distance, and has combined score equal to its normalised FTS score times the FTS weight |
| HybridFusion.VectorOnlyEntry | server/hybrid_search.py:188-214 | a chunk only in the vector list keeps the fields of its first vector occurrence, gets FTS score 0, takes the score and distance of its last vector occurrence, and has combined score equal to its normalised vector score times the semantic weight |
| HybridFusion.BothEntry | server/hybrid_search.py:188-196 | a chunk in both lists keeps its last FTS occurrence's fields and takes the last vector occurrence's score and distance; its combined score is the sum of both weighted scores |
| HybridFusion.FusedItemsProperties | server/hybrid_search.py:151-214 | the dict holds each chunk id of either list exactly once, in first-seen order, and each value is that id's fused entry |
| HybridFusion.CombinedProperties | server/hybrid_search.py:134-223 | the combined list has at most `len(fts) + len(vector)` entries and is ordered by non-increasing combined score; a chunk id occurs in it exactly when it occurs in either input, each id occurs once, and each entry is its id's fused entry |
| HybridFusion.CombineResults | server/hybrid_search.py:134-223 | the two dict-filling loops followed by the descending sort of the dict's values produce exactly `Combined` |
| HybridFusion.AddFtsResults | server/hybrid_search.py:161-179 | after the FTS loop, the dict holds the fused entry of every FTS chunk id, with later duplicates overwriting earlier ones |
| HybridFusion.MergeVectorResults | server/hybrid_search.py:188-214 | after the vector loop, existing entries are updated in place and new ids appended, so the dict holds the fused entry of every id of either list |
| HybridSearch.FetchLimit | server/hybrid_search.py:68 | each engine is asked for `min(limit * 3, 100)` results |
| HybridSearch.NormalizeWeightsProperties | server/hybrid_search.py:62-64 | the normalised weights are non-negative, sum to 1, keep the ratio of the requested weights, and each is positive exactly when the requested weight is |
| HybridSearch.SubRequestsProperties | server/hybrid_search.py:68-93 | the sub-requests are valid, ask for between `limit` and 100 (and at least 3) results, carry the query and both filters over, and the vector one requests distances |
| HybridSearch.Truncate | server/hybrid_search.py:105 | `combined[:limit]` is a prefix of at most `limit` entries, and is the whole list when the list is shorter |
| HybridSearch.HybridResponse | server/hybrid_search.py:39-122 | the hybrid response reports method "hybrid" and the request's query, and its `total_results` is the length of its results and at most `limit` |
| HybridSearch.RejectedWeights | server/hybrid_search.py:51-60 | a weight total `<= 0` (both weights zero) gives the zero-result error "Combined weights must be greater than 0" whatever the engines are; otherwise the explanation reports the weights |
| HybridSearch.EngineGating | server/hybrid_search.py:70-121 | the FTS engine is asked exactly when it is available and its weight is positive, and likewise the vector engine; an engine not asked contributes an empty list; the explanation reports the normalised weights and the sizes of the two lists and of the fused list |
| HybridSearch.UnavailableIsEmpty | server/hybrid_search.py:35-37 | with neither engine available (`hybrid_available` false), the hybrid search returns no results |
| HybridSearch.HybridResultsProperties | server/hybrid_search.py:97-113 | the answer is the prefix of the fused list of length `min(limit, len(combined))`; it is ordered by non-increasing combined score, has one entry per chunk id, and each id comes from one of the two lists |
| HybridSearch.VectorNeverContributes | server/hybrid_search.py:83-101 | because the vector engine never returns a result, every hybrid entry has vector score 0, no distance, and combined score equal to its normalised FTS score times the FTS weight |
| HybridSearch.SearchChunks | server/hybrid_search.py:39-122 | `search_chunks` answers `HybridResponse` |
| HybridSearch.FetchFts | server/hybrid_search.py:70-81 | the FTS block yields the engine's results when asked and `[]` otherwise |
| HybridSearch.FetchVector | server/hybrid_search.py:83-95 | the vector block yields the engine's results when asked and `[]` otherwise |
| Composition.CategoriesPartition | server/hybrid_search.py:330-332 | the fts-only, vector-only and both-methods counts and the uncounted results add up to the number of results, so the three counts together are at most `total_results` |
| Composition.DistributionProperties | server/hybrid_search.py:334-347 | the company distribution's counts sum to the number of results; it is ordered by non-increasing count and names each company once; each count equals the number of results of that company and is at least 1; every result's company appears |
| Composition.Analyze | server/hybrid_search.py:327-341 | empty results give `{"total": 0}`, and only empty results do; otherwise `total_results` is the number of results |
| Composition.AnalyzeProperties | server/hybrid_search.py:327-355 | for non-empty results, the three category counts are at most `total_results`, the company counts sum to `total_results`, and min <= average <= max of the combined scores |
| Composition.AnalyzeResultComposition | server/hybrid_search.py:325-355 | `_analyze_result_composition` answers `Analyze` |
| Composition.TallyCompanies | server/hybrid_search.py:335-338 | the tally loop leaves the companies in first-seen order, and each company's count is its number of occurrences |
| Api.ParseTickerList | server/main.py:327 | each parsed ticker is non-empty, upper-case and comma-free |
| Api.ParseCikList | server/main.py:348 | each parsed CIK is non-empty, stripped and comma-free |
| Api.ParseJoin | server/main.py:325-352 | a comma-joined list of clean values parses back to the same list (CIKs), or to the upper-cased list (tickers) |
| Api.CleanPiecesBlank | server/main.py:327 | pieces that are blank after stripping are all dropped |
| Api.CompanyClausesWellFormed | server/main.py:263-293 | the company query's placeholders match its parameters and the limit is last; there is one condition per truthy filter, and none exactly when no filter is truthy |
| Api.CompanyClausesFilters | server/main.py:266-280 | each of name, ticker, cik and exchange contributes its condition exactly when truthy; name and ticker are bound as `%term%` and cik and exchange as given |
| Api.CompaniesResponse | server/main.py:249-304 | no connection gives 500 "Database not connected"; no truthy filter gives 400 "At least one search parameter must be provided"; success happens exactly when the query runs without error, and returns its rows; a raising query gives 500 "Error searching companies: " followed by the error message; every error is a 400 or a 500 |
| Api.SearchCompanies | server/main.py:249-304 | `search_companies` answers `CompaniesResponse` |
| Api.CompanyConditions | server/main.py:263-280 | the append-by-append condition and parameter lists are those of `CompanyClauses` |
| Api.DocumentClausesWellFormed | server/main.py:322-370 | the document query's placeholders match its parameters and the limit is last; it has no condition exactly when no CIK came from tickers, none is listed and no year is truthy |
| Api.DocumentClausesFilters | server/main.py:337-356 | the CIKs resolved from tickers come first, as one `IN` list with one placeholder per CIK; the listed CIKs and a truthy year each contribute their clause |
| Api.DocumentYearClause | server/main.py:354-356 | the year condition is present exactly when the year is truthy |
| Api.DocumentsResponse | server/main.py:309-383 | no connection gives 500 "Database not connected"; every error is a 400 or a 500 |
| Api.DocumentsShortCircuit | server/main.py:325-359 | tickers that resolve to no CIK give `[]` without a document query; a failing ticker lookup gives 500 "Error searching documents: ..."; no ticker, CIK or year filter gives 400 |
| Api.DocumentsAnswer | server/main.py:358-383 | apart from the ticker short-circuit, success happens exactly when there is a condition and the document query runs without error, and it returns the query's rows; no condition gives 400 "At least one search parameter must be provided"; a raising query gives 500 "Error searching documents: " followed by the error message |
| Api.SearchDocuments | server/main.py:309-383 | `search_documents` answers `DocumentsResponse` |
| Api.ResolveTickers | server/main.py:325-344 | the ticker step parses the tickers and runs the lookup only when a ticker survives parsing |
| Api.DocumentConditions | server/main.py:322-356 | the append-by-append condition and parameter lists are those of `DocumentClauses` |
| Api.DocumentById | server/main.py:385-411 | no connection gives 500; no matching row gives 404 "Document not found: <id>"; success happens exactly when a row is found, and returns it; a raising query gives 500 "Error querying document by ID: " followed by the error message; every error is a 404 or a 500 |

## Left out

- Timing (`search_time_ms`) and logging are not modelled.
- Floating-point rounding is not modelled: scores and weights are exact
  reals, and the combined score is their exact weighted sum.
- The FTS, VSS and embeddings availability probes, the OpenAI client set-up
  and `.env` loading are left out. Their results are fields of the engine
  datatypes.
- Database execution is left out. Queries are answered by the total
  functions of `Database.Db`, and the SQL text is modelled only by its
  structure. Row decoding (`row.get(..., default)`, `int(...)`, `str(...)`)
  is assumed to succeed.
- `get_capabilities`, `test_search` and `search_with_explanation` are left
  out: they report counts or static feature lists.
- FastAPI routing, `lifespan`, CORS, the `/`, `/health`, `/stats` and
  `/search/capabilities` endpoints, and the `/search/*` wrappers around the
  engines are left out. They are I/O plumbing.
- Api.CompaniesResponse: a `limit` outside 1..1000 is rejected by FastAPI
  (status 422) before the handler runs. That check is a precondition here.
  The same holds for Api.DocumentsResponse, Api.SearchCompanies and
  Api.SearchDocuments.
- HybridSearch.HybridResponse: the Pydantic bounds of the request (limit
  1..100, weights in [0, 1]) are a precondition. The source's `except` branch
  is not modelled: nothing inside its `try` raises once the engines catch
  their own failures and the sub-requests are valid.
- Text.Strip and Text.Upper cover ASCII only. Python's `str.strip()` also
  removes non-ASCII whitespace, and `str.upper()` also maps non-ASCII
  letters.
- `%` and `_` inside a company name or ticker term are passed to `LIKE`
  unescaped, as in the source. What `LIKE` then matches is up to the database
  and is not modelled.
- Rows are seen after the database has ordered them. The `ORDER BY` clauses
  appear only as the hypothesis of VectorSearch.VectorItemsProperties.
