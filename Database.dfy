/** The DuckDB connection the server queries, seen from outside: each kind of
    query is a total function from the query (its source table, its WHERE
    conditions and its parameter list) to the rows it returns or the message
    of the exception it raises. SQL text is modelled by structure only. */
module Database {
  import opened Wrappers
  import opened Text

  /** A bound query parameter. */
  datatype Param = PText(text: string) | PInt(n: int) | PReal(x: real) | PEmbedding(vector: seq<real>)

  /** The FROM clause a query reads from, with its fixed SELECT list. */
  datatype Source =
    | ChunksBm25      // chunks ranked by `match_bm25(chunk_id, ?)`
    | ChunksLike      // chunks whose text matches `ILIKE ?`
    | ChunksByDistance  // chunks ranked by cosine distance to `$1`
    | Companies       // company_tickers_exchange
    | Documents       // documents

  /** One conjunct of the WHERE clause. */
  datatype Condition =
    | CikIn(count: nat)   // `cik IN (?, ..., ?)` with `count` placeholders
    | ScoreAtLeast        // `score >= ?`
    | DistanceAtMost      // `array_cosine_distance(e.embedding, $1) <= ?`
    | NameLike            // `UPPER(name) LIKE UPPER(?)`
    | TickerLike          // `UPPER(ticker) LIKE UPPER(?)`
    | CikEquals           // `cik = ?`
    | ExchangeEquals      // `UPPER(exchange) = UPPER(?)`
    | YearEquals          // `d.year = ?`

  datatype Query = Query(source: Source, conditions: seq<Condition>, params: seq<Param>)

  /** What a query builder decided: run a query, or return an empty frame
      without querying (tickers that resolve to no CIK). */
  datatype Plan = EmptyFrame | Run(query: Query)

  /** The `?` placeholders the SELECT list of a source takes before WHERE. */
  function SourceSlots(s: Source): nat {
    match s
    case ChunksBm25 => 1
    case ChunksLike => 1
    case ChunksByDistance => 1
    case Companies => 0
    case Documents => 0
  }

  function Slots(c: Condition): nat {
    match c
    case CikIn(n) => n
    case _ => 1
  }

  function ConditionSlots(cs: seq<Condition>): nat {
    if cs == [] then 0 else ConditionSlots(cs[..|cs| - 1]) + Slots(cs[|cs| - 1])
  }

  lemma {:induction false} ConditionSlotsAppend(a: seq<Condition>, b: seq<Condition>)
    ensures ConditionSlots(a + b) == ConditionSlots(a) + ConditionSlots(b)
    decreases |b|
  {
    if b == [] {
      assert a + b == a;
    } else {
      assert (a + b)[..|a + b| - 1] == a + b[..|b| - 1];
      ConditionSlotsAppend(a, b[..|b| - 1]);
    }
  }

  /** Placeholders of the whole statement: SELECT list, WHERE, `LIMIT ?`. */
  function Placeholders(q: Query): nat {
    SourceSlots(q.source) + ConditionSlots(q.conditions) + 1
  }

  /** The parameter list is in step with the placeholders and ends with the limit. */
  predicate WellFormed(q: Query, limit: int) {
    Placeholders(q) == |q.params| && q.params[|q.params| - 1] == PInt(limit)
  }

  /** Where the pieces of a chunk query's parameter list sit: the leading
      parameter, the filter values, the optional threshold, the limit. */
  lemma ParamsLayout(first: Param, ps: seq<Param>, extra: seq<Param>, last: Param)
    ensures |[first] + ps + extra + [last]| == 2 + |ps| + |extra|
    ensures ([first] + ps + extra + [last])[1..1 + |ps|] == ps
    ensures |extra| == 1 ==> ([first] + ps + extra + [last])[1 + |ps|] == extra[0]
  {
    var s := [first] + ps + extra + [last];
    assert forall i :: 0 <= i < |ps| ==> s[1 + i] == ps[i];
  }

  /** `[?, ..., ?]` bound to the strings `xs`. */
  function TextParams(xs: seq<string>): (ps: seq<Param>)
    ensures |ps| == |xs|
    ensures forall i :: 0 <= i < |xs| ==> ps[i] == PText(xs[i])
  {
    seq(|xs|, i requires 0 <= i < |xs| => PText(xs[i]))
  }

  /** A row of a chunk query. */
  datatype ChunkRow = ChunkRow(
    chunkId: string,
    cik: string,
    filename: string,
    sectionName: string,
    chunkText: string,
    charCount: int,
    score: Option<real>,
    distance: real)

  /** `CompanyTickerExchange` */
  datatype Company = Company(cik: int, name: string, ticker: string, exchange: string)

  /** `DocumentMetadata` */
  datatype DocumentMetadata = DocumentMetadata(
    docId: string,
    cik: string,
    filename: string,
    year: int,
    filePath: string,
    totalSections: int,
    totalChars: int,
    ingestedAt: string,
    processorVersion: string)

  /** The connection: what each query returns. `ciksForTickers` is the
      `SELECT DISTINCT cik ... WHERE UPPER(ticker) IN (...)` lookup, given its
      parameter list; `nameForCik` the company-name lookup; `documentById` the
      single-document lookup, None when no row matches. */
  datatype Db = Db(
    chunks: Query -> Outcome<seq<ChunkRow>>,
    companies: Query -> Outcome<seq<Company>>,
    documents: Query -> Outcome<seq<DocumentMetadata>>,
    ciksForTickers: seq<string> -> Outcome<seq<string>>,
    nameForCik: string -> Outcome<Option<string>>,
    documentById: string -> Outcome<Option<DocumentMetadata>>)

  /** `_lookup_ciks_for_tickers` (identical in both engines): no query for an
      empty list, tickers upper-cased before the lookup, a failed lookup read
      as "no CIK". */
  function LookupCiksForTickers(db: Db, tickers: seq<string>): seq<string> {
    if tickers == [] then []
    else
      match db.ciksForTickers(UpperAll(tickers))
      case Returned(ciks) => ciks
      case Raised(_) => []
  }

  /** An empty list is answered without asking the database; otherwise the
      answer depends only on the upper-cased tickers, so the lookup is
      case-insensitive; a raising lookup gives no CIK. */
  lemma {:induction false} LookupCiksProperties(db: Db, db': Db, tickers: seq<string>)
    ensures tickers == [] ==> LookupCiksForTickers(db, tickers) == [] == LookupCiksForTickers(db', tickers)
    ensures LookupCiksForTickers(db, UpperAll(tickers)) == LookupCiksForTickers(db, tickers)
    ensures tickers != [] && db.ciksForTickers(UpperAll(tickers)).Raised? ==> LookupCiksForTickers(db, tickers) == []
  {
    UpperAllIdempotent(tickers);
  }

  /** `_get_company_name` (identical in both engines): None for an empty CIK,
      for no matching row, and for a failed lookup. */
  function CompanyNameFor(db: Db, cik: string): (name: Option<string>)
    ensures cik == "" ==> name == None
    ensures name.Some? ==> db.nameForCik(cik) == Returned(name)
    ensures cik != "" && db.nameForCik(cik).Returned? ==> name == db.nameForCik(cik).value
    ensures db.nameForCik(cik).Raised? ==> name == None
  {
    if cik == "" then None
    else
      match db.nameForCik(cik)
      case Returned(row) => row
      case Raised(_) => None
  }
}
