/** The metadata endpoints of the HTTP server (server/main.py): the company
    search, the document search and the single-document lookup. Each handler
    checks the connection, builds its WHERE conditions and their parameters
    one filter at a time, and turns a failing query into an HTTP error. */
module Api {
  import opened Wrappers
  import opened Text
  import opened Database
  import opened SearchModels

  /** What a handler answers: its value, or an `HTTPException`. */
  datatype ApiResult<+T> = Ok(value: T) | HttpError(status: nat, detail: string)

  const NotConnectedMessage: string := "Database not connected"
  const NoParameterMessage: string := "At least one search parameter must be provided"
  const CompaniesErrorPrefix: string := "Error searching companies: "
  const DocumentsErrorPrefix: string := "Error searching documents: "
  const DocumentErrorPrefix: string := "Error querying document by ID: "
  const NotFoundPrefix: string := "Document not found: "

  /** The bounds FastAPI enforces on `limit` before either search handler runs. */
  const MinLimit: int := 1
  const MaxSearchLimit: int := 1000

  predicate ValidLimit(limit: int) {
    MinLimit <= limit <= MaxSearchLimit
  }

  /** Python truthiness of an optional integer: present and non-zero. */
  predicate GivenInt(x: Option<int>) {
    x.Some? && x.value != 0
  }

  /** One WHERE conjunct with the parameters bound to its placeholders. */
  datatype Clause = Clause(condition: Condition, params: seq<Param>)

  function Conditions(cs: seq<Clause>): (conds: seq<Condition>)
    ensures |conds| == |cs| && forall i :: 0 <= i < |cs| ==> conds[i] == cs[i].condition
  {
    seq(|cs|, i requires 0 <= i < |cs| => cs[i].condition)
  }

  /** The parameter list of a WHERE clause: the clauses' parameters in order. */
  function Params(cs: seq<Clause>): seq<Param> {
    if cs == [] then [] else Params(cs[..|cs| - 1]) + cs[|cs| - 1].params
  }

  lemma ClausesSnoc(cs: seq<Clause>, c: Clause)
    ensures Conditions(cs + [c]) == Conditions(cs) + [c.condition]
    ensures Params(cs + [c]) == Params(cs) + c.params
  {
    assert (cs + [c])[..|cs|] == cs;
  }

  /** Each clause binds as many parameters as its condition has placeholders. */
  predicate Bound(cs: seq<Clause>) {
    forall c :: c in cs ==> Slots(c.condition) == |c.params|
  }

  /** When every clause is bound, the conditions' placeholders and the
      parameter list are in step. */
  lemma {:induction false} BoundSlots(cs: seq<Clause>)
    requires Bound(cs)
    ensures ConditionSlots(Conditions(cs)) == |Params(cs)|
    decreases |cs|
  {
    if cs != [] {
      var init := cs[..|cs| - 1];
      assert Conditions(cs)[..|cs| - 1] == Conditions(init);
      assert cs[|cs| - 1] in cs;
      BoundSlots(init);
    }
  }

  /** The statement a handler runs: its conditions, their parameters, then
      the limit. */
  function LimitedQuery(source: Source, cs: seq<Clause>, limit: int): Query {
    Query(source, Conditions(cs), Params(cs) + [PInt(limit)])
  }

  lemma LimitedQueryWellFormed(source: Source, cs: seq<Clause>, limit: int)
    requires Bound(cs) && SourceSlots(source) == 0
    ensures WellFormed(LimitedQuery(source, cs, limit), limit)
  {
    BoundSlots(cs);
  }

  /** The clause `c` when its filter is truthy, nothing otherwise. */
  function When(b: bool, c: Clause): seq<Clause> {
    if b then [c] else []
  }

  lemma ClausesWhen(cs: seq<Clause>, b: bool, c: Clause)
    ensures Conditions(cs + When(b, c)) == Conditions(cs) + (if b then [c.condition] else [])
    ensures Params(cs + When(b, c)) == Params(cs) + (if b then c.params else [])
  {
    if b {
      ClausesSnoc(cs, c);
    } else {
      assert cs + When(b, c) == cs;
    }
  }

  /** `f"%{term}%"`: a substring pattern for `LIKE`. */
  function Pattern(term: string): string {
    "%" + term + "%"
  }

  // ---------------------------------------------------------------- parsing

  /** `[p.strip() for p in pieces if p.strip()]` */
  function CleanPieces(pieces: seq<string>): seq<string> {
    if |pieces| == 0 then []
    else
      var rest := CleanPieces(pieces[1..]);
      var x := Strip(pieces[0]);
      if |x| == 0 then rest else [x] + rest
  }

  /** `[c.strip() for c in ciks.split(',') if c.strip()]` */
  function ParseCikList(s: string): (r: seq<string>)
    ensures forall i :: 0 <= i < |r| ==> r[i] != "" && IsStripped(r[i]) && ',' !in r[i]
  {
    CleanPiecesClean(Split(s));
    CleanPiecesCommaFree(Split(s));
    CleanPieces(Split(s))
  }

  /** Every kept piece is non-empty and stripped. */
  lemma {:induction false} CleanPiecesClean(pieces: seq<string>)
    ensures forall i :: 0 <= i < |CleanPieces(pieces)| ==> CleanPieces(pieces)[i] != "" && IsStripped(CleanPieces(pieces)[i])
    decreases |pieces|
  {
    if pieces != [] {
      CleanPiecesClean(pieces[1..]);
    }
  }

  /** Stripping only removes characters, so comma-free pieces stay comma-free. */
  lemma {:induction false} CleanPiecesCommaFree(pieces: seq<string>)
    requires forall p :: p in pieces ==> ',' !in p
    ensures forall i :: 0 <= i < |CleanPieces(pieces)| ==> ',' !in CleanPieces(pieces)[i]
    decreases |pieces|
  {
    if pieces != [] {
      assert pieces[0] in pieces;
      StripCommaFree(pieces[0]);
      assert forall p :: p in pieces[1..] ==> p in pieces;
      CleanPiecesCommaFree(pieces[1..]);
    }
  }

  lemma StripCommaFree(p: string)
    requires ',' !in p
    ensures ',' !in Strip(p)
  {
    var x := Strip(p);
    forall k | 0 <= k < |x| ensures x[k] != ',' {
      assert x[k] in p;
    }
  }

  /** `[t.strip().upper() for t in tickers.split(',') if t.strip()]` */
  function ParseTickerList(s: string): (r: seq<string>)
    ensures forall i :: 0 <= i < |r| ==> r[i] != "" && IsUpper(r[i]) && ',' !in r[i]
  {
    CleanPiecesClean(Split(s));
    CleanPiecesCommaFree(Split(s));
    UpperClean(CleanPieces(Split(s)));
    UpperAll(CleanPieces(Split(s)))
  }

  /** Upper-casing keeps a non-empty comma-free piece non-empty and comma-free. */
  lemma UpperClean(xs: seq<string>)
    requires forall i :: 0 <= i < |xs| ==> xs[i] != "" && ',' !in xs[i]
    ensures forall i :: 0 <= i < |xs| ==> UpperAll(xs)[i] != "" && IsUpper(UpperAll(xs)[i]) && ',' !in UpperAll(xs)[i]
  {
    forall i | 0 <= i < |xs| ensures UpperAll(xs)[i] != "" && IsUpper(UpperAll(xs)[i]) && ',' !in UpperAll(xs)[i] {
      UpperIsUpper(xs[i]);
      UpperCommaFree(xs[i]);
    }
  }

  lemma UpperCommaFree(x: string)
    requires ',' !in x
    ensures ',' !in Upper(x)
  {
    forall k | 0 <= k < |x| ensures Upper(x)[k] != ',' {
      assert x[k] in x;
    }
  }

  /** Clean pieces come back unchanged. */
  lemma {:induction false} CleanPiecesOfClean(xs: seq<string>)
    requires forall x :: x in xs ==> x != "" && IsStripped(x)
    ensures CleanPieces(xs) == xs
    decreases |xs|
  {
    if xs != [] {
      assert xs[0] in xs;
      StripStripped(xs[0]);
      assert forall x :: x in xs[1..] ==> x in xs;
      CleanPiecesOfClean(xs[1..]);
    }
  }

  /** A comma-joined list of clean CIKs parses back to the same list, and a
      list of clean tickers to the same list upper-cased. */
  lemma ParseJoin(xs: seq<string>)
    requires xs != []
    requires forall x :: x in xs ==> x != "" && IsStripped(x) && ',' !in x
    ensures ParseCikList(Join(xs)) == xs
    ensures ParseTickerList(Join(xs)) == UpperAll(xs)
  {
    SplitJoin(xs);
    CleanPiecesOfClean(xs);
  }

  /** Pieces that are blank after stripping are dropped, so a blank or
      comma-only string parses to nothing. */
  lemma {:induction false} CleanPiecesBlank(pieces: seq<string>)
    requires forall p :: p in pieces ==> Strip(p) == ""
    ensures CleanPieces(pieces) == []
    decreases |pieces|
  {
    if pieces != [] {
      assert pieces[0] in pieces;
      assert forall p :: p in pieces[1..] ==> p in pieces;
      CleanPiecesBlank(pieces[1..]);
    }
  }

  // ------------------------------------------------------ company search

  /** The query parameters of `GET /companies/search`. */
  datatype CompanySearch = CompanySearch(name: Option<string>, ticker: Option<string>, cik: Option<int>, exchange: Option<string>)

  /** One clause per truthy filter, in the order name, ticker, CIK, exchange;
      name and ticker are matched as substrings. */
  function CompanyClauses(s: CompanySearch): seq<Clause> {
    When(Given(s.name), Clause(NameLike, [PText(Pattern(s.name.GetOr("")))]))
    + When(Given(s.ticker), Clause(TickerLike, [PText(Pattern(s.ticker.GetOr("")))]))
    + When(GivenInt(s.cik), Clause(CikEquals, [PInt(s.cik.GetOr(0))]))
    + When(Given(s.exchange), Clause(ExchangeEquals, [PText(s.exchange.GetOr(""))]))
  }

  predicate NoCompanyFilter(s: CompanySearch) {
    !Given(s.name) && !Given(s.ticker) && !GivenInt(s.cik) && !Given(s.exchange)
  }

  /** The company query is well formed, has one clause per truthy filter,
      and no clause at all exactly when no filter is truthy. */
  lemma CompanyClausesWellFormed(s: CompanySearch, limit: int)
    ensures Bound(CompanyClauses(s))
    ensures WellFormed(LimitedQuery(Companies, CompanyClauses(s), limit), limit)
    ensures CompanyClauses(s) == [] <==> NoCompanyFilter(s)
    ensures |CompanyClauses(s)| == (if Given(s.name) then 1 else 0) + (if Given(s.ticker) then 1 else 0)
                                  + (if GivenInt(s.cik) then 1 else 0) + (if Given(s.exchange) then 1 else 0)
  {
    var cs := CompanyClauses(s);
    assert Bound(cs) by {
      forall c | c in cs ensures Slots(c.condition) == |c.params| {
      }
    }
    LimitedQueryWellFormed(Companies, cs, limit);
  }

  /** Each filter contributes its condition exactly when it is truthy, bound
      to its own value: name and ticker as substring patterns, CIK and
      exchange as given. */
  lemma CompanyClausesFilters(s: CompanySearch)
    ensures NameLike in Conditions(CompanyClauses(s)) <==> Given(s.name)
    ensures TickerLike in Conditions(CompanyClauses(s)) <==> Given(s.ticker)
    ensures CikEquals in Conditions(CompanyClauses(s)) <==> GivenInt(s.cik)
    ensures ExchangeEquals in Conditions(CompanyClauses(s)) <==> Given(s.exchange)
    ensures Given(s.name) ==> Clause(NameLike, [PText(Pattern(s.name.value))]) in CompanyClauses(s)
    ensures Given(s.ticker) ==> Clause(TickerLike, [PText(Pattern(s.ticker.value))]) in CompanyClauses(s)
    ensures GivenInt(s.cik) ==> Clause(CikEquals, [PInt(s.cik.value)]) in CompanyClauses(s)
    ensures Given(s.exchange) ==> Clause(ExchangeEquals, [PText(s.exchange.value)]) in CompanyClauses(s)
  {
    var cs := CompanyClauses(s);
    forall i | 0 <= i < |cs|
      ensures (cs[i].condition == NameLike ==> Given(s.name)) && (cs[i].condition == TickerLike ==> Given(s.ticker))
              && (cs[i].condition == CikEquals ==> GivenInt(s.cik)) && (cs[i].condition == ExchangeEquals ==> Given(s.exchange))
    {
      assert cs[i] in cs;
    }
    ConditionOf(cs, Clause(NameLike, [PText(Pattern(s.name.GetOr("")))]));
    ConditionOf(cs, Clause(TickerLike, [PText(Pattern(s.ticker.GetOr("")))]));
    ConditionOf(cs, Clause(CikEquals, [PInt(s.cik.GetOr(0))]));
    ConditionOf(cs, Clause(ExchangeEquals, [PText(s.exchange.GetOr(""))]));
  }

  lemma ConditionOf(cs: seq<Clause>, c: Clause)
    ensures c in cs ==> c.condition in Conditions(cs)
  {
    if c in cs {
      var i :| 0 <= i < |cs| && cs[i] == c;
      assert Conditions(cs)[i] == c.condition;
    }
  }

  /** `search_companies`: 500 without a connection, 400 without a filter,
      the rows of the query, or 500 with the query's error message. */
  function CompaniesResponse(conn: Option<Db>, s: CompanySearch, limit: int): (r: ApiResult<seq<Company>>)
    requires ValidLimit(limit)
    ensures conn.None? ==> r == HttpError(500, NotConnectedMessage)
    ensures conn.Some? && NoCompanyFilter(s) ==> r == HttpError(400, NoParameterMessage)
    ensures r.Ok? <==> (conn.Some? && !NoCompanyFilter(s)
                        && conn.value.companies(LimitedQuery(Companies, CompanyClauses(s), limit)).Returned?)
    ensures r.Ok? ==> conn.value.companies(LimitedQuery(Companies, CompanyClauses(s), limit)) == Returned(r.value)
    ensures conn.Some? && !NoCompanyFilter(s) && conn.value.companies(LimitedQuery(Companies, CompanyClauses(s), limit)).Raised? ==>
              r == HttpError(500, CompaniesErrorPrefix + conn.value.companies(LimitedQuery(Companies, CompanyClauses(s), limit)).message)
    ensures r.HttpError? ==> r.status == 400 || r.status == 500
  {
    CompanyClausesWellFormed(s, limit);
    if conn.None? then HttpError(500, NotConnectedMessage)
    else
      var cs := CompanyClauses(s);
      if cs == [] then HttpError(400, NoParameterMessage)
      else
        match conn.value.companies(LimitedQuery(Companies, cs, limit))
        case Returned(rows) => Ok(rows)
        case Raised(m) => HttpError(500, CompaniesErrorPrefix + m)
  }

  /** `search_companies` as written: the conditions and the parameters are
      two lists that grow filter by filter. */
  method SearchCompanies(conn: Option<Db>, s: CompanySearch, limit: int) returns (r: ApiResult<seq<Company>>)
    requires ValidLimit(limit)
    ensures r == CompaniesResponse(conn, s, limit)
  {
    if conn.None? {
      return HttpError(500, NotConnectedMessage);
    }
    var conditions, params := CompanyConditions(s);
    if conditions == [] {
      return HttpError(400, NoParameterMessage);
    }
    params := params + [PInt(limit)];
    assert Query(Companies, conditions, params) == LimitedQuery(Companies, CompanyClauses(s), limit);
    var result := conn.value.companies(Query(Companies, conditions, params));
    if result.Raised? {
      return HttpError(500, CompaniesErrorPrefix + result.message);
    }
    return Ok(result.value);
  }

  /** The filter-by-filter part of `search_companies`. */
  method CompanyConditions(s: CompanySearch) returns (conditions: seq<Condition>, params: seq<Param>)
    ensures conditions == Conditions(CompanyClauses(s)) && params == Params(CompanyClauses(s))
  {
    conditions := [];
    params := [];
    ghost var clauses: seq<Clause> := [];
    ghost var c := Clause(NameLike, [PText(Pattern(s.name.GetOr("")))]);
    ClausesWhen(clauses, Given(s.name), c);
    if Given(s.name) {
      assert c == Clause(NameLike, [PText(Pattern(s.name.value))]);
      conditions := conditions + [NameLike];
      params := params + [PText(Pattern(s.name.value))];
    }
    clauses := clauses + When(Given(s.name), c);
    assert conditions == Conditions(clauses) && params == Params(clauses);
    c := Clause(TickerLike, [PText(Pattern(s.ticker.GetOr("")))]);
    ClausesWhen(clauses, Given(s.ticker), c);
    if Given(s.ticker) {
      assert c == Clause(TickerLike, [PText(Pattern(s.ticker.value))]);
      conditions := conditions + [TickerLike];
      params := params + [PText(Pattern(s.ticker.value))];
    }
    clauses := clauses + When(Given(s.ticker), c);
    assert conditions == Conditions(clauses) && params == Params(clauses);
    c := Clause(CikEquals, [PInt(s.cik.GetOr(0))]);
    ClausesWhen(clauses, GivenInt(s.cik), c);
    if GivenInt(s.cik) {
      assert c == Clause(CikEquals, [PInt(s.cik.value)]);
      conditions := conditions + [CikEquals];
      params := params + [PInt(s.cik.value)];
    }
    clauses := clauses + When(GivenInt(s.cik), c);
    assert conditions == Conditions(clauses) && params == Params(clauses);
    c := Clause(ExchangeEquals, [PText(s.exchange.GetOr(""))]);
    ClausesWhen(clauses, Given(s.exchange), c);
    if Given(s.exchange) {
      assert c == Clause(ExchangeEquals, [PText(s.exchange.value)]);
      conditions := conditions + [ExchangeEquals];
      params := params + [PText(s.exchange.value)];
    }
    clauses := clauses + When(Given(s.exchange), c);
    assert conditions == Conditions(clauses) && params == Params(clauses);
    assert clauses == CompanyClauses(s);
  }

  // ----------------------------------------------------- document search

  /** The query parameters of `GET /documents/search`. */
  datatype DocumentSearch = DocumentSearch(tickers: Option<string>, ciks: Option<string>, year: Option<int>)

  /** The ticker step: None when no ticker survives parsing (no lookup runs),
      otherwise the CIKs the lookup returned, or the lookup's error. */
  function TickerCiks(db: Db, s: DocumentSearch): Outcome<Option<seq<string>>> {
    if !Given(s.tickers) || ParseTickerList(s.tickers.value) == [] then Returned(None)
    else
      match db.ciksForTickers(ParseTickerList(s.tickers.value))
      case Returned(ciks) => Returned(Some(ciks))
      case Raised(m) => Raised(m)
  }

  /** The CIKs named directly, when any survive parsing. */
  function ListedCiks(s: DocumentSearch): seq<string> {
    if Given(s.ciks) then ParseCikList(s.ciks.value) else []
  }

  /** `d.cik IN (?, ..., ?)` with one placeholder per CIK. */
  function CikClause(ciks: seq<string>): Clause {
    Clause(CikIn(|ciks|), TextParams(ciks))
  }

  /** The clauses of the document query, given the CIKs the tickers resolved
      to: one `cik IN` for those, one for the listed CIKs, one for the year. */
  function DocumentClauses(tickerCiks: Option<seq<string>>, listed: seq<string>, year: Option<int>): seq<Clause> {
    When(tickerCiks.Some?, CikClause(tickerCiks.GetOr([])))
    + When(listed != [], CikClause(listed))
    + When(GivenInt(year), Clause(YearEquals, [PInt(year.GetOr(0))]))
  }

  /** The document query is well formed, and has no clause exactly when no
      CIK came from the tickers, none is listed and no year is given. */
  lemma DocumentClausesWellFormed(tickerCiks: Option<seq<string>>, listed: seq<string>, year: Option<int>, limit: int)
    ensures Bound(DocumentClauses(tickerCiks, listed, year))
    ensures WellFormed(LimitedQuery(Documents, DocumentClauses(tickerCiks, listed, year), limit), limit)
    ensures DocumentClauses(tickerCiks, listed, year) == [] <==> tickerCiks.None? && listed == [] && !GivenInt(year)
  {
    var cs := DocumentClauses(tickerCiks, listed, year);
    assert Bound(cs) by {
      forall c | c in cs ensures Slots(c.condition) == |c.params| {
      }
    }
    LimitedQueryWellFormed(Documents, cs, limit);
  }

  /** The CIKs the tickers resolved to come first, as one `IN` list with one
      placeholder per CIK; the listed CIKs follow as another; then the year. */
  lemma DocumentClausesFilters(tickerCiks: Option<seq<string>>, listed: seq<string>, year: Option<int>)
    ensures tickerCiks.Some? ==> DocumentClauses(tickerCiks, listed, year)[0] == CikClause(tickerCiks.value)
    ensures listed != [] ==> CikClause(listed) in DocumentClauses(tickerCiks, listed, year)
    ensures GivenInt(year) ==> Clause(YearEquals, [PInt(year.value)]) in DocumentClauses(tickerCiks, listed, year)
  {
  }

  /** The year clause is present exactly when a year is given. */
  lemma DocumentYearClause(tickerCiks: Option<seq<string>>, listed: seq<string>, year: Option<int>)
    ensures YearEquals in Conditions(DocumentClauses(tickerCiks, listed, year)) <==> GivenInt(year)
  {
    var cs := DocumentClauses(tickerCiks, listed, year);
    forall i | 0 <= i < |cs| ensures cs[i].condition == YearEquals ==> GivenInt(year) {
      assert cs[i] in cs;
    }
    ConditionOf(cs, Clause(YearEquals, [PInt(year.GetOr(0))]));
  }

  /** `search_documents` */
  function DocumentsResponse(conn: Option<Db>, s: DocumentSearch, limit: int): (r: ApiResult<seq<DocumentMetadata>>)
    requires ValidLimit(limit)
    ensures conn.None? ==> r == HttpError(500, NotConnectedMessage)
    ensures r.HttpError? ==> r.status == 400 || r.status == 500
  {
    if conn.None? then HttpError(500, NotConnectedMessage)
    else
      var db := conn.value;
      match TickerCiks(db, s)
      case Raised(m) => HttpError(500, DocumentsErrorPrefix + m)
      case Returned(tickerCiks) =>
        if tickerCiks == Some([]) then Ok([])
        else
          var cs := DocumentClauses(tickerCiks, ListedCiks(s), s.year);
          if cs == [] then HttpError(400, NoParameterMessage)
          else
            match db.documents(LimitedQuery(Documents, cs, limit))
            case Returned(rows) => Ok(rows)
            case Raised(m) => HttpError(500, DocumentsErrorPrefix + m)
  }

  /** Tickers that resolve to no CIK answer an empty list without a document
      query, whatever the other filters; tickers that parse to nothing are
      ignored; a failing CIK lookup is a 500. */
  lemma DocumentsShortCircuit(db: Db, s: DocumentSearch, limit: int)
    requires ValidLimit(limit)
    ensures Given(s.tickers) && ParseTickerList(s.tickers.value) != []
            && db.ciksForTickers(ParseTickerList(s.tickers.value)) == Returned([])
            ==> DocumentsResponse(Some(db), s, limit) == Ok([])
    ensures Given(s.tickers) && ParseTickerList(s.tickers.value) != []
            && db.ciksForTickers(ParseTickerList(s.tickers.value)).Raised?
            ==> DocumentsResponse(Some(db), s, limit)
                == HttpError(500, DocumentsErrorPrefix + db.ciksForTickers(ParseTickerList(s.tickers.value)).message)
    ensures (!Given(s.tickers) || ParseTickerList(s.tickers.value) == []) && ListedCiks(s) == [] && !GivenInt(s.year)
            ==> DocumentsResponse(Some(db), s, limit) == HttpError(400, NoParameterMessage)
  {
  }

  /** A successful answer other than the ticker short-circuit is exactly
      what the document query returned. */
  lemma DocumentsAnswer(db: Db, s: DocumentSearch, limit: int)
    requires ValidLimit(limit)
    requires TickerCiks(db, s).Returned? && TickerCiks(db, s).value != Some([])
    ensures DocumentsResponse(Some(db), s, limit).Ok? <==>
            DocumentClauses(TickerCiks(db, s).value, ListedCiks(s), s.year) != []
            && db.documents(LimitedQuery(Documents, DocumentClauses(TickerCiks(db, s).value, ListedCiks(s), s.year), limit)).Returned?
    ensures DocumentsResponse(Some(db), s, limit).Ok? ==>
            db.documents(LimitedQuery(Documents, DocumentClauses(TickerCiks(db, s).value, ListedCiks(s), s.year), limit))
            == Returned(DocumentsResponse(Some(db), s, limit).value)
    ensures DocumentClauses(TickerCiks(db, s).value, ListedCiks(s), s.year) == [] ==>
            DocumentsResponse(Some(db), s, limit) == HttpError(400, NoParameterMessage)
    ensures DocumentClauses(TickerCiks(db, s).value, ListedCiks(s), s.year) != []
            && db.documents(LimitedQuery(Documents, DocumentClauses(TickerCiks(db, s).value, ListedCiks(s), s.year), limit)).Raised? ==>
            DocumentsResponse(Some(db), s, limit) == HttpError(500, DocumentsErrorPrefix
              + db.documents(LimitedQuery(Documents, DocumentClauses(TickerCiks(db, s).value, ListedCiks(s), s.year), limit)).message)
  {
  }

  /** `search_documents` as written. */
  method SearchDocuments(conn: Option<Db>, s: DocumentSearch, limit: int) returns (r: ApiResult<seq<DocumentMetadata>>)
    requires ValidLimit(limit)
    ensures r == DocumentsResponse(conn, s, limit)
  {
    if conn.None? {
      return HttpError(500, NotConnectedMessage);
    }
    var db := conn.value;
    var tickerCiks := ResolveTickers(db, s);
    if tickerCiks.Raised? {
      return HttpError(500, DocumentsErrorPrefix + tickerCiks.message);
    }
    if tickerCiks.value == Some([]) {
      return Ok([]);
    }
    var conditions, params := DocumentConditions(tickerCiks.value, s);
    if conditions == [] {
      return HttpError(400, NoParameterMessage);
    }
    params := params + [PInt(limit)];
    assert Query(Documents, conditions, params) == LimitedQuery(Documents, DocumentClauses(tickerCiks.value, ListedCiks(s), s.year), limit);
    var result := db.documents(Query(Documents, conditions, params));
    if result.Raised? {
      return HttpError(500, DocumentsErrorPrefix + result.message);
    }
    return Ok(result.value);
  }

  /** The ticker part of `search_documents`: parse, and look the CIKs up
      when any ticker is left. */
  method ResolveTickers(db: Db, s: DocumentSearch) returns (tickerCiks: Outcome<Option<seq<string>>>)
    ensures tickerCiks == TickerCiks(db, s)
  {
    tickerCiks := Returned(None);
    if Given(s.tickers) {
      var tickerList := ParseTickerList(s.tickers.value);
      if tickerList != [] {
        var cikResult := db.ciksForTickers(tickerList);
        if cikResult.Raised? {
          return Raised(cikResult.message);
        }
        tickerCiks := Returned(Some(cikResult.value));
      }
    }
  }

  /** The condition-building part of `search_documents`, once the tickers
      resolved to some CIKs or were absent. */
  method DocumentConditions(tickerCiks: Option<seq<string>>, s: DocumentSearch) returns (conditions: seq<Condition>, params: seq<Param>)
    ensures conditions == Conditions(DocumentClauses(tickerCiks, ListedCiks(s), s.year)) && params == Params(DocumentClauses(tickerCiks, ListedCiks(s), s.year))
  {
    conditions := [];
    params := [];
    ghost var clauses: seq<Clause> := [];
    ClausesWhen(clauses, tickerCiks.Some?, CikClause(tickerCiks.GetOr([])));
    if tickerCiks.Some? {
      var found := tickerCiks.value;
      conditions := conditions + [CikIn(|found|)];
      params := params + TextParams(found);
    }
    clauses := clauses + When(tickerCiks.Some?, CikClause(tickerCiks.GetOr([])));
    assert conditions == Conditions(clauses) && params == Params(clauses);
    ClausesWhen(clauses, ListedCiks(s) != [], CikClause(ListedCiks(s)));
    if Given(s.ciks) {
      var cikList := ParseCikList(s.ciks.value);
      if cikList != [] {
        conditions := conditions + [CikIn(|cikList|)];
        params := params + TextParams(cikList);
      }
    }
    clauses := clauses + When(ListedCiks(s) != [], CikClause(ListedCiks(s)));
    assert conditions == Conditions(clauses) && params == Params(clauses);
    ghost var c := Clause(YearEquals, [PInt(s.year.GetOr(0))]);
    ClausesWhen(clauses, GivenInt(s.year), c);
    if GivenInt(s.year) {
      conditions := conditions + [YearEquals];
      params := params + [PInt(s.year.value)];
    }
    clauses := clauses + When(GivenInt(s.year), c);
    assert conditions == Conditions(clauses) && params == Params(clauses);
    assert clauses == DocumentClauses(tickerCiks, ListedCiks(s), s.year);
  }

  // ---------------------------------------------------- document by id

  /** `get_document_by_id`: 500 without a connection, 404 when no row has the
      id, 500 with the error message when the query fails. */
  function DocumentById(conn: Option<Db>, docId: string): (r: ApiResult<DocumentMetadata>)
    ensures conn.None? ==> r == HttpError(500, NotConnectedMessage)
    ensures conn.Some? && conn.value.documentById(docId) == Returned(None) ==> r == HttpError(404, NotFoundPrefix + docId)
    ensures r.Ok? <==> conn.Some? && conn.value.documentById(docId).Returned? && conn.value.documentById(docId).value.Some?
    ensures r.Ok? ==> conn.value.documentById(docId) == Returned(Some(r.value))
    ensures conn.Some? && conn.value.documentById(docId).Raised? ==>
              r == HttpError(500, DocumentErrorPrefix + conn.value.documentById(docId).message)
    ensures r.HttpError? ==> r.status == 404 || r.status == 500
  {
    if conn.None? then HttpError(500, NotConnectedMessage)
    else
      match conn.value.documentById(docId)
      case Raised(m) => HttpError(500, DocumentErrorPrefix + m)
      case Returned(None) => HttpError(404, NotFoundPrefix + docId)
      case Returned(Some(doc)) => Ok(doc)
  }
}
