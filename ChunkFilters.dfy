/** The ticker and CIK filters that the three chunk-query builders
    (`_search_fts`, `_search_like_fallback`, `_search_vectors`) add in the
    same way: tickers first (resolved to CIKs; none resolved means an empty
    frame), then the explicit CIK list. */
module ChunkFilters {
  import opened Wrappers
  import opened SearchModels
  import opened Database

  /** Both engines rebuild a chunk's document id as its CIK followed by this
      fixed year suffix. */
  const DocYearSuffix: string := "_2019"

  /** The filters' WHERE conjuncts and the parameters they bind, or NoMatch
      when the tickers resolve to no CIK. */
  datatype CikFilter = NoMatch | Filter(conditions: seq<Condition>, params: seq<Param>)

  function CikFilters(db: Db, r: SearchRequest): (f: CikFilter)
    ensures f.NoMatch? <==> Given(r.tickers) && LookupCiksForTickers(db, r.tickers.value) == []
    ensures f.Filter? ==> ConditionSlots(f.conditions) == |f.params|
    ensures f.Filter? ==> |f.conditions| == (if Given(r.tickers) then 1 else 0) + (if Given(r.ciks) then 1 else 0)
    ensures f.Filter? ==> forall c :: c in f.conditions ==> c.CikIn?
  {
    var tickerCiks := if Given(r.tickers) then LookupCiksForTickers(db, r.tickers.value) else [];
    if Given(r.tickers) && tickerCiks == [] then NoMatch
    else
      var tc := if Given(r.tickers) then [CikIn(|tickerCiks|)] else [];
      var tp := if Given(r.tickers) then TextParams(tickerCiks) else [];
      var cc := if Given(r.ciks) then [CikIn(|r.ciks.value|)] else [];
      var cp := if Given(r.ciks) then TextParams(r.ciks.value) else [];
      ConditionSlotsAppend(tc, cc);
      Filter(tc + cc, tp + cp)
  }

  /** The values the filters bind: the CIKs the tickers resolve to come
      first, under the first condition, and the listed CIKs come last, under
      the last condition; nothing else is bound. */
  lemma CikFiltersBinds(db: Db, r: SearchRequest)
    ensures CikFilters(db, r).Filter? ==>
      |CikFilters(db, r).params| == (if Given(r.tickers) then |LookupCiksForTickers(db, r.tickers.value)| else 0)
                                    + (if Given(r.ciks) then |r.ciks.value| else 0)
    ensures CikFilters(db, r).Filter? && Given(r.tickers) ==>
      var f, l := CikFilters(db, r), LookupCiksForTickers(db, r.tickers.value);
      && f.conditions[0] == CikIn(|l|)
      && |l| <= |f.params|
      && f.params[..|l|] == TextParams(l)
    ensures CikFilters(db, r).Filter? && Given(r.ciks) ==>
      var f, c := CikFilters(db, r), r.ciks.value;
      && f.conditions[|f.conditions| - 1] == CikIn(|c|)
      && |c| <= |f.params|
      && f.params[|f.params| - |c|..] == TextParams(c)
  {
    var tickerCiks := if Given(r.tickers) then LookupCiksForTickers(db, r.tickers.value) else [];
    if !(Given(r.tickers) && tickerCiks == []) {
      var tp := if Given(r.tickers) then TextParams(tickerCiks) else [];
      var cp := if Given(r.ciks) then TextParams(r.ciks.value) else [];
      assert CikFilters(db, r).params == tp + cp;
      assert (tp + cp)[..|tp|] == tp;
      assert (tp + cp)[|tp + cp| - |cp|..] == cp;
    }
  }
}
