/** The result-composition report of the hybrid engine
    (`_analyze_result_composition`, server/hybrid_search.py): how many
    results carry only a full-text score, only a vector score or both, how
    many results each company has (largest first), and the average, minimum
    and maximum combined score. */
module Composition {
  import opened Wrappers
  import opened SearchModels
  import opened Collections

  /** One entry of `company_distribution`. */
  datatype CompanyCount = CompanyCount(company: string, count: nat)

  /** The report: `{"total": 0}` for no results, the full breakdown otherwise. */
  datatype Composition =
    | NoResults
    | Breakdown(
        totalResults: nat,
        ftsOnly: nat,
        vectorOnly: nat,
        bothMethods: nat,
        companyDistribution: seq<CompanyCount>,
        averageScore: real,
        minScore: real,
        maxScore: real)

  /** `(r.fts_score or 0) > 0 and (r.vector_score or 0) == 0` */
  predicate FtsOnly(r: SearchResultItem) {
    ScoreOr0(r.ftsScore) > 0.0 && ScoreOr0(r.vectorScore) == 0.0
  }

  /** `(r.fts_score or 0) == 0 and (r.vector_score or 0) > 0` */
  predicate VectorOnly(r: SearchResultItem) {
    ScoreOr0(r.ftsScore) == 0.0 && ScoreOr0(r.vectorScore) > 0.0
  }

  /** `(r.fts_score or 0) > 0 and (r.vector_score or 0) > 0` */
  predicate BothMethods(r: SearchResultItem) {
    ScoreOr0(r.ftsScore) > 0.0 && ScoreOr0(r.vectorScore) > 0.0
  }

  /** A result none of the three categories counts: no positive score, or
      a negative score beside a zero one. */
  predicate Uncounted(r: SearchResultItem) {
    !FtsOnly(r) && !VectorOnly(r) && !BothMethods(r)
  }

  /** `sum(1 for r in results if p(r))` */
  function CountWhere(results: seq<SearchResultItem>, p: SearchResultItem -> bool): (n: nat)
    ensures n <= |results|
  {
    if results == [] then 0
    else CountWhere(results[..|results| - 1], p) + (if p(results[|results| - 1]) then 1 else 0)
  }

  /** The three categories are disjoint: with the results none of them
      counts, they account for every result, so their sum never exceeds the
      number of results. */
  lemma {:induction false} CategoriesPartition(results: seq<SearchResultItem>)
    ensures CountWhere(results, FtsOnly) + CountWhere(results, VectorOnly) + CountWhere(results, BothMethods)
            + CountWhere(results, Uncounted) == |results|
    ensures CountWhere(results, FtsOnly) + CountWhere(results, VectorOnly) + CountWhere(results, BothMethods) <= |results|
  {
    if results != [] {
      CategoriesPartition(results[..|results| - 1]);
    }
  }

  /** `result.company_name or result.cik`: an absent or empty name falls
      back to the CIK. */
  function CompanyKey(r: SearchResultItem): string {
    if r.companyName.Some? && r.companyName.value != "" then r.companyName.value else r.cik
  }

  function CompanyKeys(results: seq<SearchResultItem>): (ks: seq<string>)
    ensures |ks| == |results| && forall i :: 0 <= i < |results| ==> ks[i] == CompanyKey(results[i])
  {
    seq(|results|, i requires 0 <= i < |results| => CompanyKey(results[i]))
  }

  /** One entry per distinct company of `keys`, in first-seen order, with
      the number of times it occurs. */
  function Tally(companies: seq<string>, keys: seq<string>): (cs: seq<CompanyCount>)
    ensures |cs| == |companies|
    ensures forall i :: 0 <= i < |companies| ==> cs[i] == CompanyCount(companies[i], multiset(keys)[companies[i]])
  {
    seq(|companies|, i requires 0 <= i < |companies| => CompanyCount(companies[i], multiset(keys)[companies[i]]))
  }

  /** The sort key of `company_distribution`: the count. */
  function CountKey(c: CompanyCount): real {
    c.count as real
  }

  /** `dict(sorted(companies.items(), key=lambda x: x[1], reverse=True))` */
  function Distribution(results: seq<SearchResultItem>): seq<CompanyCount> {
    var keys := CompanyKeys(results);
    SortByKeyDesc(Tally(Dedup(keys), keys), CountKey)
  }

  /** The sum of the counts of a distribution. */
  function TotalCount(cs: seq<CompanyCount>): nat {
    if cs == [] then 0 else TotalCount(cs[..|cs| - 1]) + cs[|cs| - 1].count
  }

  lemma {:induction false} TotalCountAppend(a: seq<CompanyCount>, b: seq<CompanyCount>)
    ensures TotalCount(a + b) == TotalCount(a) + TotalCount(b)
    decreases |b|
  {
    if b == [] {
      assert a + b == a;
    } else {
      assert (a + b)[..|a + b| - 1] == a + b[..|b| - 1];
      TotalCountAppend(a, b[..|b| - 1]);
    }
  }

  /** Reordering the entries keeps the total. */
  lemma {:induction false} TotalCountPermutation(a: seq<CompanyCount>, b: seq<CompanyCount>)
    requires multiset(a) == multiset(b)
    ensures TotalCount(a) == TotalCount(b)
    decreases |a|
  {
    if a != [] {
      var x := a[|a| - 1];
      var a' := a[..|a| - 1];
      assert a == a' + [x];
      assert x in multiset(b);
      var i :| 0 <= i < |b| && b[i] == x;
      var u, v := b[..i], b[i + 1..];
      assert b == u + [x] + v;
      RemoveFromBoth(a', x, u, v);
      TotalCountPermutation(a', u + v);
      TotalCountSplit(u, x, v);
    }
  }

  lemma RemoveFromBoth(a: seq<CompanyCount>, x: CompanyCount, u: seq<CompanyCount>, v: seq<CompanyCount>)
    requires multiset(a + [x]) == multiset(u + [x] + v)
    ensures multiset(a) == multiset(u + v)
  {
    assert multiset(a + [x]) == multiset(a) + multiset{x};
    assert multiset(u + [x] + v) == multiset(u) + multiset{x} + multiset(v);
    assert multiset(u + v) == multiset(u) + multiset(v);
    forall y ensures multiset(a)[y] == multiset(u + v)[y] {
      assert multiset(a + [x])[y] == multiset(a)[y] + multiset{x}[y];
    }
  }

  lemma TotalCountSplit(u: seq<CompanyCount>, x: CompanyCount, v: seq<CompanyCount>)
    ensures TotalCount(u + [x] + v) == TotalCount(u + v) + x.count
  {
    TotalCountAppend(u + [x], v);
    TotalCountAppend(u, [x]);
    TotalCountAppend(u, v);
    assert TotalCount([x]) == x.count by {
      assert [x][..0] == [];
    }
  }

  /** Adding one key to the counted list adds one to the total of a list of
      distinct companies that contains it. */
  lemma {:induction false} TallySnoc(companies: seq<string>, keys: seq<string>, x: string)
    requires Distinct(companies)
    ensures TotalCount(Tally(companies, keys + [x])) ==
            TotalCount(Tally(companies, keys)) + (if x in companies then 1 else 0)
    decreases |companies|
  {
    if companies != [] {
      var c := companies[..|companies| - 1];
      var last := companies[|companies| - 1];
      assert Tally(companies, keys + [x])[..|companies| - 1] == Tally(c, keys + [x]);
      assert Tally(companies, keys)[..|companies| - 1] == Tally(c, keys);
      assert Distinct(c) by {
        forall i, j | 0 <= i < j < |c| ensures c[i] != c[j] {
          assert c[i] == companies[i] && c[j] == companies[j];
        }
      }
      TallySnoc(c, keys, x);
      assert x in companies <==> x in c || x == last;
      assert last !in c by {
        forall i | 0 <= i < |c| ensures c[i] != last {
          assert c[i] == companies[i];
        }
      }
    }
  }

  /** Counting each distinct company once gives back the number of keys. */
  lemma {:induction false} TallyTotal(companies: seq<string>, keys: seq<string>)
    requires Distinct(companies)
    requires forall k :: k in keys ==> k in companies
    ensures TotalCount(Tally(companies, keys)) == |keys|
    decreases |keys|
  {
    if keys == [] {
      TallyEmpty(companies);
    } else {
      var s := keys[..|keys| - 1];
      var x := keys[|keys| - 1];
      assert keys == s + [x];
      TallyTotal(companies, s);
      TallySnoc(companies, s, x);
    }
  }

  lemma {:induction false} TallyEmpty(companies: seq<string>)
    ensures TotalCount(Tally(companies, [])) == 0
    decreases |companies|
  {
    if companies != [] {
      assert Tally(companies, [])[..|companies| - 1] == Tally(companies[..|companies| - 1], []);
      TallyEmpty(companies[..|companies| - 1]);
    }
  }

  /** Any reordering of a tally pairs each company with its number of
      occurrences, which is at least one. */
  lemma ReorderedTallyCounts(companies: seq<string>, keys: seq<string>, d: seq<CompanyCount>)
    requires multiset(d) == multiset(Tally(companies, keys))
    requires forall k :: k in companies ==> k in keys
    ensures forall i :: 0 <= i < |d| ==> d[i].count == multiset(keys)[d[i].company] && d[i].count >= 1
  {
    var t := Tally(companies, keys);
    SameElements(d, t);
    forall i | 0 <= i < |d|
      ensures d[i].count == multiset(keys)[d[i].company] && d[i].count >= 1
    {
      assert d[i] in t;
      var k :| 0 <= k < |t| && t[k] == d[i];
      assert companies[k] in keys;
    }
  }

  /** Any reordering of a tally of distinct companies names each company once. */
  lemma ReorderedTallyDistinct(companies: seq<string>, keys: seq<string>, d: seq<CompanyCount>)
    requires Distinct(companies)
    requires multiset(d) == multiset(Tally(companies, keys))
    ensures forall i, j :: 0 <= i < j < |d| ==> d[i].company != d[j].company
  {
    var t := Tally(companies, keys);
    SameElements(d, t);
    assert Distinct(t) by {
      forall i, j | 0 <= i < j < |t| ensures t[i] != t[j] {
        assert t[i].company == companies[i];
      }
    }
    DistinctMultiplicity(t);
    DistinctMultiplicity(d);
    forall i, j | 0 <= i < j < |d| ensures d[i].company != d[j].company {
      assert d[i] in t && d[j] in t;
      var k :| 0 <= k < |t| && t[k] == d[i];
      var l :| 0 <= l < |t| && t[l] == d[j];
      assert d[i] != d[j];
      assert k != l;
      assert companies[k] != companies[l];
    }
  }

  /** Any reordering of a tally over all the keys has an entry for each key. */
  lemma ReorderedTallyCovers(companies: seq<string>, keys: seq<string>, d: seq<CompanyCount>)
    requires multiset(d) == multiset(Tally(companies, keys))
    requires forall k :: k in keys ==> k in companies
    ensures forall k :: k in keys ==> exists i :: 0 <= i < |d| && d[i].company == k
  {
    var t := Tally(companies, keys);
    SameElements(d, t);
    forall k | k in keys ensures exists i :: 0 <= i < |d| && d[i].company == k {
      var m :| 0 <= m < |companies| && companies[m] == k;
      assert t[m] in d;
    }
  }

  /** The company distribution names every company once, counts its results,
      is ordered by non-increasing count, and its counts add up to the number
      of results. */
  lemma DistributionProperties(results: seq<SearchResultItem>)
    ensures TotalCount(Distribution(results)) == |results|
    ensures NonIncreasing(Distribution(results), CountKey)
    ensures forall i, j :: 0 <= i < j < |Distribution(results)| ==>
              Distribution(results)[i].company != Distribution(results)[j].company
    ensures forall i :: 0 <= i < |Distribution(results)| ==>
              Distribution(results)[i].count == multiset(CompanyKeys(results))[Distribution(results)[i].company]
              && Distribution(results)[i].count >= 1
    ensures forall r :: r in results ==>
              exists i :: 0 <= i < |Distribution(results)| && Distribution(results)[i].company == CompanyKey(r)
  {
    var keys := CompanyKeys(results);
    var companies := Dedup(keys);
    var t := Tally(companies, keys);
    var d := Distribution(results);
    TallyTotal(companies, keys);
    TotalCountPermutation(d, t);
    ReorderedTallyCounts(companies, keys, d);
    ReorderedTallyDistinct(companies, keys, d);
    ReorderedTallyCovers(companies, keys, d);
    forall r | r in results ensures CompanyKey(r) in keys {
      var m :| 0 <= m < |results| && results[m] == r;
      assert keys[m] == CompanyKey(r);
    }
  }

  /** `r.combined_score or 0` for every result. */
  function CombinedScores(results: seq<SearchResultItem>): (xs: seq<real>)
    ensures |xs| == |results| && forall i :: 0 <= i < |results| ==> xs[i] == ScoreOr0(results[i].combinedScore)
  {
    seq(|results|, i requires 0 <= i < |results| => ScoreOr0(results[i].combinedScore))
  }

  /** What `_analyze_result_composition` reports. */
  function Analyze(results: seq<SearchResultItem>): (c: Composition)
    ensures c.NoResults? <==> results == []
    ensures c.Breakdown? ==> c.totalResults == |results|
  {
    if results == [] then NoResults
    else
      var scores := CombinedScores(results);
      Breakdown(|results|,
                CountWhere(results, FtsOnly), CountWhere(results, VectorOnly), CountWhere(results, BothMethods),
                Distribution(results),
                Sum(scores) / |results| as real, MinOf(scores), MaxOf(scores))
  }

  /** The report of a non-empty list: the categories never account for more
      than all results, the company counts add up to all results, and the
      average combined score lies between the smallest and the largest. */
  lemma AnalyzeProperties(results: seq<SearchResultItem>)
    requires results != []
    ensures var c := Analyze(results);
      && c.ftsOnly + c.vectorOnly + c.bothMethods <= c.totalResults
      && TotalCount(c.companyDistribution) == c.totalResults
      && c.minScore <= c.averageScore <= c.maxScore
  {
    CategoriesPartition(results);
    DistributionProperties(results);
    var scores := CombinedScores(results);
    AverageBetween(scores);
  }

  /** The mean of a non-empty list lies between its minimum and maximum. */
  lemma AverageBetween(xs: seq<real>)
    requires xs != []
    ensures MinOf(xs) <= Sum(xs) / |xs| as real <= MaxOf(xs)
  {
    MeanBetween(xs, MinOf(xs), MaxOf(xs));
  }

  lemma MeanBetween(xs: seq<real>, lo: real, hi: real)
    requires xs != []
    requires forall i :: 0 <= i < |xs| ==> lo <= xs[i] <= hi
    ensures lo <= Sum(xs) / |xs| as real <= hi
  {
    SumBetween(xs, lo, hi);
    QuotientBetween(Sum(xs), |xs| as real, lo, hi);
  }

  lemma QuotientBetween(s: real, n: real, lo: real, hi: real)
    requires n > 0.0 && n * lo <= s <= n * hi
    ensures lo <= s / n <= hi
  {
    var q := s / n;
    assert q * n == s;
    assert (q - lo) * n >= 0.0;
    assert (hi - q) * n >= 0.0;
  }

  /** `_analyze_result_composition`: the category counts are comprehensions,
      the company tally is the loop below. */
  method AnalyzeResultComposition(results: seq<SearchResultItem>) returns (c: Composition)
    ensures c == Analyze(results)
  {
    if |results| == 0 {
      return NoResults;
    }
    var ftsOnly := CountWhere(results, FtsOnly);
    var vectorOnly := CountWhere(results, VectorOnly);
    var bothMethods := CountWhere(results, BothMethods);

    var order, companies := TallyCompanies(results);
    var tally := seq(|order|, k requires 0 <= k < |order| => CompanyCount(order[k], companies[order[k]]));
    assert tally == Tally(Dedup(CompanyKeys(results)), CompanyKeys(results));
    var distribution := SortByKeyDesc(tally, CountKey);

    var scores := CombinedScores(results);
    c := Breakdown(|results|, ftsOnly, vectorOnly, bothMethods, distribution,
                   Sum(scores) / |results| as real, MinOf(scores), MaxOf(scores));
  }

  /** `order` lists the companies of `keys` in first-seen order, and
      `companies` maps each of them, and nothing else, to its count. */
  ghost predicate Tallied(order: seq<string>, companies: map<string, nat>, keys: seq<string>) {
    && order == Dedup(keys)
    && (forall k :: k in companies <==> k in order)
    && (forall k :: k in companies ==> companies[k] == multiset(keys)[k])
  }

  /** One iteration of the tally loop keeps `Tallied`. */
  lemma TallyStep(order: seq<string>, companies: map<string, nat>, keys: seq<string>, x: string,
                  order': seq<string>, companies': map<string, nat>, keys': seq<string>)
    requires Tallied(order, companies, keys)
    requires keys' == keys + [x]
    requires order' == if x in companies then order else order + [x]
    requires companies' == companies[x := (if x in companies then companies[x] else 0) + 1]
    ensures Tallied(order', companies', keys')
  {
    DedupSnoc(keys, x);
  }

  /** The `companies[company] = companies.get(company, 0) + 1` loop: the dict
      (its keys in insertion order, and its values) ends up holding each
      company's number of results. */
  method TallyCompanies(results: seq<SearchResultItem>) returns (order: seq<string>, companies: map<string, nat>)
    ensures order == Dedup(CompanyKeys(results))
    ensures forall k :: k in companies <==> k in order
    ensures forall k :: k in companies ==> companies[k] == multiset(CompanyKeys(results))[k]
  {
    ghost var keys := CompanyKeys(results);
    order := [];
    companies := map[];
    var i := 0;
    while i < |results|
      invariant 0 <= i <= |results|
      invariant Tallied(order, companies, keys[..i])
    {
      var company := CompanyKey(results[i]);
      assert keys[..i + 1] == keys[..i] + [company];
      ghost var order0, companies0 := order, companies;
      var prior := if company in companies then companies[company] else 0;
      if company !in companies {
        order := order + [company];
      }
      companies := companies[company := prior + 1];
      TallyStep(order0, companies0, keys[..i], company, order, companies, keys[..i + 1]);
      i := i + 1;
    }
    assert keys[..|results|] == keys;
  }
}
