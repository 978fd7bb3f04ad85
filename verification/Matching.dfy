/** Request matchers (matchers.go): the default comparisons, and header equality by counting. */
module Matching {
  import opened Wrappers
  import opened Http

  // ---------- matchers that may write to their arguments ----------

  /** What one matcher answers, and what it leaves in the two requests it was given. */
  datatype Judgement = Judgement(ok: bool, left: Request, right: Request)

  type Matcher = (Request, Request) -> Judgement

  /** Each matcher sees what the earlier ones wrote; the first refusal ends the search. */
  function MatchFrom(ms: seq<Matcher>, a: Request, b: Request): bool {
    if ms == [] then true
    else
      var j := ms[0](a, b);
      j.ok && MatchFrom(ms[1..], j.left, j.right)
  }

  /** RequestMatchers.Match: no matchers, no match. */
  function Match(ms: seq<Matcher>, a: Request, b: Request): bool {
    MatchFrom(ms, a, b) && |ms| != 0
  }

  ghost predicate Equivalence(ms: seq<Matcher>) {
    && (forall a :: Match(ms, a, a))
    && (forall a, b :: Match(ms, a, b) ==> Match(ms, b, a))
    && (forall a, b, c :: Match(ms, a, b) && Match(ms, b, c) ==> Match(ms, a, c))
  }

  /** The loop of RequestMatchers.Match on value arguments. */
  method RunMatchers(ms: seq<Matcher>, httpRequest: Request, trackRequest: Request) returns (matched: bool)
    ensures matched == Match(ms, httpRequest, trackRequest)
  {
    var a, b := httpRequest, trackRequest;
    for i := 0 to |ms|
      invariant MatchFrom(ms, httpRequest, trackRequest) == MatchFrom(ms[i..], a, b)
    {
      var j := ms[i](a, b);
      if !j.ok {
        return false;
      }
      a, b := j.left, j.right;
      assert ms[i..][1..] == ms[i + 1..];
    }
    return |ms| != 0;
  }

  // ---------- header equality ----------

  function Entries(h: Option<Header>): Header {
    h.GetOr(map[])
  }

  /** Same keys, and for each key the same values as often, in any order. */
  ghost predicate SameHeaders(h1: Header, h2: Header) {
    h1.Keys == h2.Keys && forall k :: k in h1 ==> multiset(h1[k]) == multiset(h2[k])
  }

  function Count(m: map<string, int>, s: string): int {
    if s in m then m[s] else 0
  }

  /** Puts every value of the first list in an inbox, takes every value of the second out again. */
  method PostalSort(values1: seq<string>, values2: seq<string>) returns (same: bool)
    ensures same <==> multiset(values1) == multiset(values2)
  {
    var m: map<string, int> := map[];
    for i := 0 to |values1|
      invariant forall s :: Count(m, s) == multiset(values1[..i])[s]
    {
      assert values1[..i + 1] == values1[..i] + [values1[i]];
      m := m[values1[i] := Count(m, values1[i]) + 1];
    }
    assert values1[..|values1|] == values1;
    for i := 0 to |values2|
      invariant forall s :: Count(m, s) + multiset(values2[..i])[s] == multiset(values1)[s]
    {
      assert values2[..i + 1] == values2[..i] + [values2[i]];
      m := m[values2[i] := Count(m, values2[i]) - 1];
    }
    assert values2[..|values2|] == values2;
    var todo := m.Keys;
    while todo != {}
      invariant todo <= m.Keys
      invariant forall s :: s in m && s !in todo ==> m[s] == 0
    {
      var s :| s in todo;
      if m[s] != 0 {
        assert Count(m, s) != 0;
        return false;
      }
      todo := todo - {s};
    }
    assert forall s :: Count(m, s) == 0;
    same := true;
  }

  /** Equal sizes plus inclusion one way give equal key sets. */
  lemma Pigeonhole<T>(a: set<T>, b: set<T>)
    requires a <= b && |a| == |b|
    ensures a == b
  {
    assert b == a + (b - a);
  }

  /** The keys are visited in whatever order the map yields them. */
  method AreHttpHeadersEqual(httpHeaders1: Option<Header>, httpHeaders2: Option<Header>) returns (equal: bool)
    ensures equal <==> SameHeaders(Entries(httpHeaders1), Entries(httpHeaders2))
    ensures equal <==>
            var h1, h2 := httpHeaders1.GetOr(map[]), httpHeaders2.GetOr(map[]);
            h1.Keys == h2.Keys && forall k :: k in h1 ==> multiset(h1[k]) == multiset(h2[k])
  {
    var h1, h2 := Entries(httpHeaders1), Entries(httpHeaders2);
    if |h1| != |h2| {
      assert |h1.Keys| != |h2.Keys|;
      return false;
    }
    var todo := h1.Keys;
    while todo != {}
      invariant todo <= h1.Keys
      invariant forall k :: k in h1 && k !in todo ==> k in h2 && multiset(h1[k]) == multiset(h2[k])
    {
      var k :| k in todo;
      if k !in h2 || |h1[k]| != |h2[k]| {
        assert k in h2 ==> |multiset(h1[k])| != |multiset(h2[k])|;
        return false;
      }
      var same := PostalSort(h1[k], h2[k]);
      if !same {
        return false;
      }
      todo := todo - {k};
    }
    assert h1.Keys <= h2.Keys;
    assert |h1.Keys| == |h2.Keys|;
    Pigeonhole(h1.Keys, h2.Keys);
    equal := true;
  }

  // ---------- the default matchers ----------

  /** A comparison that leaves both requests as they are. */
  function Reading(same: (Request, Request) -> bool): Matcher {
    (a, b) => Judgement(same(a, b), a, b)
  }

  const EMPTY_URL := Url("", "", "", "", "", "", false, "", "", "", false)

  ghost predicate DefaultHeaderMatcher(a: Request, b: Request) {
    SameHeaders(Entries(a.header), Entries(b.header))
  }

  predicate DefaultMethodMatcher(a: Request, b: Request) {
    a.verb == b.verb
  }

  predicate DefaultUrlMatcher(a: Request, b: Request) {
    var u, v := a.url.GetOr(EMPTY_URL), b.url.GetOr(EMPTY_URL);
    && u.scheme == v.scheme
    && u.opaquePart == v.opaquePart
    && u.user == v.user
    && u.host == v.host
    && u.path == v.path
    && u.rawPath == v.rawPath
    && u.forceQuery == v.forceQuery
    && u.rawQuery == v.rawQuery
    && u.fragment == v.fragment
  }

  predicate DefaultBodyMatcher(a: Request, b: Request) {
    a.body == b.body
  }

  ghost predicate DefaultTrailerMatcher(a: Request, b: Request) {
    SameHeaders(Entries(a.trailer), Entries(b.trailer))
  }

  ghost function StrictMatchers(): seq<Matcher> {
    [Reading(DefaultHeaderMatcher), Reading(DefaultMethodMatcher), Reading(DefaultUrlMatcher),
     Reading(DefaultBodyMatcher), Reading(DefaultTrailerMatcher)]
  }

  function MethodUrlMatchers(): seq<Matcher> {
    [Reading(DefaultMethodMatcher), Reading(DefaultUrlMatcher)]
  }

  /** All that a strict matcher can tell apart. */
  datatype StrictKey = StrictKey(
    verb: string, url: Url, body: Bytes,
    header: map<string, multiset<string>>, trailer: map<string, multiset<string>>)

  ghost function Bags(h: Option<Header>): map<string, multiset<string>> {
    map k | k in Entries(h) :: multiset(Entries(h)[k])
  }

  /** A missing URL is an empty one; RawFragment and OmitHost are not compared. */
  ghost function UrlKey(r: Request): Url {
    r.url.GetOr(EMPTY_URL).(rawFragment := "", omitHost := false)
  }

  ghost function KeyOf(r: Request): StrictKey {
    StrictKey(r.verb, UrlKey(r), r.body, Bags(r.header), Bags(r.trailer))
  }

  lemma SameHeadersIsSameBags(h1: Option<Header>, h2: Option<Header>)
    ensures SameHeaders(Entries(h1), Entries(h2)) <==> Bags(h1) == Bags(h2)
  {
    var a, b := Bags(h1), Bags(h2);
    assert a.Keys == Entries(h1).Keys && b.Keys == Entries(h2).Keys;
    if a == b {
      forall k | k in Entries(h1)
        ensures multiset(Entries(h1)[k]) == multiset(Entries(h2)[k])
      {
        assert a[k] == b[k];
      }
    }
  }

  /** Comparisons that write nothing are simply conjoined. */
  lemma MatchReading(same: (Request, Request) -> bool, ms: seq<Matcher>, a: Request, b: Request)
    ensures MatchFrom([Reading(same)] + ms, a, b) == (same(a, b) && MatchFrom(ms, a, b))
  {
    assert ([Reading(same)] + ms)[1..] == ms;
  }

  /** A strict match says that method, URL, body and the header and trailer multisets are the same. */
  lemma StrictMatchIsSameKey(a: Request, b: Request)
    ensures Match(StrictMatchers(), a, b) <==> KeyOf(a) == KeyOf(b)
  {
    SameHeadersIsSameBags(a.header, b.header);
    SameHeadersIsSameBags(a.trailer, b.trailer);
    var m4 := [Reading(DefaultTrailerMatcher)];
    var m3 := [Reading(DefaultBodyMatcher)] + m4;
    var m2 := [Reading(DefaultUrlMatcher)] + m3;
    var m1 := [Reading(DefaultMethodMatcher)] + m2;
    assert StrictMatchers() == [Reading(DefaultHeaderMatcher)] + m1;
    MatchReading(DefaultHeaderMatcher, m1, a, b);
    MatchReading(DefaultMethodMatcher, m2, a, b);
    MatchReading(DefaultUrlMatcher, m3, a, b);
    MatchReading(DefaultBodyMatcher, m4, a, b);
    assert m4 == m4 + [];
    MatchReading(DefaultTrailerMatcher, [], a, b);
  }

  /** The same, field by field: of a URL everything counts but RawFragment and OmitHost, of headers and
      trailers the values of each key in any order, and nothing is empty. */
  lemma StrictMatchMeans(a: Request, b: Request)
    ensures Match(StrictMatchers(), a, b) <==>
            var u, v := a.url.GetOr(EMPTY_URL), b.url.GetOr(EMPTY_URL);
            var g, h := a.header.GetOr(map[]), b.header.GetOr(map[]);
            var s, t := a.trailer.GetOr(map[]), b.trailer.GetOr(map[]);
            && a.verb == b.verb && a.body == b.body
            && u.(rawFragment := v.rawFragment, omitHost := v.omitHost) == v
            && g.Keys == h.Keys && (forall k :: k in g ==> multiset(g[k]) == multiset(h[k]))
            && s.Keys == t.Keys && (forall k :: k in s ==> multiset(s[k]) == multiset(t[k]))
  {
    StrictMatchIsSameKey(a, b);
    SameHeadersIsSameBags(a.header, b.header);
    SameHeadersIsSameBags(a.trailer, b.trailer);
  }

  /** The strict matchers identify exactly the requests with the same key. */
  lemma StrictIsEquivalence()
    ensures Equivalence(StrictMatchers())
  {
    forall a, b
      ensures Match(StrictMatchers(), a, b) <==> KeyOf(a) == KeyOf(b)
    {
      StrictMatchIsSameKey(a, b);
    }
  }

  lemma MethodUrlMatch(a: Request, b: Request)
    ensures Match(MethodUrlMatchers(), a, b) <==> a.verb == b.verb && UrlKey(a) == UrlKey(b)
    ensures Match(MethodUrlMatchers(), a, b) <==>
            var u, v := a.url.GetOr(EMPTY_URL), b.url.GetOr(EMPTY_URL);
            a.verb == b.verb && u.(rawFragment := v.rawFragment, omitHost := v.omitHost) == v
  {
    var m1 := [Reading(DefaultUrlMatcher)];
    assert MethodUrlMatchers() == [Reading(DefaultMethodMatcher)] + m1;
    MatchReading(DefaultMethodMatcher, m1, a, b);
    assert m1 == m1 + [];
    MatchReading(DefaultUrlMatcher, [], a, b);
  }

  lemma MethodUrlIsEquivalence()
    ensures Equivalence(MethodUrlMatchers())
  {
    forall a, b
      ensures Match(MethodUrlMatchers(), a, b) <==> a.verb == b.verb && UrlKey(a) == UrlKey(b)
    {
      MethodUrlMatch(a, b);
    }
  }

  lemma StrictImpliesMethodUrl(a: Request, b: Request)
    requires Match(StrictMatchers(), a, b)
    ensures Match(MethodUrlMatchers(), a, b)
  {
    StrictMatchIsSameKey(a, b);
    MethodUrlMatch(a, b);
  }

  /** No matchers match nothing; otherwise each is asked in turn, with what the earlier ones left. */
  lemma MatchInTurn(m: Matcher, ms: seq<Matcher>, a: Request, b: Request)
    ensures !Match([], a, b)
    ensures var j := m(a, b);
            Match([m] + ms, a, b) <==> j.ok && (ms == [] || Match(ms, j.left, j.right))
  {
    assert ([m] + ms)[1..] == ms;
    assert MatchFrom([m] + ms, a, b) == (m(a, b).ok && MatchFrom(ms, m(a, b).left, m(a, b).right));
  }
}
