/**
  The `/api/cities` route (server.js:279-326): settlements of a country,
  fetched once from Geonames and kept in a module-level cache, filtered by
  a name prefix and capped at 50.
 */
module Cities {
  import opened Values

  // ---------------------------------------------------------------------
  // Records

  /** One element of the `geonames` array of an upstream answer. */
  datatype Place = Place(name: Field, adminName1: Field, countryCode: Field)

  /** What the route keeps of a place (lines 300-304). */
  datatype City = City(name: Field, admin1: Field, country: Field)

  function ToCity(p: Place): City {
    City(p.name, p.adminName1, p.countryCode)
  }

  /** `(data.geonames || []).map(...)`: a missing or `null` list is empty. */
  function ToCities(geonames: Option<seq<Place>>): (r: seq<City>)
    ensures geonames.None? ==> r == []
    ensures geonames.Some? ==>
      |r| == |geonames.value| && forall i | 0 <= i < |r| :: r[i] == ToCity(geonames.value[i])
  {
    match geonames
    case None => []
    case Some(places) => seq(|places|, i requires 0 <= i < |places| => ToCity(places[i]))
  }

  // ---------------------------------------------------------------------
  // Deduplication (lines 306-312)

  /** The `${name}||${admin1}` key, as the pair of its two printed parts. */
  type CityKey = (string, string)

  function Key(c: City): CityKey {
    (Render(c.name), Render(c.admin1))
  }

  /** The keys of a list of cities. */
  function Keys(cities: seq<City>): set<CityKey> {
    if cities == [] then {} else Keys(cities[..|cities| - 1]) + {Key(cities[|cities| - 1])}
  }

  lemma {:induction false} KeysAre(cities: seq<City>, k: CityKey)
    ensures k in Keys(cities) <==> exists i | 0 <= i < |cities| :: Key(cities[i]) == k
  {
    if cities != [] {
      var init := cities[..|cities| - 1];
      KeysAre(init, k);
      if k in Keys(init) {
        var i :| 0 <= i < |init| && Key(init[i]) == k;
        assert Key(cities[i]) == k;
      }
      if exists i | 0 <= i < |cities| :: Key(cities[i]) == k {
        var i :| 0 <= i < |cities| && Key(cities[i]) == k;
        if i < |init| {
          assert Key(init[i]) == k;
        }
      }
    }
  }

  /** The kept cities: each city whose key no earlier city had. */
  function Unique(cities: seq<City>): seq<City> {
    if cities == [] then []
    else
      var kept, c := Unique(cities[..|cities| - 1]), cities[|cities| - 1];
      if Key(c) in Keys(kept) then kept else kept + [c]
  }

  /** The filter with its `seen` set, one city at a time. */
  method Dedup(cities: seq<City>) returns (kept: seq<City>)
    ensures kept == Unique(cities)
  {
    var seen: set<CityKey> := {};
    kept := [];
    for i := 0 to |cities|
      invariant kept == Unique(cities[..i])
      invariant seen == Keys(kept)
    {
      assert cities[..i + 1][..i] == cities[..i];
      var key := Key(cities[i]);
      if key !in seen {
        seen := seen + {key};
        kept := kept + [cities[i]];
        assert kept[..|kept| - 1] == Unique(cities[..i]);
      }
    }
    assert cities[..|cities|] == cities;
  }

  /** Deduplication loses no key. */
  lemma {:induction false} UniqueKeepsKeys(cities: seq<City>)
    ensures Keys(Unique(cities)) == Keys(cities)
  {
    if cities != [] {
      var init, c := cities[..|cities| - 1], cities[|cities| - 1];
      UniqueKeepsKeys(init);
      var kept := Unique(init);
      if Key(c) !in Keys(kept) {
        assert (kept + [c])[..|kept|] == kept;
      }
    }
  }

  /** No two cities share a key. */
  predicate Distinct(cities: seq<City>) {
    forall i, j | 0 <= i < j < |cities| :: Key(cities[i]) != Key(cities[j])
  }

  lemma {:induction false} UniqueDistinct(cities: seq<City>)
    ensures Distinct(Unique(cities))
  {
    if cities != [] {
      var init, c := cities[..|cities| - 1], cities[|cities| - 1];
      var kept := Unique(init);
      UniqueDistinct(init);
      if Key(c) !in Keys(kept) {
        var out := kept + [c];
        forall i, j | 0 <= i < j < |out| ensures Key(out[i]) != Key(out[j]) {
          if j == |kept| {
            KeysAre(kept, Key(c));
            assert out[i] == kept[i];
          } else {
            assert out[i] == kept[i] && out[j] == kept[j];
          }
        }
      }
    }
  }

  /** City `i` is the first one with its key. */
  predicate IsFirst(cities: seq<City>, i: nat)
    requires i < |cities|
  {
    forall j | 0 <= j < i :: Key(cities[j]) != Key(cities[i])
  }

  /** The positions of the first occurrences, in increasing order. */
  function FirstIndices(cities: seq<City>): (idx: seq<nat>)
    ensures forall k | 0 <= k < |idx| :: idx[k] < |cities|
  {
    if cities == [] then []
    else
      var n := |cities| - 1;
      FirstIndices(cities[..n]) + (if IsFirst(cities, n) then [n] else [])
  }

  predicate Increasing(idx: seq<nat>) {
    forall k, l | 0 <= k < l < |idx| :: idx[k] < idx[l]
  }

  lemma {:induction false} FirstIndicesIncreasing(cities: seq<City>)
    ensures Increasing(FirstIndices(cities))
  {
    if cities != [] {
      var n := |cities| - 1;
      var front := FirstIndices(cities[..n]);
      FirstIndicesIncreasing(cities[..n]);
      var idx := FirstIndices(cities);
      forall k, l | 0 <= k < l < |idx| ensures idx[k] < idx[l] {
        assert idx[k] == front[k] && front[k] < |cities[..n]| == n;
        if l < |front| {
          assert idx[l] == front[l];
          assert front[k] < front[l];
        } else {
          assert idx == front + [n];
          assert idx[l] == n;
        }
      }
    }
  }

  /** A city's first occurrence is selected, and no later one. */
  lemma {:induction false} FirstIndicesAreFirsts(cities: seq<City>, i: nat)
    requires i < |cities|
    ensures i in FirstIndices(cities) <==> IsFirst(cities, i)
  {
    var n := |cities| - 1;
    var init := cities[..n];
    if i < n {
      FirstIndicesAreFirsts(init, i);
      assert IsFirst(init, i) <==> IsFirst(cities, i) by {
        forall j | 0 <= j <= i ensures init[j] == cities[j] { }
      }
    }
  }

  /** `IsFirst` as the dedup loop sees it: the key is not among the keys of
      the earlier cities. */
  lemma IsFirstIffNew(cities: seq<City>, n: nat)
    requires n < |cities|
    ensures IsFirst(cities, n) <==> Key(cities[n]) !in Keys(cities[..n])
  {
    KeysAre(cities[..n], Key(cities[n]));
    if !IsFirst(cities, n) {
      var j :| 0 <= j < n && Key(cities[j]) == Key(cities[n]);
      assert cities[..n][j] == cities[j];
    }
  }

  /** The kept cities are exactly the first occurrences, in their original
      order: an order-preserving subsequence of the input. */
  lemma {:induction false} UniqueIsFirstOccurrences(cities: seq<City>)
    ensures var kept, idx := Unique(cities), FirstIndices(cities);
      |kept| == |idx| && forall k | 0 <= k < |kept| :: kept[k] == cities[idx[k]]
  {
    if cities != [] {
      var n := |cities| - 1;
      var init := cities[..n];
      UniqueIsFirstOccurrences(init);
      UniqueKeepsKeys(init);
      IsFirstIffNew(cities, n);
      var kept, idx := Unique(cities), FirstIndices(cities);
      var u, f := Unique(init), FirstIndices(init);
      if IsFirst(cities, n) {
        assert kept == u + [cities[n]] && idx == f + [n];
      } else {
        assert kept == u && idx == f;
      }
      forall k | 0 <= k < |kept| ensures kept[k] == cities[idx[k]] {
        if k < |u| {
          assert kept[k] == u[k] && idx[k] == f[k];
          assert init[f[k]] == cities[f[k]];
        }
      }
    }
  }

  /** A list without repeated keys passes unchanged. */
  lemma {:induction false} UniqueOfDistinct(cities: seq<City>)
    requires Distinct(cities)
    ensures Unique(cities) == cities
  {
    if cities != [] {
      var n := |cities| - 1;
      var init := cities[..n];
      assert Distinct(init) by {
        forall i, j | 0 <= i < j < |init| ensures Key(init[i]) != Key(init[j]) {
          assert init[i] == cities[i] && init[j] == cities[j];
        }
      }
      UniqueOfDistinct(init);
      UniqueKeepsKeys(init);
      KeysAre(init, Key(cities[n]));
      forall j | 0 <= j < |init| ensures Key(init[j]) != Key(cities[n]) {
        assert init[j] == cities[j];
      }
      assert init + [cities[n]] == cities;
    }
  }

  lemma UniqueIdempotent(cities: seq<City>)
    ensures Unique(Unique(cities)) == Unique(cities)
  {
    UniqueDistinct(cities);
    UniqueOfDistinct(Unique(cities));
  }

  // ---------------------------------------------------------------------
  // Filter and slice (lines 317-321)

  /** `c.name.toLowerCase().startsWith(q.toLowerCase())` when it does not throw. */
  predicate NameMatches(c: City, query: string) {
    c.name.Str? && StartsWith(Lower(c.name.s), Lower(query))
  }

  /** The prefix filter; `None` when some city has no string name, where
      `toLowerCase` throws. */
  function Matching(cities: seq<City>, query: string): (r: Option<seq<City>>)
    ensures r.None? <==> exists i | 0 <= i < |cities| :: !cities[i].name.Str?
    ensures r.Some? ==> |r.value| <= |cities|
    ensures r.Some? ==> forall c | c in r.value :: c in cities && NameMatches(c, query)
    ensures r.Some? ==> forall i | 0 <= i < |cities| && NameMatches(cities[i], query) :: cities[i] in r.value
  {
    if cities == [] then Some([])
    else
      var init, c := cities[..|cities| - 1], cities[|cities| - 1];
      var front := Matching(init, query);
      assert forall i | 0 <= i < |init| :: init[i] == cities[i];
      if front.None? || !c.name.Str? then None
      else if StartsWith(Lower(c.name.s), Lower(query)) then Some(front.value + [c])
      else front
  }

  /** Filtering a list made of two parts filters each part: the filter
      keeps the order of the cities. */
  lemma {:induction false} MatchingAppend(a: seq<City>, b: seq<City>, query: string)
    requires Matching(a, query).Some? && Matching(b, query).Some?
    ensures Matching(a + b, query) == Some(Matching(a, query).value + Matching(b, query).value)
  {
    if b == [] {
      assert a + b == a;
      assert Matching(a, query).value + [] == Matching(a, query).value;
    } else {
      var init, c := b[..|b| - 1], b[|b| - 1];
      assert (a + b)[..|a + b| - 1] == a + init && (a + b)[|a + b| - 1] == c;
      var ma, mi := Matching(a, query).value, Matching(init, query).value;
      MatchingAppend(a, init, query);
      if StartsWith(Lower(c.name.s), Lower(query)) {
        assert Matching(b, query).value == mi + [c];
        assert Matching(a + b, query).value == ma + mi + [c];
        SeqAssoc(ma, mi, [c]);
      } else {
        assert Matching(b, query).value == mi;
      }
    }
  }

  /** Lower-casing the query changes nothing: the filter ignores its case. */
  lemma {:induction false} MatchingIgnoresQueryCase(cities: seq<City>, query: string)
    ensures Matching(cities, Lower(query)) == Matching(cities, query)
  {
    LowerIdempotent(query);
    if cities != [] {
      MatchingIgnoresQueryCase(cities[..|cities| - 1], query);
    }
  }

  /** A name that starts with the query as typed matches it. */
  lemma TypedPrefixMatches(c: City, query: string)
    requires c.name.Str? && StartsWith(c.name.s, query)
    ensures NameMatches(c, query)
  {
    LowerPrefix(c.name.s, |query|);
  }

  const MaxCities := 50

  /** `out.slice(0, 50)`. */
  function Cap(cities: seq<City>): (r: seq<City>)
    ensures |r| <= MaxCities
    ensures |r| == if |cities| < MaxCities then |cities| else MaxCities
    ensures r == cities[..|r|]
  {
    if |cities| <= MaxCities then cities else cities[..MaxCities]
  }

  // ---------------------------------------------------------------------
  // Inputs (lines 280-287)

  /** `(req.query.country || 'LT').toUpperCase()`. */
  function NormaliseCountry(country: Field): string {
    if Truthy(country) then Upper(country.s) else "LT"
  }

  /** The country code is upper case, and `LT` when none is given. */
  lemma CountryNormalised(country: Field)
    ensures Upper(NormaliseCountry(country)) == NormaliseCountry(country)
    ensures !Truthy(country) ==> NormaliseCountry(country) == "LT"
    ensures Truthy(country) ==> |NormaliseCountry(country)| == |country.s| > 0
  {
    if Truthy(country) {
      UpperIdempotent(country.s);
    } else {
      assert Upper("LT")[0] == 'L' && Upper("LT")[1] == 'T';
    }
  }

  /** `(req.query.q || '').trim()`. */
  function NormaliseQuery(q: Field): string {
    if Truthy(q) then Trim(q.s) else ""
  }

  /** The query has no surrounding white space left, and is empty when
      none is given. */
  lemma QueryNormalised(q: Field)
    ensures Trim(NormaliseQuery(q)) == NormaliseQuery(q)
    ensures !Truthy(q) ==> NormaliseQuery(q) == ""
  {
    if Truthy(q) {
      TrimIdempotent(q.s);
    } else {
      assert Trim("") == "";
    }
  }

  const CachePrefix := "cities:"

  function CacheKey(country: string): (key: string)
    ensures StartsWith(key, CachePrefix) && key[|CachePrefix|..] == country
  {
    CachePrefix + country
  }

  /** Different countries never share a cache entry. */
  lemma CacheKeyInjective(a: string, b: string)
    requires CacheKey(a) == CacheKey(b)
    ensures a == b
  {
    assert a == CacheKey(a)[|CachePrefix|..];
  }

  // ---------------------------------------------------------------------
  // Replies

  /** 200 with a list, 500 for a missing Geonames user name, 502 for an
      upstream status that is not ok, 500 for anything that threw. */
  datatype CityReply = CityList(list: seq<City>) | MissingUsername | UpstreamStatus | LookupFailed

  function CityStatus(r: CityReply): (code: nat)
    ensures r.CityList? <==> code == 200
    ensures r.UpstreamStatus? <==> code == 502
    ensures r.MissingUsername? || r.LookupFailed? <==> code == 500
  {
    match r
    case CityList(_) => 200
    case UpstreamStatus => 502
    case _ => 500
  }

  /** What the route answers for the cities at hand and the trimmed query:
      every city when the query is empty, the matching ones otherwise, at
      most 50 of them. */
  function Respond(cities: seq<City>, query: string): (r: CityReply)
    ensures r.CityList? || r == LookupFailed
    ensures r.CityList? ==> |r.list| <= MaxCities
    ensures query == "" ==> r == CityList(Cap(cities))
    ensures query != "" && r.CityList? ==> forall c | c in r.list :: c in cities && NameMatches(c, query)
    ensures query != "" ==> (r == LookupFailed <==> exists i | 0 <= i < |cities| :: !cities[i].name.Str?)
    ensures query != "" && Matching(cities, query).Some? ==> r == CityList(Cap(Matching(cities, query).value))
  {
    if query == "" then CityList(Cap(cities))
    else
      match Matching(cities, query)
      case None => LookupFailed
      case Some(out) =>
        assert forall c | c in Cap(out) :: c in out;
        CityList(Cap(out))
  }

  /** When at most 50 cities match, every one of them is in the answer. */
  lemma RespondComplete(cities: seq<City>, query: string, i: nat)
    requires query != "" && i < |cities| && NameMatches(cities[i], query)
    requires Matching(cities, query).Some? && |Matching(cities, query).value| <= MaxCities
    ensures Respond(cities, query).CityList? && cities[i] in Respond(cities, query).list
  {
  }

  // ---------------------------------------------------------------------
  // State: the cache and the upstream service

  /** The `lru-cache` instance of lines 83-86, as a map that never forgets.
      `cache.get(key)` is `entries[key]` when `key in entries`; every stored
      list, even an empty one, is truthy, so presence alone decides a hit. */
  class CityCache {
    var entries: map<string, seq<City>>

    constructor ()
      ensures entries == map[]
    {
      entries := map[];
    }

    method Set(key: string, cities: seq<City>)
      modifies this
      ensures entries == old(entries)[key := cities]
    {
      entries := entries[key := cities];
    }
  }

  /** How the upstream request ends: a status that is not ok, a throw
      (network or JSON), or a parsed answer with its `geonames` list. */
  datatype Upstream = NotOk | Broken | Answer(geonames: Option<seq<Place>>)

  datatype Lookup = Lookup(country: string, outcome: Upstream)

  /** The Geonames search endpoint; its answers are up to the environment. */
  class Geonames {
    /** Every search made so far, oldest first. */
    var log: seq<Lookup>

    constructor ()
      ensures log == []
    {
      log := [];
    }

    method Search(country: string) returns (outcome: Upstream)
      modifies this
      ensures log == old(log) + [Lookup(country, outcome)]
    {
      outcome := *;
      log := log + [Lookup(country, outcome)];
    }
  }

  /** The list a successful search stores. */
  function Fetched(geonames: Option<seq<Place>>): (r: seq<City>)
    ensures Distinct(r)
  {
    UniqueDistinct(ToCities(geonames));
    Unique(ToCities(geonames))
  }

  /** What a cache miss does once the search has ended with `outcome`. */
  ghost predicate AfterSearch(outcome: Upstream, before: map<string, seq<City>>, after: map<string, seq<City>>,
                              key: string, query: string, reply: CityReply)
  {
    match outcome
    case NotOk => after == before && reply == UpstreamStatus
    case Broken => after == before && reply == LookupFailed
    case Answer(g) => after == before[key := Fetched(g)] && reply == Respond(Fetched(g), query)
  }

  /** Lines 291-315: on a miss, one search whose answer is mapped,
      deduplicated and stored under `key`. */
  method Refresh(cache: CityCache, geonames: Geonames, country: string, key: string, query: string)
    returns (reply: CityReply)
    modifies cache, geonames
    ensures var n := |old(geonames.log)|;
      && |geonames.log| == n + 1
      && geonames.log[..n] == old(geonames.log)
      && geonames.log[n].country == country
      && AfterSearch(geonames.log[n].outcome, old(cache.entries), cache.entries, key, query, reply)
  {
    var outcome := geonames.Search(country);
    match outcome
    case NotOk =>
      reply := UpstreamStatus;
    case Broken =>
      reply := LookupFailed;
    case Answer(g) =>
      var cities := Dedup(ToCities(g));
      cache.Set(key, cities);
      reply := Respond(cities, query);
  }

  /** The route. A cache hit makes no search; a miss makes exactly one,
      for the normalised country. */
  method CitiesRoute(cache: CityCache, geonames: Geonames, username: Field, country: Field, q: Field)
    returns (reply: CityReply)
    modifies cache, geonames
    ensures !Truthy(username) ==>
      reply == MissingUsername && cache.entries == old(cache.entries) && geonames.log == old(geonames.log)
    ensures var key := CacheKey(NormaliseCountry(country));
      Truthy(username) && key in old(cache.entries) ==>
        && geonames.log == old(geonames.log)
        && cache.entries == old(cache.entries)
        && reply == Respond(old(cache.entries)[key], NormaliseQuery(q))
    ensures var key, n := CacheKey(NormaliseCountry(country)), |old(geonames.log)|;
      Truthy(username) && key !in old(cache.entries) ==>
        && |geonames.log| == n + 1
        && geonames.log[..n] == old(geonames.log)
        && geonames.log[n].country == NormaliseCountry(country)
        && AfterSearch(geonames.log[n].outcome, old(cache.entries), cache.entries, key, NormaliseQuery(q), reply)
  {
    var c := NormaliseCountry(country);
    var query := NormaliseQuery(q);
    if !Truthy(username) {
      return MissingUsername;
    }
    var key := CacheKey(c);
    if key in cache.entries {
      reply := Respond(cache.entries[key], query);
    } else {
      reply := Refresh(cache, geonames, c, key, query);
    }
  }

  /** Two requests for the same country: once the first has answered with
      a list, the second is served from the cache without a search. */
  method LookupTwice(cache: CityCache, geonames: Geonames, username: Field, country: Field, q1: Field, q2: Field)
    returns (first: CityReply, second: CityReply, ghost mid: nat)
    modifies cache, geonames
    ensures |old(geonames.log)| <= mid <= |old(geonames.log)| + 1
    ensures first.CityList? ==> |geonames.log| == mid
    ensures first.CityList? && NormaliseQuery(q1) == NormaliseQuery(q2) ==> second == first
  {
    first := CitiesRoute(cache, geonames, username, country, q1);
    mid := |geonames.log|;
    second := CitiesRoute(cache, geonames, username, country, q2);
  }
}
