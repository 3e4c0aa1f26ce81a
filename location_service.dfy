/** The location lookup client: four resolvers for the Philippine administrative
    hierarchy (regions, then provinces of a region, cities/municipalities of a province,
    barangays of a city), each backed by a persistent key/value cache whose entries
    live for 24 hours, and each degrading to a fallback table when the fetch fails.

    The outside world of one call is explicit: the clock readings and whether the
    persistent store rejects a read or a write are an `Env`, and what the HTTP request
    and `response.json()` came to is a `FetchOutcome`. A resolver also reports the URL
    it requested, or `None` when it made no request. */
module LocationService {
  import opened Common
  import opened JsText
  import opened LocationOrder
  import opened LocationFallback

  /** 24 hours in milliseconds. */
  const CacheDuration: int := 24 * 60 * 60 * 1000
  const ApiBaseUrl: string := "https://psgc.gitlab.io/api"
  /** Every key this service writes to the shared store starts with this. */
  const KeyPrefix: string := "location_"

  datatype Level = Regions | Provinces | Cities | Barangays

  /** One element of a response body: `{code, name}`; the cities endpoint adds `isCity`. */
  datatype RawEntry = RawEntry(code: string, name: string, isCity: Option<bool>)

  /** `Fetched(body)`: an OK response whose body parsed as a list of entries.
      `FetchFailed`: the network failed, the status was not OK, or the body did not parse. */
  datatype FetchOutcome = Fetched(body: seq<RawEntry>) | FetchFailed

  /** A stored string as this service reads it back: a cache item written by
      `setCachedData`, or text that does not parse as one (another feature's value,
      a corrupt or empty record). */
  datatype Record = CacheItem(data: seq<Location>, timestamp: int) | Unreadable

  /** The clock when the cache is read and when it is written (`Date.now()` is called
      at each), and whether the store rejects the read or the write. */
  datatype Env = Env(readTime: int, writeTime: int, readFails: bool, writeFails: bool)

  /** What a resolver call returns, which URL it requested (if any) and the store after it. */
  datatype Resolution = Resolution(result: seq<Location>, request: Option<string>, storage: map<string, Record>)

  function StorageKey(key: string): string
  {
    KeyPrefix + key
  }

  /** `regions`, `provinces_<regionCode>`, `cities_<provinceCode>`, `barangays_<cityCode>` */
  function CacheKey(level: Level, parent: string): string
  {
    match level
    case Regions => "regions"
    case Provinces => "provinces_" + parent
    case Cities => "cities_" + parent
    case Barangays => "barangays_" + parent
  }

  function Endpoint(level: Level, parent: string): string
  {
    match level
    case Regions => ApiBaseUrl + "/regions"
    case Provinces => ApiBaseUrl + "/regions/" + parent + "/provinces"
    case Cities => ApiBaseUrl + "/provinces/" + parent + "/cities-municipalities"
    case Barangays => ApiBaseUrl + "/cities-municipalities/" + parent + "/barangays"
  }

  /** The fallback table of a level for a parent code. */
  function Fallback(level: Level, parent: string): seq<Location>
  {
    match level
    case Regions => FallbackRegions()
    case Provinces => FallbackProvinces(parent)
    case Cities => FallbackCities(parent)
    case Barangays => FallbackBarangays(parent)
  }

  /** The `map` step: `{value: code, label: name, code}`, plus `isCity` for cities. */
  function Format(level: Level, w: RawEntry): Location
  {
    Location(w.code, w.name, w.code, if level == Cities then w.isCity else None)
  }

  function Normalize(level: Level, body: seq<RawEntry>): seq<Location>
  {
    if body == [] then [] else [Format(level, body[0])] + Normalize(level, body[1..])
  }

  /** The list a successful fetch yields: mapped, then sorted by label. */
  function Formatted(level: Level, body: seq<RawEntry>): seq<Location>
  {
    SortByLabel(Normalize(level, body))
  }

  /** What `getCachedData(key)` yields: the stored list when there is a cache item under
      the prefixed key that is younger than 24 hours at `now`, otherwise nothing. */
  function CachedRead(storage: map<string, Record>, key: string, now: int, readFails: bool): Option<seq<Location>>
  {
    var k := StorageKey(key);
    if !readFails && k in storage && storage[k].CacheItem? && now - storage[k].timestamp < CacheDuration
    then Some(storage[k].data)
    else None
  }

  /** What `setCachedData(key, data)` leaves in the store. */
  function CachedWrite(storage: map<string, Record>, key: string, data: seq<Location>, now: int, writeFails: bool): map<string, Record>
  {
    if writeFails then storage else storage[StorageKey(key) := CacheItem(data, now)]
  }

  /** One resolver call, given the table it falls back to: no parent, no work; a fresh
      cache entry is returned as it is (an empty list too, since `if (cached)` holds for
      any array); otherwise the URL is fetched, and a good body is formatted, cached and
      returned, while a failure yields the fallback table, uncached. */
  function ResolveWith(level: Level, parent: string, storage: map<string, Record>, env: Env, fetch: FetchOutcome,
                       fallback: seq<Location>): Resolution
  {
    if level != Regions && parent == "" then Resolution([], None, storage)
    else
      var key := CacheKey(level, parent);
      var cached := CachedRead(storage, key, env.readTime, env.readFails);
      if cached.Some? then Resolution(cached.value, None, storage)
      else
        match fetch
        case FetchFailed => Resolution(fallback, Some(Endpoint(level, parent)), storage)
        case Fetched(body) =>
          var list := Formatted(level, body);
          Resolution(list, Some(Endpoint(level, parent)), CachedWrite(storage, key, list, env.writeTime, env.writeFails))
  }

  /** One resolver call, falling back to the level's own table for the parent code. The
      properties below are proved of `ResolveWith` for every table, so they hold of this
      one. */
  function Resolve(level: Level, parent: string, storage: map<string, Record>, env: Env, fetch: FetchOutcome): Resolution
  {
    ResolveWith(level, parent, storage, env, fetch, Fallback(level, parent))
  }

  /** `clearCache()`: the store without the keys that start with `location_`. */
  function WithoutLocationKeys(storage: map<string, Record>): map<string, Record>
  {
    map k | k in storage && !StartsWith(k, KeyPrefix) :: storage[k]
  }

  /** The service object. `storage` is the app-wide persistent store (AsyncStorage),
      which other features may share. */
  class LocationService {
    var storage: map<string, Record>

    constructor (initial: map<string, Record>)
      ensures storage == initial
    {
      storage := initial;
    }

    /** `getCachedData(key)`; a rejected read or an unparsable record is a miss. */
    method GetCachedData(key: string, now: int, readFails: bool) returns (cached: Option<seq<Location>>)
      ensures cached == CachedRead(storage, key, now, readFails)
    {
      if readFails {
        return None;
      }
      var k := StorageKey(key);
      if k in storage {
        var item := storage[k];
        if item.CacheItem? && now - item.timestamp < CacheDuration {
          return Some(item.data);
        }
      }
      return None;
    }

    /** `setCachedData(key, data)`; a rejected write is swallowed. */
    method SetCachedData(key: string, data: seq<Location>, now: int, writeFails: bool)
      modifies this
      ensures storage == CachedWrite(old(storage), key, data, now, writeFails)
    {
      if !writeFails {
        storage := storage[StorageKey(key) := CacheItem(data, now)];
      }
    }

    /** The step sequence the four resolvers share: check the parent, read the cache,
        fetch, format and sort, write the cache, or fall back. */
    method ResolveLevel(level: Level, parent: string, env: Env, fetch: FetchOutcome, fallback: seq<Location>)
      returns (list: seq<Location>, request: Option<string>)
      modifies this
      ensures Resolution(list, request, storage) == ResolveWith(level, parent, old(storage), env, fetch, fallback)
    {
      if level != Regions && parent == "" {
        return [], None;
      }
      var key := CacheKey(level, parent);
      var cached := GetCachedData(key, env.readTime, env.readFails);
      if cached.Some? {
        return cached.value, None;
      }
      request := Some(Endpoint(level, parent));
      match fetch {
        case FetchFailed =>
          list := fallback;
        case Fetched(body) =>
          list := Formatted(level, body);
          SetCachedData(key, list, env.writeTime, env.writeFails);
      }
    }

    method GetRegions(env: Env, fetch: FetchOutcome) returns (regions: seq<Location>, request: Option<string>)
      modifies this
      ensures Resolution(regions, request, storage) == Resolve(Regions, "", old(storage), env, fetch)
    {
      regions, request := ResolveLevel(Regions, "", env, fetch, Fallback(Regions, ""));
    }

    method GetProvinces(regionCode: string, env: Env, fetch: FetchOutcome) returns (provinces: seq<Location>, request: Option<string>)
      modifies this
      ensures Resolution(provinces, request, storage) == Resolve(Provinces, regionCode, old(storage), env, fetch)
    {
      provinces, request := ResolveLevel(Provinces, regionCode, env, fetch, Fallback(Provinces, regionCode));
    }

    method GetCities(provinceCode: string, env: Env, fetch: FetchOutcome) returns (cities: seq<Location>, request: Option<string>)
      modifies this
      ensures Resolution(cities, request, storage) == Resolve(Cities, provinceCode, old(storage), env, fetch)
    {
      cities, request := ResolveLevel(Cities, provinceCode, env, fetch, Fallback(Cities, provinceCode));
    }

    method GetBarangays(cityCode: string, env: Env, fetch: FetchOutcome) returns (barangays: seq<Location>, request: Option<string>)
      modifies this
      ensures Resolution(barangays, request, storage) == Resolve(Barangays, cityCode, old(storage), env, fetch)
    {
      barangays, request := ResolveLevel(Barangays, cityCode, env, fetch, Fallback(Barangays, cityCode));
    }

    /** `clearCache()`: list the keys, keep those starting with `location_`, remove them
        all; a rejected store operation leaves the store as it was. */
    method ClearCache(fails: bool)
      modifies this
      ensures storage == if fails then old(storage) else WithoutLocationKeys(old(storage))
    {
      if fails {
        return;
      }
      var keys := storage.Keys;
      var locationKeys := set k | k in keys && StartsWith(k, KeyPrefix);
      storage := storage - locationKeys;
    }
  }

  // ---------------------------------------------------------------------------
  // Properties of the cache primitive

  /** A record written at `t` is served by reads strictly before `t + 24h` and by no read
      from `t + 24h` on. */
  lemma CacheEntryLivesExactlyOneDay(storage: map<string, Record>, key: string, data: seq<Location>, t: int, now: int)
    ensures CachedRead(CachedWrite(storage, key, data, t, false), key, now, false)
         == if now < t + CacheDuration then Some(data) else None
  {
  }

  /** A record written at `t` that is read at exactly `t + 24h` has expired. */
  lemma CacheEntryExpiresAtBoundary(storage: map<string, Record>, key: string, data: seq<Location>, t: int)
    ensures CachedRead(CachedWrite(storage, key, data, t, false), key, t + CacheDuration - 1, false) == Some(data)
    ensures CachedRead(CachedWrite(storage, key, data, t, false), key, t + CacheDuration, false) == None
  {
    CacheEntryLivesExactlyOneDay(storage, key, data, t, t + CacheDuration - 1);
    CacheEntryLivesExactlyOneDay(storage, key, data, t, t + CacheDuration);
  }

  /** Missing keys, unreadable records and rejected reads are all misses. */
  lemma CacheMisses(storage: map<string, Record>, key: string, now: int, readFails: bool)
    requires readFails || StorageKey(key) !in storage || storage[StorageKey(key)] == Unreadable
    ensures CachedRead(storage, key, now, readFails) == None
  {
  }

  /** Cache keys never collide: two resolver calls share an entry only when they are
      at the same level and, below the regions level, have the same parent code. */
  lemma {:induction false} CacheKeysAreDistinct(l1: Level, p1: string, l2: Level, p2: string)
    requires CacheKey(l1, p1) == CacheKey(l2, p2)
    ensures l1 == l2
    ensures l1 != Regions ==> p1 == p2
  {
    var k := CacheKey(l1, p1);
    assert k[0] == CacheKey(l2, p2)[0];
    if l1 == l2 && l1 != Regions {
      var n := match l1 case Provinces => 10 case Cities => 7 case _ => 10;
      assert |CacheKey(l1, p1)| == n + |p1| && |CacheKey(l2, p2)| == n + |p2|;
      assert p1 == k[n..] == p2;
    }
  }

  /** Distinct keys stay distinct once the prefix is added. */
  lemma {:induction false} StorageKeysAreDistinct(k1: string, k2: string)
    requires k1 != k2
    ensures StorageKey(k1) != StorageKey(k2)
  {
    assert StorageKey(k1)[|KeyPrefix|..] == k1 && StorageKey(k2)[|KeyPrefix|..] == k2;
  }

  // ---------------------------------------------------------------------------
  // Properties of one resolver call

  /** A child level asked for without a parent code returns `[]` and touches neither
      the store nor the network. */
  lemma EmptyParentShortCircuits(level: Level, storage: map<string, Record>, env: Env, fetch: FetchOutcome, fallback: seq<Location>)
    requires level != Regions
    ensures ResolveWith(level, "", storage, env, fetch, fallback) == Resolution([], None, storage)
  {
  }

  /** A fresh cache entry is returned unchanged, without a request and without a write,
      whatever the network would have said. */
  lemma CacheHitIsServedAsStored(level: Level, parent: string, storage: map<string, Record>, env: Env, fetch: FetchOutcome, data: seq<Location>,
                                  fallback: seq<Location>)
    requires level == Regions || parent != ""
    requires CachedRead(storage, CacheKey(level, parent), env.readTime, env.readFails) == Some(data)
    ensures ResolveWith(level, parent, storage, env, fetch, fallback) == Resolution(data, None, storage)
  {
  }

  /** Because the hit test is `if (cached)`, a fresh cached empty list is a hit: the
      call returns `[]` and fetches nothing. */
  lemma CachedEmptyListIsAHit(level: Level, parent: string, storage: map<string, Record>, env: Env, fetch: FetchOutcome, fallback: seq<Location>)
    requires level == Regions || parent != ""
    requires !env.readFails
    requires StorageKey(CacheKey(level, parent)) in storage
    requires storage[StorageKey(CacheKey(level, parent))] == CacheItem([], env.readTime)
    ensures ResolveWith(level, parent, storage, env, fetch, fallback).result == []
    ensures ResolveWith(level, parent, storage, env, fetch, fallback).request == None
  {
    assert CachedRead(storage, CacheKey(level, parent), env.readTime, env.readFails) == Some([]);
  }

  /** On a miss the resolver requests the level's endpoint for the parent code. */
  lemma MissRequestsEndpoint(level: Level, parent: string, storage: map<string, Record>, env: Env, fetch: FetchOutcome, fallback: seq<Location>)
    requires level == Regions || parent != ""
    requires CachedRead(storage, CacheKey(level, parent), env.readTime, env.readFails) == None
    ensures ResolveWith(level, parent, storage, env, fetch, fallback).request == Some(Endpoint(level, parent))
  {
  }

  /** A failed fetch on a miss returns the table the resolver falls back to, in table
      order, and caches nothing. */
  lemma FailedFetchFallsBack(level: Level, parent: string, storage: map<string, Record>, env: Env, fallback: seq<Location>)
    requires level == Regions || parent != ""
    requires CachedRead(storage, CacheKey(level, parent), env.readTime, env.readFails) == None
    ensures ResolveWith(level, parent, storage, env, FetchFailed, fallback).result == fallback
    ensures ResolveWith(level, parent, storage, env, FetchFailed, fallback).storage == storage
  {
  }

  /** Every formatted entry comes from one element of the body, field by field. */
  lemma {:induction false} NormalizedEntryHasSource(level: Level, body: seq<RawEntry>, e: Location)
    requires e in Normalize(level, body)
    ensures exists w :: w in body && e == Format(level, w)
    decreases |body|
  {
    if e != Format(level, body[0]) {
      NormalizedEntryHasSource(level, body[1..], e);
      var w :| w in body[1..] && e == Format(level, w);
      assert w in body;
    }
  }

  /** Every element of the body is formatted into the list. */
  lemma {:induction false} EveryRawEntryIsNormalized(level: Level, body: seq<RawEntry>, w: RawEntry)
    requires w in body
    ensures Format(level, w) in Normalize(level, body)
    decreases |body|
  {
    if w != body[0] {
      EveryRawEntryIsNormalized(level, body[1..], w);
    }
  }

  /** Every entry of `list` is some body element, field by field (`value` and `code` are
      the element's code, `label` its name, and `isCity` is kept for cities only), and
      every body element appears formatted in `list`. */
  predicate MatchesBody(level: Level, body: seq<RawEntry>, list: seq<Location>)
  {
    && (forall e :: e in list ==>
          exists w :: w in body && e.value == w.code && e.code == w.code && e.labelText == w.name
                   && e.isCity == (if level == Cities then w.isCity else None))
    && (forall w :: w in body ==> Format(level, w) in list)
  }

  /** A good body on a miss gives a list sorted by label that is a permutation of the
      formatted body and matches the body entry for entry; that same list is written
      under the level's cache key unless the write is rejected. */
  lemma FetchedListIsFormattedAndCached(level: Level, parent: string, storage: map<string, Record>, env: Env, body: seq<RawEntry>,
                                         fallback: seq<Location>)
    requires level == Regions || parent != ""
    requires CachedRead(storage, CacheKey(level, parent), env.readTime, env.readFails) == None
    ensures var r := ResolveWith(level, parent, storage, env, Fetched(body), fallback);
      && SortedByLabel(r.result)
      && multiset(r.result) == multiset(Normalize(level, body))
      && MatchesBody(level, body, r.result)
      && r.storage == CachedWrite(storage, CacheKey(level, parent), r.result, env.writeTime, env.writeFails)
  {
    var r := ResolveWith(level, parent, storage, env, Fetched(body), fallback);
    assert r.result == Formatted(level, body);
    SortByLabelSpec(Normalize(level, body));
    FormattedEntriesMatchBody(level, body);
  }

  /** The formatted list holds the formatting of every body element and nothing else. */
  lemma FormattedEntriesMatchBody(level: Level, body: seq<RawEntry>)
    ensures MatchesBody(level, body, Formatted(level, body))
  {
    var list := Formatted(level, body);
    SortByLabelSpec(Normalize(level, body));
    forall e | e in list
      ensures exists w :: w in body && e.value == w.code && e.code == w.code && e.labelText == w.name
                       && e.isCity == (if level == Cities then w.isCity else None)
    {
      assert e in multiset(Normalize(level, body));
      NormalizedEntryHasSource(level, body, e);
    }
    forall w | w in body ensures Format(level, w) in list {
      EveryRawEntryIsNormalized(level, body, w);
      assert Format(level, w) in multiset(list);
    }
  }

  /** A call that fetched and cached its list is answered from the cache, with the
      identical list and no request, by any later call for the same level and parent
      whose read comes less than 24 hours after the write. */
  lemma RepeatCallWithinDayIsServedFromCache(level: Level, parent: string, storage: map<string, Record>,
                                             env1: Env, body: seq<RawEntry>, env2: Env, fetch2: FetchOutcome,
                                             fallback: seq<Location>)
    requires level == Regions || parent != ""
    requires CachedRead(storage, CacheKey(level, parent), env1.readTime, env1.readFails) == None
    requires !env1.writeFails && !env2.readFails
    requires env2.readTime - env1.writeTime < CacheDuration
    ensures var first := ResolveWith(level, parent, storage, env1, Fetched(body), fallback);
      ResolveWith(level, parent, first.storage, env2, fetch2, fallback) == Resolution(first.result, None, first.storage)
  {
  }

  /** Caching one parent's list leaves every other level and parent as it was: each
      key is read and expires on its own. */
  lemma ResolveLeavesOtherEntries(level: Level, parent: string, storage: map<string, Record>, env: Env, fetch: FetchOutcome,
                                  otherLevel: Level, otherParent: string, now: int, readFails: bool,
                                  fallback: seq<Location>)
    requires otherLevel != level || (level != Regions && otherParent != parent)
    ensures var after := ResolveWith(level, parent, storage, env, fetch, fallback).storage;
      CachedRead(after, CacheKey(otherLevel, otherParent), now, readFails)
        == CachedRead(storage, CacheKey(otherLevel, otherParent), now, readFails)
  {
    if CacheKey(otherLevel, otherParent) == CacheKey(level, parent) {
      CacheKeysAreDistinct(otherLevel, otherParent, level, parent);
    } else {
      StorageKeysAreDistinct(CacheKey(otherLevel, otherParent), CacheKey(level, parent));
    }
  }

  // ---------------------------------------------------------------------------
  // Properties of clearCache and of the fallback tables

  /** `clearCache` removes exactly the keys that start with `location_` and leaves every
      other key with its value. */
  lemma ClearCacheIsSelective(storage: map<string, Record>, k: string)
    ensures k in WithoutLocationKeys(storage) <==> k in storage && !StartsWith(k, KeyPrefix)
    ensures k in WithoutLocationKeys(storage) ==> WithoutLocationKeys(storage)[k] == storage[k]
  {
  }

  /** After `clearCache` every resolver misses the cache, at every level and for every
      parent code. */
  lemma ClearedCacheMissesEverywhere(storage: map<string, Record>, level: Level, parent: string, now: int, readFails: bool)
    ensures CachedRead(WithoutLocationKeys(storage), CacheKey(level, parent), now, readFails) == None
  {
    StartsWithPrefix(KeyPrefix, CacheKey(level, parent));
  }

  predicate RowWellFormed(e: Location, level: Level)
  {
    e.value == e.code && (e.isCity.Some? <==> level == Cities)
  }

  /** Every fallback row carries `value == code`, and `isCity` exactly at the city level. */
  lemma FallbackRowsAreWellFormed(level: Level, parent: string)
    ensures forall i :: 0 <= i < |Fallback(level, parent)| ==> RowWellFormed(Fallback(level, parent)[i], level)
  {
    match level
    case Regions => RegionRowsAreWellFormed();
    case Provinces => ProvinceRowsAreWellFormed(parent);
    case Cities => CityRowsAreWellFormed(parent);
    case Barangays => BarangayRowsAreWellFormed(parent);
  }

  lemma RegionRowsAreWellFormed()
    ensures forall i :: 0 <= i < |FallbackRegions()| ==> RowWellFormed(FallbackRegions()[i], Regions)
  {
  }

  lemma ProvinceRowsAreWellFormed(regionCode: string)
    ensures forall i :: 0 <= i < |FallbackProvinces(regionCode)| ==> RowWellFormed(FallbackProvinces(regionCode)[i], Provinces)
  {
  }

  lemma CityRowsAreWellFormed(provinceCode: string)
    ensures forall i :: 0 <= i < |FallbackCities(provinceCode)| ==> RowWellFormed(FallbackCities(provinceCode)[i], Cities)
  {
  }

  lemma BarangayRowsAreWellFormed(cityCode: string)
    ensures forall i :: 0 <= i < |FallbackBarangays(cityCode)| ==> RowWellFormed(FallbackBarangays(cityCode)[i], Barangays)
  {
  }

  /** The parent codes the fallback tables have rows for. */
  function FallbackParents(level: Level): set<string>
  {
    match level
    case Regions => {}
    case Provinces => {"130000000", "030000000", "040000000"}
    case Cities => {"1300000000"}
    case Barangays => {"137417000", "137409000"}
  }

  /** Below the regions level the fallback is non-empty exactly for the parent codes the
      tables list (`fallbackData[code] || []`); every other code falls back to `[]`. */
  lemma FallbackIsEmptyOffTheTable(level: Level, parent: string)
    requires level != Regions
    ensures (Fallback(level, parent) != []) == (parent in FallbackParents(level))
  {
    match level
    case Provinces => ProvinceTableKeys(parent);
    case Cities => CityTableKeys(parent);
    case Barangays => BarangayTableKeys(parent);
  }

  lemma ProvinceTableKeys(regionCode: string)
    ensures (FallbackProvinces(regionCode) != []) == (regionCode in FallbackParents(Provinces))
  {
  }

  lemma CityTableKeys(provinceCode: string)
    ensures (FallbackCities(provinceCode) != []) == (provinceCode in FallbackParents(Cities))
  {
  }

  lemma BarangayTableKeys(cityCode: string)
    ensures (FallbackBarangays(cityCode) != []) == (cityCode in FallbackParents(Barangays))
  {
  }

  /** The fallback regions are not in label order (the table is returned as written):
      `Region XIII - Caraga` is followed by `Cordillera Administrative Region (CAR)`. */
  lemma FallbackRegionsAreUnsorted()
    ensures !SortedByLabel(FallbackRegions())
  {
    var s := FallbackRegions();
    assert s[14].labelText[0] == 'R' && s[15].labelText[0] == 'C';
    assert !LabelLeq(s[14].labelText, s[15].labelText);
  }

  /** The body `[{code: "01", name: "Region I"}, {code: "13", name: "NCR"}]` for the
      regions endpoint resolves to NCR first, then Region I. */
  lemma RegionsExample(storage: map<string, Record>, env: Env, fallback: seq<Location>)
    requires StorageKey("regions") !in storage
    ensures ResolveWith(Regions, "", storage, env, Fetched([RawEntry("01", "Region I", None), RawEntry("13", "NCR", None)]), fallback).result
         == [Location("13", "NCR", "13", None), Location("01", "Region I", "01", None)]
  {
    var body := [RawEntry("01", "Region I", None), RawEntry("13", "NCR", None)];
    var ncr := Location("13", "NCR", "13", None);
    var one := Location("01", "Region I", "01", None);
    assert CachedRead(storage, CacheKey(Regions, ""), env.readTime, env.readFails) == None;
    assert Normalize(Regions, body[1..]) == [ncr];
    assert Normalize(Regions, body) == [one, ncr];
    assert SortByLabel([ncr]) == [ncr];
    assert !LabelLeq(one.labelText, ncr.labelText) by {
      assert one.labelText[0] == 'R' && ncr.labelText[0] == 'N';
    }
    assert InsertByLabel(one, [ncr]) == [ncr, one];
    assert [one, ncr][1..] == [ncr];
    assert Formatted(Regions, body) == [ncr, one];
  }
}
