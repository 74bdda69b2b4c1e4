/**
 * The browser's HTTP client (public/js/api.js): `APIManager`'s cache of GET
 * responses and its retry loop, the URL and cache-key strings, `SmartAPI`'s
 * switch to the offline fallback, and the fallback's recent-games slice.
 * `fetch`, the clock and the sleeps are parameters; response bodies have the
 * abstract type `D`.
 */
module Api {
  import opened Wrappers
  import opened Strings

  const RetryAttempts := 3
  const RetryDelay := 1000
  /** Five minutes, in milliseconds. */
  const CacheTimeout := 5 * 60 * 1000

  function Pow2(n: nat): (p: nat)
    ensures p >= 1
  {
    if n == 0 then 1 else 2 * Pow2(n - 1)
  }

  // ---------------------------------------------------------------------
  // Request configuration

  /** The `options` fields `request` reads. */
  datatype RequestOptions = RequestOptions(verb: Option<string>, body: Option<string>, headers: Option<map<string, string>>)

  /** `config.method || "GET"`. */
  function MethodName(o: RequestOptions): string
  {
    if Truthy(o.verb) then o.verb.value else "GET"
  }

  /** `!config.method || config.method === "GET"`: the requests that use the cache. */
  predicate IsGet(o: RequestOptions)
  {
    !Truthy(o.verb) || o.verb.value == "GET"
  }

  /** `JSON.stringify(config.body || {})` for a string body. */
  function BodyJson(body: Option<string>): string
  {
    if Truthy(body) then "\"" + body.value + "\"" else "{}"
  }

  /** `` `${method}_${url}_${body}` ``. */
  function CacheKey(o: RequestOptions, url: string): string
  {
    MethodName(o) + "_" + url + "_" + BodyJson(o.body)
  }

  lemma MiddleDetermined(a: string, u1: string, u2: string, c: string)
    requires a + u1 + c == a + u2 + c
    ensures u1 == u2
  {
    var s1, s2 := a + u1 + c, a + u2 + c;
    assert |u1| == |u2|;
    assert s1[|a|..|a| + |u1|] == u1;
    assert s2[|a|..|a| + |u2|] == u2;
  }

  /** Two requests with the same method and body share a cache entry only when their URLs are equal. */
  lemma CacheKeySeparatesUrls(o: RequestOptions, u1: string, u2: string)
    ensures CacheKey(o, u1) == CacheKey(o, u2) <==> u1 == u2
  {
    if CacheKey(o, u1) == CacheKey(o, u2) {
      var a, c := MethodName(o) + "_", "_" + BodyJson(o.body);
      assert CacheKey(o, u1) == a + u1 + c;
      assert CacheKey(o, u2) == a + u2 + c;
      MiddleDetermined(a, u1, u2, c);
    }
  }

  const DefaultHeaders: map<string, string> := map["Content-Type" := "application/json"]

  /** `{ headers: { "Content-Type": ..., ...options.headers }, ...options }.headers`. */
  function ConfigHeaders(o: RequestOptions): map<string, string>
  {
    var merged := DefaultHeaders + (if o.headers.Some? then o.headers.value else map[]);
    if o.headers.Some? then o.headers.value else merged
  }

  /**
   * The later spread of `options` wins: explicit headers replace the merged
   * object, so the default Content-Type survives only without them.
   */
  lemma ConfigHeadersReplaced(o: RequestOptions)
    ensures o.headers.None? ==> ConfigHeaders(o) == DefaultHeaders
    ensures o.headers.Some? ==> ConfigHeaders(o) == o.headers.value
    ensures "Content-Type" in ConfigHeaders(o) <==> o.headers.None? || "Content-Type" in o.headers.value
  {
  }

  /** `new URLSearchParams(params).toString()`, without percent-encoding. */
  function QueryString(params: seq<(string, string)>): (q: string)
    ensures q == "" <==> params == []
  {
    if |params| == 0 then ""
    else
      var pair := params[0].0 + "=" + params[0].1;
      assert pair[|params[0].0|] == '=';
      if |params| == 1 then pair else pair + "&" + QueryString(params[1..])
  }

  /** The URL `get(endpoint, params)` requests. */
  function GetUrl(endpoint: string, params: seq<(string, string)>): (url: string)
  {
    var queryString := QueryString(params);
    if queryString != "" then endpoint + "?" + queryString else endpoint
  }

  /** The endpoint is kept, and `?` is added exactly when there are parameters. */
  lemma GetUrlShape(endpoint: string, params: seq<(string, string)>)
    ensures StartsWith(GetUrl(endpoint, params), endpoint)
    ensures params == [] ==> GetUrl(endpoint, params) == endpoint
    ensures params != [] ==> |GetUrl(endpoint, params)| > |endpoint| && GetUrl(endpoint, params)[|endpoint|] == '?'
  {
    if params != [] {
      var url := GetUrl(endpoint, params);
      assert url == endpoint + ("?" + QueryString(params));
    }
  }

  /** The options `get` passes to `request`. */
  const GetOptions := RequestOptions(Some("GET"), None, None)

  // ---------------------------------------------------------------------
  // Cache

  datatype CacheEntry<D> = CacheEntry(data: D, timestamp: int)

  predicate Expired<D>(e: CacheEntry<D>, now: int)
  {
    now - e.timestamp > CacheTimeout
  }

  /** What `getFromCache(key)` returns at time `now`. */
  function Lookup<D>(cache: map<string, CacheEntry<D>>, key: string, now: int): Option<D>
  {
    if key in cache && !Expired(cache[key], now) then Some(cache[key].data) else None
  }

  /** The cache after `getFromCache(key)`: an expired entry is deleted. */
  function AfterLookup<D>(cache: map<string, CacheEntry<D>>, key: string, now: int): map<string, CacheEntry<D>>
  {
    if key in cache && Expired(cache[key], now) then cache - {key} else cache
  }

  /**
   * A stored value is returned for five minutes and then dropped; other keys
   * are unaffected by storing or looking up this one.
   */
  lemma CacheRoundTrip<D>(cache: map<string, CacheEntry<D>>, key: string, other: string, data: D, stored: int, now: int)
    requires other != key
    ensures Lookup(cache[key := CacheEntry(data, stored)], key, now) == if now - stored <= CacheTimeout then Some(data) else None
    ensures key in AfterLookup(cache[key := CacheEntry(data, stored)], key, now) <==> now - stored <= CacheTimeout
    ensures Lookup(cache[key := CacheEntry(data, stored)], other, now) == Lookup(cache, other, now)
    ensures Lookup(AfterLookup(cache, key, now), other, now) == Lookup(cache, other, now)
  {
  }

  // ---------------------------------------------------------------------
  // Retry loop

  /** One `fetch`: the parsed body, or an error with an HTTP status or none (network failure, bad JSON). */
  datatype Outcome<D> = Fetched(data: D) | Failed(status: Option<int>)

  /** `error.status >= 400 && error.status < 500`. */
  predicate ClientError(status: Option<int>)
  {
    status.Some? && 400 <= status.value < 500
  }

  /** The result of the attempts from one on: the outcome, the sleeps taken, the number of fetches. */
  datatype Retried<D> = Retried(outcome: Outcome<D>, sleeps: seq<int>, fetches: nat)

  /**
   * The attempts from `attempt` on, with `fetch(j)` the outcome of attempt
   * `j`: stop at the first success or client error or after the last attempt,
   * sleeping `1000 * 2^j` after each other failure but the last.
   */
  function RetryFrom<D>(fetch: nat -> Outcome<D>, attempt: nat): (r: Retried<D>)
    requires attempt < RetryAttempts
    ensures 1 <= r.fetches <= RetryAttempts - attempt
    ensures |r.sleeps| == r.fetches - 1
    decreases RetryAttempts - attempt
  {
    match fetch(attempt)
    case Fetched(_) => Retried(fetch(attempt), [], 1)
    case Failed(status) =>
      if ClientError(status) || attempt == RetryAttempts - 1 then Retried(fetch(attempt), [], 1)
      else
        var rest := RetryFrom(fetch, attempt + 1);
        Retried(rest.outcome, [RetryDelay * Pow2(attempt)] + rest.sleeps, rest.fetches + 1)
  }

  /**
   * The attempts run until the first that succeeds or fails with a client
   * error, and at most three; the outcome is that of the last attempt, and
   * the `k`-th sleep lasts `1000 * 2^(attempt + k)` milliseconds.
   */
  lemma {:induction false} RetryFromMeaning<D>(fetch: nat -> Outcome<D>, attempt: nat)
    requires attempt < RetryAttempts
    ensures var r := RetryFrom(fetch, attempt);
      && r.outcome == fetch(attempt + r.fetches - 1)
      && (forall j :: attempt <= j < attempt + r.fetches - 1 ==> fetch(j).Failed? && !ClientError(fetch(j).status))
      && (r.outcome.Failed? ==> ClientError(r.outcome.status) || attempt + r.fetches == RetryAttempts)
      && (forall k :: 0 <= k < |r.sleeps| ==> r.sleeps[k] == RetryDelay * Pow2(attempt + k))
    decreases RetryAttempts - attempt
  {
    var r := RetryFrom(fetch, attempt);
    if fetch(attempt).Failed? && !ClientError(fetch(attempt).status) && attempt < RetryAttempts - 1 {
      RetryFromMeaning(fetch, attempt + 1);
      var rest := RetryFrom(fetch, attempt + 1);
      assert r.sleeps == [RetryDelay * Pow2(attempt)] + rest.sleeps;
      forall k | 0 < k < |r.sleeps|
        ensures r.sleeps[k] == RetryDelay * Pow2(attempt + k)
      {
        assert r.sleeps[k] == rest.sleeps[k - 1];
      }
    }
  }

  /** One attempt of `RetryFrom`, unfolded. */
  lemma RetryStep<D>(fetch: nat -> Outcome<D>, attempt: nat)
    requires attempt < RetryAttempts
    ensures fetch(attempt).Fetched? || ClientError(fetch(attempt).status) || attempt == RetryAttempts - 1 ==>
      RetryFrom(fetch, attempt).outcome == fetch(attempt) && RetryFrom(fetch, attempt).sleeps == []
    ensures fetch(attempt).Failed? && !ClientError(fetch(attempt).status) && attempt < RetryAttempts - 1 ==>
      RetryFrom(fetch, attempt).outcome == RetryFrom(fetch, attempt + 1).outcome
      && RetryFrom(fetch, attempt).sleeps == [RetryDelay * Pow2(attempt)] + RetryFrom(fetch, attempt + 1).sleeps
  {
  }

  /** The `for (let attempt = 0; ...)` loop of `request`: the outcome is what `request` returns or throws. */
  method RetryLoop<D>(fetch: nat -> Outcome<D>) returns (outcome: Outcome<D>, sleeps: seq<int>)
    ensures outcome == RetryFrom(fetch, 0).outcome && sleeps == RetryFrom(fetch, 0).sleeps
  {
    ghost var total := RetryFrom(fetch, 0);
    sleeps := [];
    var lastError := Failed(None);
    var attempt := 0;
    while attempt < RetryAttempts
      invariant 0 <= attempt <= RetryAttempts
      invariant attempt < RetryAttempts ==>
        total.outcome == RetryFrom(fetch, attempt).outcome && total.sleeps == sleeps + RetryFrom(fetch, attempt).sleeps
      invariant attempt == RetryAttempts ==> lastError == total.outcome && sleeps == total.sleeps
    {
      var result := fetch(attempt);
      RetryStep(fetch, attempt);
      match result {
        case Fetched(_) =>
          return result, sleeps;
        case Failed(status) =>
          lastError := result;
          if ClientError(status) {
            return lastError, sleeps;
          }
          if attempt < RetryAttempts - 1 {
            ghost var rest := RetryFrom(fetch, attempt + 1).sleeps;
            assert sleeps + ([RetryDelay * Pow2(attempt)] + rest) == (sleeps + [RetryDelay * Pow2(attempt)]) + rest;
            sleeps := sleeps + [RetryDelay * Pow2(attempt)];
          }
      }
      attempt := attempt + 1;
    }
    outcome := lastError;
  }

  /** A client error on the first attempt is reported at once, with no retry and no sleep. */
  lemma ClientErrorStopsAtOnce<D>(fetch: nat -> Outcome<D>)
    requires fetch(0).Failed? && ClientError(fetch(0).status)
    ensures RetryFrom(fetch, 0) == Retried(fetch(0), [], 1)
  {
  }

  /** When every attempt fails with a server or network error: three fetches, sleeps of 1 and 2 seconds, the last error. */
  lemma AllAttemptsFail<D>(fetch: nat -> Outcome<D>)
    requires forall j :: 0 <= j < RetryAttempts ==> fetch(j).Failed? && !ClientError(fetch(j).status)
    ensures RetryFrom(fetch, 0) == Retried(fetch(2), [1000, 2000], 3)
  {
    var r := RetryFrom(fetch, 0);
    assert fetch(0).Failed? && !ClientError(fetch(0).status);
    assert fetch(1).Failed? && !ClientError(fetch(1).status);
    assert RetryFrom(fetch, 1).sleeps == [2000];
  }

  // ---------------------------------------------------------------------
  // APIManager

  /** `APIManager`'s cache. `baseURL` is the empty string, so the URL is the endpoint. */
  class ApiManager<D> {
    var cache: map<string, CacheEntry<D>>

    constructor ()
      ensures cache == map[]
    {
      cache := map[];
    }

    /** `setCache(key, data)` at time `now`. */
    method SetCache(key: string, data: D, now: int)
      modifies this
      ensures cache == old(cache)[key := CacheEntry(data, now)]
    {
      cache := cache[key := CacheEntry(data, now)];
    }

    /** `getFromCache(key)` at time `now`. */
    method GetFromCache(key: string, now: int) returns (r: Option<D>)
      modifies this
      ensures r == Lookup(old(cache), key, now)
      ensures cache == AfterLookup(old(cache), key, now)
    {
      if key !in cache {
        return None;
      }
      var cached := cache[key];
      var isExpired := now - cached.timestamp > CacheTimeout;
      if isExpired {
        cache := cache - {key};
        return None;
      }
      r := Some(cached.data);
    }

    method ClearCache()
      modifies this
      ensures cache == map[]
    {
      cache := map[];
    }

    /**
     * `request(endpoint, options)`: `now` is the clock at the cache check,
     * `savedAt` the clock when a response is stored, `fetch(j)` the outcome
     * of attempt `j`, and `truthy` JavaScript truthiness of a body. A cached
     * truthy body of a GET is returned at once; otherwise the retry loop
     * runs and a successful GET is stored.
     */
    method Request(endpoint: string, options: RequestOptions, now: int, savedAt: int, fetch: nat -> Outcome<D>, truthy: D -> bool)
      returns (r: Outcome<D>, sleeps: seq<int>)
      modifies this
      ensures var key := CacheKey(options, endpoint);
        var hit := IsGet(options) && Lookup(old(cache), key, now).Some? && truthy(Lookup(old(cache), key, now).value);
        var looked := if IsGet(options) then AfterLookup(old(cache), key, now) else old(cache);
        if hit then r == Fetched(Lookup(old(cache), key, now).value) && sleeps == [] && cache == looked
        else
          r == RetryFrom(fetch, 0).outcome && sleeps == RetryFrom(fetch, 0).sleeps
          && cache == if IsGet(options) && r.Fetched? then looked[key := CacheEntry(r.data, savedAt)] else looked
    {
      var url := endpoint;
      var cacheKey := CacheKey(options, url);
      if IsGet(options) {
        var cached := GetFromCache(cacheKey, now);
        if cached.Some? && truthy(cached.value) {
          return Fetched(cached.value), [];
        }
      }
      r, sleeps := RetryLoop(fetch);
      if r.Fetched? && IsGet(options) {
        SetCache(cacheKey, r.data, savedAt);
      }
    }
  }

  // ---------------------------------------------------------------------
  // SmartAPI and FallbackAPI

  /** `error.status === 0 || error.status >= 500`. */
  predicate ServerError(status: Option<int>)
  {
    status == Some(0) || (status.Some? && status.value >= 500)
  }

  predicate Switches<D>(served: Outcome<D>)
  {
    served.Failed? && ServerError(served.status)
  }

  /** The status of the error thrown for a method the fallback lacks. */
  const OfflineStatus := 503

  /**
   * `SmartAPI.request(method, ...)`: `served` is what the server API gives and
   * `fallback` what the fallback gives, `None` when it has no such method.
   */
  function SmartResult<D>(online: bool, served: Outcome<D>, fallback: Option<Outcome<D>>): Outcome<D>
  {
    if online then
      if Switches(served) && fallback.Some? then fallback.value else served
    else if fallback.Some? then fallback.value
    else Failed(Some(OfflineStatus))
  }

  /** Where the answer comes from in each case. */
  lemma SmartResultSource<D>(online: bool, served: Outcome<D>, fallback: Option<Outcome<D>>)
    ensures online && !Switches(served) ==> SmartResult(online, served, fallback) == served
    ensures (!online || Switches(served)) && fallback.Some? ==> SmartResult(online, served, fallback) == fallback.value
    ensures online && Switches(served) && fallback.None? ==> SmartResult(online, served, fallback) == served
    ensures !online && fallback.None? ==> SmartResult(online, served, fallback) == Failed(Some(OfflineStatus))
  {
  }

  /** Whether the client is still online after calls whose server answers are `reals`. */
  function OnlineAfter<D>(online: bool, reals: seq<Outcome<D>>): bool
  {
    if |reals| == 0 then online
    else OnlineAfter(online, reals[..|reals| - 1]) && !Switches(reals[|reals| - 1])
  }

  /** Once offline, calls never bring the client back; online, it stays so until the first server error. */
  lemma {:induction false} OnlineAfterCalls<D>(online: bool, reals: seq<Outcome<D>>)
    ensures !online ==> !OnlineAfter(online, reals)
    ensures OnlineAfter(online, reals) <==> online && forall i :: 0 <= i < |reals| ==> !Switches(reals[i])
    decreases |reals|
  {
    if |reals| > 0 {
      var init := reals[..|reals| - 1];
      OnlineAfterCalls(online, init);
      assert forall i :: 0 <= i < |init| ==> init[i] == reals[i];
    }
  }

  /** `SmartAPI`'s one field. */
  class SmartApi {
    var useRealApi: bool

    constructor ()
      ensures useRealApi
    {
      useRealApi := true;
    }

    method Request<D>(served: Outcome<D>, fallback: Option<Outcome<D>>) returns (r: Outcome<D>)
      modifies this
      ensures r == SmartResult(old(useRealApi), served, fallback)
      ensures useRealApi == OnlineAfter(old(useRealApi), [served])
    {
      assert [served][..0] == [];
      if useRealApi {
        match served {
          case Fetched(_) =>
            return served;
          case Failed(status) =>
            if ServerError(status) {
              useRealApi := false;
              if fallback.Some? {
                return fallback.value;
              }
            }
            return served;
        }
      } else {
        if fallback.Some? {
          return fallback.value;
        }
        r := Failed(Some(OfflineStatus));
      }
    }

    /** `reconnect()`: online again exactly when the health check succeeds. */
    method Reconnect(healthy: bool) returns (ok: bool)
      modifies this
      ensures ok == healthy
      ensures useRealApi == (healthy || old(useRealApi))
    {
      if healthy {
        useRealApi := true;
        return true;
      }
      return false;
    }
  }

  /** The end index `Array.prototype.slice(0, end)` uses. */
  function SliceEnd(len: nat, end: int): (e: nat)
    ensures e <= len
    ensures end >= 0 ==> e == if end < len then end else len
    ensures end < 0 ==> e == if len + end < 0 then 0 else len + end
  {
    if end < 0 then (if len + end < 0 then 0 else len + end)
    else if end < len then end else len
  }

  /** `FallbackAPI.getRecentGames(limit = 10)`. */
  function FallbackRecentGames<G>(games: seq<G>, limit: Option<int>): (r: seq<G>)
  {
    games[..SliceEnd(|games|, if limit.Some? then limit.value else 10)]
  }

  /**
   * The first `limit` games (ten by default, all when fewer); a negative
   * limit drops that many games from the end.
   */
  lemma FallbackRecentGamesPrefix<G>(games: seq<G>, limit: Option<int>)
    ensures FallbackRecentGames(games, limit) <= games
    ensures limit.None? ==> |FallbackRecentGames(games, limit)| == if |games| < 10 then |games| else 10
    ensures limit.Some? && limit.value >= 0 ==> |FallbackRecentGames(games, limit)| == if |games| < limit.value then |games| else limit.value
    ensures limit.Some? && limit.value < 0 ==> |FallbackRecentGames(games, limit)| == if |games| + limit.value < 0 then 0 else |games| + limit.value
  {
  }
}
