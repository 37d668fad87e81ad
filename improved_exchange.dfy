/**
 * `improved_exchange_check.py`: a checker with a five-minute cache, a primary endpoint and a
 * fallback endpoint that is asked only when the primary yields nothing.
 *
 * The network is the oracle `net`: the n-th request gets `net(n)`. The clock is passed to each
 * call as `now`, and requests take no time.
 */
module ImprovedExchange {
  import opened Optional
  import opened Http

  const BaseUrl: string := "https://api.exchangerate-api.com/v4/latest"
  const FallbackUrl: string := "https://open.er-api.com/v6/latest"
  /** `cache_duration`, five minutes in seconds. */
  const CacheDuration: real := 300.0

  /** One cache entry: `{'rate': rate, 'timestamp': datetime.now()}`. */
  datatype Entry = Entry(rate: real, timestamp: real)

  /** `f"{from_currency}_{to_currency}"`. */
  function CacheKey(from: string, to: string): string {
    from + "_" + to
  }

  /** The primary request: `f"{base_url}/{from_currency}"` with a 10 s timeout. */
  function PrimaryRequest(from: string): Request {
    Request(BaseUrl + "/" + from, 10)
  }

  /** The fallback request: `f"{fallback_url}/{from_currency}"` with a 15 s timeout. */
  function FallbackRequest(from: string): Request {
    Request(FallbackUrl + "/" + from, 15)
  }

  /** The entry under `key` is returned without a request while it is younger than the cache duration. */
  function CachedRate(cache: map<string, Entry>, key: string, now: real): (r: Option<real>)
    ensures r.Some? <==> key in cache && now - cache[key].timestamp < CacheDuration
    ensures r.Some? ==> r.value == cache[key].rate
  {
    if key in cache && now - cache[key].timestamp < CacheDuration then Some(cache[key].rate) else None
  }

  /** A rate just cached is served from the cache for the next five minutes, and not after. */
  lemma CacheServesFreshEntry(cache: map<string, Entry>, key: string, rate: real, written: real, now: real)
    requires written <= now
    ensures CachedRate(cache[key := Entry(rate, written)], key, now) == (if now < written + CacheDuration then Some(rate) else None)
  {
  }

  /** `ExchangeRateChecker`: its cache and what it has asked of the network. */
  class ExchangeRateChecker {
    const net: nat -> Response
    var cache: map<string, Entry>
    var requests: seq<Request>

    constructor(net: nat -> Response)
      ensures this.net == net && cache == map[] && requests == []
    {
      this.net := net;
      cache := map[];
      requests := [];
    }

    /** `_try_primary_api`. */
    method TryPrimaryApi(from: string, to: string) returns (rate: Option<real>)
      modifies this`requests
      ensures requests == old(requests) + [PrimaryRequest(from)]
      ensures rate == ParseRates(net(|old(requests)|), to)
    {
      var response := net(|requests|);
      requests := requests + [PrimaryRequest(from)];
      rate := ParseRates(response, to);
    }

    /** `_try_fallback_api`. */
    method TryFallbackApi(from: string, to: string) returns (rate: Option<real>)
      modifies this`requests
      ensures requests == old(requests) + [FallbackRequest(from)]
      ensures rate == ParseRates(net(|old(requests)|), to)
    {
      var response := net(|requests|);
      requests := requests + [FallbackRequest(from)];
      rate := ParseRates(response, to);
    }

    /**
     * `get_exchange_rate`: a fresh cached rate with no request; otherwise the primary endpoint,
     * then the fallback only if the primary yielded nothing; a rate found is cached at `now`.
     */
    method GetExchangeRate(from: string, to: string, now: real) returns (rate: Option<real>)
      modifies this`cache, this`requests
      ensures var key := CacheKey(from, to);
        if CachedRate(old(cache), key, now).Some? then
          rate == CachedRate(old(cache), key, now) && cache == old(cache) && requests == old(requests)
        else
          var primary := ParseRates(net(|old(requests)|), to);
          && (primary.Some? ==> rate == primary && requests == old(requests) + [PrimaryRequest(from)])
          && (primary.None? ==>
                rate == ParseRates(net(|old(requests)| + 1), to)
                && requests == old(requests) + [PrimaryRequest(from), FallbackRequest(from)])
          && cache == (if rate.Some? then old(cache)[key := Entry(rate.value, now)] else old(cache))
    {
      var key := CacheKey(from, to);
      var cached := CachedRate(cache, key, now);
      if cached.Some? {
        return cached;
      }
      ghost var r0 := requests;
      rate := TryPrimaryApi(from, to);
      if rate.None? {
        rate := TryFallbackApi(from, to);
        assert requests == r0 + [PrimaryRequest(from), FallbackRequest(from)];
      }
      if rate.Some? {
        cache := cache[key := Entry(rate.value, now)];
      }
    }

    /** `convert_amount`: no lookup for a non-positive amount; otherwise the amount times the rate. */
    method ConvertAmount(amount: real, from: string, to: string, now: real) returns (result: Option<real>)
      modifies this`cache, this`requests
      ensures amount <= 0.0 ==> result.None? && cache == old(cache) && requests == old(requests)
      ensures amount > 0.0 ==>
        var key := CacheKey(from, to);
        var primary := ParseRates(net(|old(requests)|), to);
        result == Converted(amount,
          if CachedRate(old(cache), key, now).Some? then CachedRate(old(cache), key, now)
          else if primary.Some? then primary
          else ParseRates(net(|old(requests)| + 1), to))
      ensures amount > 0.0 ==>
        var key := CacheKey(from, to);
        var primary := ParseRates(net(|old(requests)|), to);
        if CachedRate(old(cache), key, now).Some? then
          cache == old(cache) && requests == old(requests)
        else
          && requests == old(requests) + (if primary.Some? then [PrimaryRequest(from)] else [PrimaryRequest(from), FallbackRequest(from)])
          && var rate := if primary.Some? then primary else ParseRates(net(|old(requests)| + 1), to);
          cache == (if rate.Some? then old(cache)[key := Entry(rate.value, now)] else old(cache))
    {
      if amount <= 0.0 {
        return None;
      }
      var rate := GetExchangeRate(from, to, now);
      result := Converted(amount, rate);
    }
  }
}
