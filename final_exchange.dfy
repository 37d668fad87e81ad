/**
 * `final_exchange_check.py`: an exchange-rate service with a five-minute cache, four providers
 * tried in a fixed order, up to three attempts per provider with exponential back-off, and a
 * manager that counts successes and failures.
 *
 * The network is the oracle `net`: the n-th request the service makes gets `net(n)`. The clock is
 * the field `now`; sleeping advances it, and requests take no time.
 */
module FinalExchange {
  import opened Optional
  import opened Http

  datatype Provider = ExchangeRateApi | OpenErApi | FixerIo | CurrencyLayer

  /** The order `get_exchange_rate` tries the providers in. */
  const Providers: seq<Provider> := [ExchangeRateApi, OpenErApi, FixerIo, CurrencyLayer]

  /** `cache_duration`, in seconds. */
  const CacheDuration: real := 300.0
  const MaxRetries: nat := 3
  /** `retry_delay`, in seconds. */
  const RetryDelay: real := 1.0

  datatype ExchangeRate = ExchangeRate(
    fromCurrency: string, toCurrency: string, rate: real, timestamp: real, provider: Provider, sourceUrl: string)

  /** The `timeout` of each endpoint, in seconds. */
  function TimeoutOf(p: Provider): nat {
    match p
    case OpenErApi => 15
    case _ => 10
  }

  /** The endpoints and the parameters of the URLs `_fetch_from_provider` builds. */
  const ExchangeRateApiBase: string := "https://api.exchangerate-api.com/v4/latest/"
  const OpenErApiBase: string := "https://open.er-api.com/v6/latest/"
  const FixerIoBase: string := "http://data.fixer.io/api/latest?access_key="
  const CurrencyLayerBase: string := "http://api.currencylayer.com/live?access_key="
  const BaseParam: string := "&base="
  const CurrenciesParam: string := "&currencies="

  /** The entries of `api_keys`, and the fields of a body, that the service reads. */
  const FixerKey: string := "fixer_io"
  const CurrencyLayerKey: string := "currency_layer"
  const RatesField: string := "rates"
  const QuotesField: string := "quotes"
  const SuccessField: string := "success"

  /** The entry of `api_keys` a provider needs, for the two that need one. */
  function KeyName(p: Provider): Option<string> {
    match p
    case FixerIo => Some(FixerKey)
    case CurrencyLayer => Some(CurrencyLayerKey)
    case _ => None
  }

  /** `not api_key` for `api_keys.get(name)`: the key is missing or empty. */
  predicate NoKey(keys: map<string, string>, name: string) {
    name !in keys || keys[name] == ""
  }

  /**
   * The URL `_fetch_from_provider` requests, or None when a provider that needs a key has none,
   * in which case no request is made.
   */
  function ProviderUrl(p: Provider, keys: map<string, string>, from: string, to: string): Option<string>
  {
    match p
    case ExchangeRateApi => Some(ExchangeRateApiBase + from)
    case OpenErApi => Some(OpenErApiBase + from)
    case FixerIo =>
      if NoKey(keys, FixerKey) then None
      else Some(FixerIoBase + keys[FixerKey] + BaseParam + from)
    case CurrencyLayer =>
      if NoKey(keys, CurrencyLayerKey) then None
      else Some(CurrencyLayerBase + keys[CurrencyLayerKey] + CurrenciesParam + to)
  }

  /** Exactly the two providers that need a key are skipped without one, and the key goes into the URL. */
  lemma ProviderUrlKeys(p: Provider, keys: map<string, string>, from: string, to: string)
    ensures var r := ProviderUrl(p, keys, from, to);
      && (r.None? <==> KeyName(p).Some? && NoKey(keys, KeyName(p).value))
      && (r.Some? && p == FixerIo
          ==> r.value == FixerIoBase + keys[FixerKey] + BaseParam + from)
      && (r.Some? && p == CurrencyLayer
          ==> r.value == CurrencyLayerBase + keys[CurrencyLayerKey] + CurrenciesParam + to)
  {
  }

  /**
   * `_parse_provider_response`: the rate a provider's decoded body gives. The two free providers
   * read `rates[TO]`; Fixer reads it only when `success` is truthy; Currency Layer reads
   * `quotes[FROM + TO]` only when `success` is truthy.
   */
  function ParseProviderResponse(p: Provider, data: Json, from: string, to: string): Option<real>
  {
    match p
    case ExchangeRateApi => NumberAt(data, RatesField, to)
    case OpenErApi => NumberAt(data, RatesField, to)
    case FixerIo =>
      if data.Obj? && TruthyField(data, SuccessField) then NumberAt(data, RatesField, to) else None
    case CurrencyLayer =>
      if data.Obj? && TruthyField(data, SuccessField) then NumberAt(data, QuotesField, from + to) else None
  }

  /** Where each provider's body holds its rate, and the `success` flag the keyed providers check first. */
  lemma ParseProviderResponseCases(p: Provider, data: Json, from: string, to: string)
    ensures var r := ParseProviderResponse(p, data, from, to);
      && ((p == ExchangeRateApi || p == OpenErApi) ==> r == NumberAt(data, RatesField, to))
      && (p == FixerIo ==> (r.Some? <==> data.Obj? && TruthyField(data, SuccessField) && NumberAt(data, RatesField, to).Some?))
      && (p == CurrencyLayer
          ==> (r.Some? <==> data.Obj? && TruthyField(data, SuccessField) && NumberAt(data, QuotesField, from + to).Some?))
      && (p == FixerIo && r.Some? ==> r == NumberAt(data, RatesField, to))
      && (p == CurrencyLayer && r.Some? ==> r == NumberAt(data, QuotesField, from + to))
  {
  }

  /** A provider that reports failure never yields a rate, whatever else its body holds. */
  lemma UnsuccessfulBodyGivesNoRate(p: Provider, fields: map<string, Json>, from: string, to: string)
    requires p == FixerIo || p == CurrencyLayer
    requires !TruthyField(Obj(fields), SuccessField)
    ensures ParseProviderResponse(p, Obj(fields), from, to).None?
  {
  }

  /** The rate one request yields: the parsed body as an `ExchangeRate` stamped `now`, or nothing. */
  function FetchResult(p: Provider, from: string, to: string, url: string, response: Response, now: real): Option<ExchangeRate>
  {
    match response
    case Body(data) =>
      (match ParseProviderResponse(p, data, from, to)
       case Some(rate) => Some(ExchangeRate(from, to, rate, now, p, url))
       case None => None)
    case _ => None
  }

  /**
   * A request yields a rate exactly when its body parses, and the rate records the pair, the
   * provider, the URL and the time of the request; every exception yields none.
   */
  lemma FetchResultCases(p: Provider, from: string, to: string, url: string, response: Response, now: real)
    ensures var r := FetchResult(p, from, to, url, response, now);
      && (r.Some? <==> response.Body? && ParseProviderResponse(p, response.data, from, to).Some?)
      && (r.Some? ==> r.value == ExchangeRate(from, to, ParseProviderResponse(p, response.data, from, to).value, now, p, url))
  {
  }

  /** `retry_delay * 2 ** attempt`. */
  function Backoff(attempt: nat): real {
    if attempt == 0 then RetryDelay else 2.0 * Backoff(attempt - 1)
  }

  function Sum(s: seq<real>): real {
    if s == [] then 0.0 else Sum(s[..|s| - 1]) + s[|s| - 1]
  }

  lemma SumAppend(s: seq<real>, x: real)
    ensures Sum(s + [x]) == Sum(s) + x
  {
    assert (s + [x])[..|s|] == s;
  }

  lemma Associative<T>(a: seq<T>, b: seq<T>, c: seq<T>)
    ensures a + (b + c) == (a + b) + c
  {
  }

  lemma RightUnit<T>(a: seq<T>)
    ensures a + [] == a
  {
  }

  /** What a run of the service does: the rate found, the requests made and the sleeps taken. */
  datatype Trace = Trace(rate: Option<ExchangeRate>, requests: seq<Request>, sleeps: seq<real>, clock: real)

  /** The requests one attempt makes: none for a provider without its key. */
  function Sent(request: Option<Request>): seq<Request> {
    if request.Some? then [request.value] else []
  }

  /** The rate one attempt yields. */
  function Attempt(request: Option<Request>, fetch: (nat, real) -> Option<ExchangeRate>, next: nat, now: real): Option<ExchangeRate> {
    if request.Some? then fetch(next, now) else None
  }

  /** The back-off sleep after spent attempt `attempt`: none after the last one. */
  function Pause(attempt: nat): seq<real> {
    if attempt < MaxRetries - 1 then [Backoff(attempt)] else []
  }

  function Delay(attempt: nat): real {
    if attempt < MaxRetries - 1 then Backoff(attempt) else 0.0
  }

  /**
   * The retry loop of `_try_provider` from attempt `attempt` on: `request` is what each attempt
   * asks of the network (nothing, for a provider without its key), and `fetch(n, now)` is the
   * rate an attempt yields when its request is the n-th and the clock reads `now`. Each attempt
   * either yields a rate or is spent, and every spent attempt but the last is followed by a
   * back-off sleep.
   */
  function Retry(request: Option<Request>, fetch: (nat, real) -> Option<ExchangeRate>,
                 next: nat, now: real, attempt: nat): Trace
    decreases MaxRetries - attempt
  {
    if attempt >= MaxRetries then Trace(None, [], [], now)
    else
      var reqs := Sent(request);
      var result := Attempt(request, fetch, next, now);
      if result.Some? then Trace(result, reqs, [], now)
      else
        var rest := Retry(request, fetch, next + |reqs|, now + Delay(attempt), attempt + 1);
        Trace(rest.rate, reqs + rest.requests, Pause(attempt) + rest.sleeps, rest.clock)
  }

  /** The request an attempt on provider `p` makes, when it makes one. */
  function RequestFor(p: Provider, keys: map<string, string>, from: string, to: string): Option<Request>
  {
    match ProviderUrl(p, keys, from, to)
    case None => None
    case Some(url) => Some(Request(url, TimeoutOf(p)))
  }

  /** The rate an attempt on provider `p` yields, as `Retry` needs it. */
  function FetchFor(p: Provider, keys: map<string, string>, from: string, to: string, net: nat -> Response): (nat, real) -> Option<ExchangeRate> {
    (n: nat, now: real) =>
      match ProviderUrl(p, keys, from, to)
      case None => None
      case Some(url) => FetchResult(p, from, to, url, net(n), now)
  }

  /** The clock at the end of a retry run has moved on by exactly the sleeps taken. */
  lemma {:induction false} RetryClock(request: Option<Request>, fetch: (nat, real) -> Option<ExchangeRate>,
                                      next: nat, now: real, attempt: nat)
    ensures var t := Retry(request, fetch, next, now, attempt); t.clock == now + Sum(t.sleeps)
    decreases MaxRetries - attempt
  {
    if attempt >= MaxRetries {
      assert Retry(request, fetch, next, now, attempt) == Trace(None, [], [], now);
    } else if Attempt(request, fetch, next, now).Some? {
      assert Retry(request, fetch, next, now, attempt).sleeps == [];
      assert Retry(request, fetch, next, now, attempt).clock == now;
    } else {
      var next', now' := next + |Sent(request)|, now + Delay(attempt);
      var rest := Retry(request, fetch, next', now', attempt + 1);
      var t := Retry(request, fetch, next, now, attempt);
      RetryClock(request, fetch, next', now', attempt + 1);
      RetryStepSleeps(request, fetch, next, now, attempt, next', now');
      RetryStepClock(request, fetch, next, now, attempt, next', now');
      PauseSum(attempt);
      ClockAdds(t.sleeps, t.clock, rest.sleeps, rest.clock, Pause(attempt), Delay(attempt), now);
    }
  }

  /** A trace that sleeps `pause` (lasting `d`) and then runs `rest` ends `d` later than `rest` would alone. */
  lemma ClockAdds(sleeps: seq<real>, clock: real, rest: seq<real>, restClock: real, pause: seq<real>, d: real, now: real)
    requires sleeps == pause + rest && clock == restClock
    requires restClock == now + d + Sum(rest) && Sum(pause) == d
    ensures clock == now + Sum(sleeps)
  {
    SumConcat(pause, rest);
  }

  /** A spent attempt sleeps its pause and then the sleeps of the rest of the retry loop. */
  lemma RetryStepSleeps(request: Option<Request>, fetch: (nat, real) -> Option<ExchangeRate>,
                        next: nat, now: real, attempt: nat, next': nat, now': real)
    requires attempt < MaxRetries && Attempt(request, fetch, next, now).None?
    requires next' == next + |Sent(request)| && now' == now + Delay(attempt)
    ensures Retry(request, fetch, next, now, attempt).sleeps == Pause(attempt) + Retry(request, fetch, next', now', attempt + 1).sleeps
  {
  }

  /** A spent attempt ends where the rest of the retry loop ends. */
  lemma RetryStepClock(request: Option<Request>, fetch: (nat, real) -> Option<ExchangeRate>,
                       next: nat, now: real, attempt: nat, next': nat, now': real)
    requires attempt < MaxRetries && Attempt(request, fetch, next, now).None?
    requires next' == next + |Sent(request)| && now' == now + Delay(attempt)
    ensures Retry(request, fetch, next, now, attempt).clock == Retry(request, fetch, next', now', attempt + 1).clock
  {
  }

  /** A back-off sleep lasts as long as the clock moves on for it. */
  lemma PauseSum(attempt: nat)
    ensures Sum(Pause(attempt)) == Delay(attempt)
  {
    if attempt < MaxRetries - 1 {
      assert Pause(attempt) == [] + [Backoff(attempt)];
      SumAppend([], Backoff(attempt));
    }
  }

  /**
   * `whole` is what is already done (`done` requests, `slept` sleeps) followed by `rest`: the
   * invariant of every loop that replays a trace step by step.
   */
  predicate Continues(whole: Trace, done: seq<Request>, slept: seq<real>, rest: Trace) {
    && whole.rate == rest.rate
    && whole.requests == done + rest.requests
    && whole.sleeps == slept + rest.sleeps
    && whole.clock == rest.clock
  }

  /** A spent attempt moves its request and its sleep from the rest of the trace to what is done. */
  lemma RetryAdvance(whole: Trace, done: seq<Request>, slept: seq<real>, request: Option<Request>,
                     fetch: (nat, real) -> Option<ExchangeRate>, next: nat, now: real, attempt: nat,
                     next': nat, now': real)
    requires attempt < MaxRetries
    requires Continues(whole, done, slept, Retry(request, fetch, next, now, attempt))
    requires Attempt(request, fetch, next, now).None?
    requires next' == next + |Sent(request)| && now' == now + Delay(attempt)
    ensures Continues(whole, done + Sent(request), slept + Pause(attempt), Retry(request, fetch, next', now', attempt + 1))
  {
    var rest := Retry(request, fetch, next', now', attempt + 1);
    assert done + (Sent(request) + rest.requests) == (done + Sent(request)) + rest.requests;
    assert slept + (Pause(attempt) + rest.sleeps) == (slept + Pause(attempt)) + rest.sleeps;
  }

  /** An attempt that yields a rate ends the trace with its one request. */
  lemma RetryFinish(whole: Trace, done: seq<Request>, slept: seq<real>, request: Option<Request>,
                    fetch: (nat, real) -> Option<ExchangeRate>, next: nat, now: real, attempt: nat)
    requires attempt < MaxRetries
    requires Continues(whole, done, slept, Retry(request, fetch, next, now, attempt))
    requires Attempt(request, fetch, next, now).Some?
    ensures whole.rate == Attempt(request, fetch, next, now)
    ensures whole.requests == done + Sent(request) && whole.sleeps == slept && whole.clock == now
  {
    assert slept + [] == slept;
  }

  /**
   * One pass of the retry loop, on the values the service holds before and after it: a rate ends
   * the trace, and a spent attempt leaves the rest of it to the next pass.
   */
  lemma RetryPass(whole: Trace, r0: seq<Request>, s0: seq<real>, done: seq<Request>, slept: seq<real>,
                  request: Option<Request>, fetch: (nat, real) -> Option<ExchangeRate>, attempt: nat,
                  reqs: seq<Request>, sleeps: seq<real>, now: real, rate: Option<ExchangeRate>,
                  reqs': seq<Request>, sleeps': seq<real>, now': real)
    requires attempt < MaxRetries
    requires reqs == r0 + done && sleeps == s0 + slept
    requires Continues(whole, done, slept, Retry(request, fetch, |reqs|, now, attempt))
    requires rate == Attempt(request, fetch, |reqs|, now) && reqs' == reqs + Sent(request)
    requires rate.Some? ==> sleeps' == sleeps && now' == now
    requires rate.None? ==> sleeps' == sleeps + Pause(attempt) && now' == now + Delay(attempt)
    ensures rate.Some? ==>
      rate == whole.rate && reqs' == r0 + whole.requests && sleeps' == s0 + whole.sleeps && now' == whole.clock
    ensures rate.None? ==>
      && reqs' == r0 + (done + Sent(request)) && sleeps' == s0 + (slept + Pause(attempt))
      && Continues(whole, done + Sent(request), slept + Pause(attempt), Retry(request, fetch, |reqs'|, now', attempt + 1))
  {
    Associative(r0, done, Sent(request));
    Associative(s0, slept, Pause(attempt));
    if rate.Some? {
      RetryFinish(whole, done, slept, request, fetch, |reqs|, now, attempt);
    } else {
      RetryAdvance(whole, done, slept, request, fetch, |reqs|, now, attempt, |reqs'|, now');
    }
  }

  /** Nothing is left of a trace once every attempt is spent. */
  lemma RetryExhausted(whole: Trace, done: seq<Request>, slept: seq<real>, request: Option<Request>,
                       fetch: (nat, real) -> Option<ExchangeRate>, next: nat, now: real)
    requires Continues(whole, done, slept, Retry(request, fetch, next, now, MaxRetries))
    ensures whole == Trace(None, done, slept, now)
  {
    assert done + [] == done && slept + [] == slept;
  }

  /** `_try_provider(p, from, to)`, starting at attempt 0. */
  function TryTrace(p: Provider, keys: map<string, string>, from: string, to: string, net: nat -> Response,
                    next: nat, now: real): Trace
  {
    Retry(RequestFor(p, keys, from, to), FetchFor(p, keys, from, to, net), next, now, 0)
  }

  /** At most one request per remaining attempt, each of them `request`, and the rate is one `fetch` gave. */
  lemma {:induction false} RetryBounds(request: Option<Request>, fetch: (nat, real) -> Option<ExchangeRate>,
                                       next: nat, now: real, attempt: nat)
    requires attempt <= MaxRetries
    ensures var t := Retry(request, fetch, next, now, attempt);
      && |t.requests| <= MaxRetries - attempt
      && (forall i :: 0 <= i < |t.requests| ==> Some(t.requests[i]) == request)
      && (t.rate.Some? ==> exists n: nat, time: real :: t.rate == fetch(n, time))
    decreases MaxRetries - attempt
  {
    if attempt < MaxRetries {
      var t := Retry(request, fetch, next, now, attempt);
      if Attempt(request, fetch, next, now).Some? {
        RetryYields(request, fetch, next, now, attempt);
        assert t.rate == fetch(next, now);
      } else {
        var next', now' := next + |Sent(request)|, now + Delay(attempt);
        var rest := Retry(request, fetch, next', now', attempt + 1);
        RetryBounds(request, fetch, next', now', attempt + 1);
        RetryStepRequests(request, fetch, next, now, attempt, next', now');
        RetryStepRate(request, fetch, next, now, attempt, next', now');
        SentThen(request, rest.requests);
        if rest.rate.Some? {
          var n: nat, time: real :| rest.rate == fetch(n, time);
          assert t.rate == fetch(n, time);
        }
      }
    }
  }

  /** An attempt that yields a rate ends the retry loop with its one request and no sleep. */
  lemma RetryYields(request: Option<Request>, fetch: (nat, real) -> Option<ExchangeRate>,
                    next: nat, now: real, attempt: nat)
    requires attempt < MaxRetries && Attempt(request, fetch, next, now).Some?
    ensures Retry(request, fetch, next, now, attempt) == Trace(Attempt(request, fetch, next, now), Sent(request), [], now)
  {
  }

  /** A spent attempt makes its request and then the requests of the rest of the retry loop. */
  lemma RetryStepRequests(request: Option<Request>, fetch: (nat, real) -> Option<ExchangeRate>,
                          next: nat, now: real, attempt: nat, next': nat, now': real)
    requires attempt < MaxRetries && Attempt(request, fetch, next, now).None?
    requires next' == next + |Sent(request)| && now' == now + Delay(attempt)
    ensures Retry(request, fetch, next, now, attempt).requests == Sent(request) + Retry(request, fetch, next', now', attempt + 1).requests
  {
    var rest := Retry(request, fetch, next', now', attempt + 1);
    assert Retry(request, fetch, next + |Sent(request)|, now + Delay(attempt), attempt + 1) == rest;
  }

  /** A spent attempt leaves the rate to the rest of the retry loop. */
  lemma RetryStepRate(request: Option<Request>, fetch: (nat, real) -> Option<ExchangeRate>,
                      next: nat, now: real, attempt: nat, next': nat, now': real)
    requires attempt < MaxRetries && Attempt(request, fetch, next, now).None?
    requires next' == next + |Sent(request)| && now' == now + Delay(attempt)
    ensures Retry(request, fetch, next, now, attempt).rate == Retry(request, fetch, next', now', attempt + 1).rate
  {
  }

  /** The requests after an attempt's own are all `request` when those of the rest are. */
  lemma SentThen(request: Option<Request>, rest: seq<Request>)
    requires forall i :: 0 <= i < |rest| ==> Some(rest[i]) == request
    ensures var all := Sent(request) + rest; |all| <= |rest| + 1 && forall i :: 0 <= i < |all| ==> Some(all[i]) == request
  {
    var all := Sent(request) + rest;
    forall i | 0 <= i < |all| ensures Some(all[i]) == request {
      if i >= |Sent(request)| {
        assert all[i] == rest[i - |Sent(request)|];
      }
    }
  }

  /** A rate `_try_provider` returns is one of provider `p`, for the currencies asked. */
  lemma TryTraceRate(p: Provider, keys: map<string, string>, from: string, to: string, net: nat -> Response,
                     next: nat, now: real)
    ensures var t := TryTrace(p, keys, from, to, net, next, now);
      && |t.requests| <= MaxRetries
      && (forall i :: 0 <= i < |t.requests| ==> Some(t.requests[i].url) == ProviderUrl(p, keys, from, to))
      && (t.rate.Some? ==> t.rate.value.provider == p && t.rate.value.fromCurrency == from && t.rate.value.toCurrency == to)
  {
    var fetch := FetchFor(p, keys, from, to, net);
    RetryBounds(RequestFor(p, keys, from, to), fetch, next, now, 0);
    var t := TryTrace(p, keys, from, to, net, next, now);
    if t.rate.Some? {
      var n: nat, time: real :| t.rate == fetch(n, time);
      var url := ProviderUrl(p, keys, from, to);
      if url.Some? {
        FetchResultCases(p, from, to, url.value, net(n), time);
      }
    }
  }

  /** When every attempt fails the provider is given up after sleeping 1 s, then 2 s. */
  lemma RetryAllFail(request: Option<Request>, fetch: (nat, real) -> Option<ExchangeRate>, next: nat, now: real)
    requires Retry(request, fetch, next, now, 0).rate.None?
    ensures Retry(request, fetch, next, now, 0).sleeps == [1.0, 2.0]
    ensures Retry(request, fetch, next, now, 0).clock == now + 3.0
  {
    var n := if request.Some? then 1 else 0;
    assert Retry(request, fetch, next + 2 * n, now + 3.0, 2).sleeps == [];
    assert Retry(request, fetch, next + n, now + 1.0, 1).sleeps == [2.0];
  }

  /** A provider without its key makes no request, yet all three attempts are spent, with their sleeps. */
  lemma RetryWithoutKey(p: Provider, keys: map<string, string>, from: string, to: string,
                        net: nat -> Response, next: nat, now: real)
    requires ProviderUrl(p, keys, from, to).None?
    ensures TryTrace(p, keys, from, to, net, next, now) == Trace(None, [], [1.0, 2.0], now + 3.0)
  {
    var request, fetch := RequestFor(p, keys, from, to), FetchFor(p, keys, from, to, net);
    assert Retry(request, fetch, next, now + 3.0, 2) == Trace(None, [], [], now + 3.0);
    assert Retry(request, fetch, next, now + 1.0, 1) == Trace(None, [], [2.0], now + 3.0);
  }

  /** A first attempt that yields a rate is the only request and no sleep is taken. */
  lemma RetryFirstSuccess(p: Provider, keys: map<string, string>, from: string, to: string,
                          net: nat -> Response, next: nat, now: real)
    requires ProviderUrl(p, keys, from, to).Some?
    requires FetchResult(p, from, to, ProviderUrl(p, keys, from, to).value, net(next), now).Some?
    ensures var t := TryTrace(p, keys, from, to, net, next, now); |t.requests| == 1 && t.sleeps == [] && t.rate.Some?
  {
  }

  /** `_try_provider` for each provider, for one pair of currencies. */
  function TryFor(keys: map<string, string>, from: string, to: string, net: nat -> Response): (Provider, nat, real) -> Trace {
    (p: Provider, next: nat, now: real) => TryTrace(p, keys, from, to, net, next, now)
  }

  /**
   * The provider loop of `get_exchange_rate`: the providers of `ps` are tried in order with
   * `try`, and the first that yields a rate ends the loop.
   */
  function FromProviders(ps: seq<Provider>, try: (Provider, nat, real) -> Trace, next: nat, now: real): Trace
  {
    if ps == [] then Trace(None, [], [], now)
    else
      var t := try(ps[0], next, now);
      if t.rate.Some? then t
      else
        var rest := FromProviders(ps[1..], try, next + |t.requests|, t.clock);
        Trace(rest.rate, t.requests + rest.requests, t.sleeps + rest.sleeps, rest.clock)
  }

  /** What `_try_provider` promises of each trace: a rate of the provider tried, at most three requests. */
  ghost predicate TriesWell(try: (Provider, nat, real) -> Trace, from: string, to: string) {
    forall p, next, now :: var t := try(p, next, now);
      |t.requests| <= MaxRetries
      && (t.rate.Some? ==> t.rate.value.provider == p && t.rate.value.fromCurrency == from && t.rate.value.toCurrency == to)
      && (t.rate.None? ==> |t.sleeps| == MaxRetries - 1)
      && t.clock == now + Sum(t.sleeps)
  }

  lemma TryForTriesWell(keys: map<string, string>, from: string, to: string, net: nat -> Response)
    ensures TriesWell(TryFor(keys, from, to, net), from, to)
  {
    forall p, next, now ensures var t := TryFor(keys, from, to, net)(p, next, now);
      |t.requests| <= MaxRetries
      && (t.rate.Some? ==> t.rate.value.provider == p && t.rate.value.fromCurrency == from && t.rate.value.toCurrency == to)
      && (t.rate.None? ==> |t.sleeps| == MaxRetries - 1)
      && t.clock == now + Sum(t.sleeps)
    {
      TryTraceRate(p, keys, from, to, net, next, now);
      RetryClock(RequestFor(p, keys, from, to), FetchFor(p, keys, from, to, net), next, now, 0);
      var t := TryTrace(p, keys, from, to, net, next, now);
      if t.rate.None? {
        RetryAllFail(RequestFor(p, keys, from, to), FetchFor(p, keys, from, to, net), next, now);
      }
    }
  }

  /**
   * A rate comes from the first provider that yields one: the providers before it yield none,
   * and the ones after it are not tried.
   */
  lemma {:induction false} FromProvidersFirst(ps: seq<Provider>, try: (Provider, nat, real) -> Trace, from: string, to: string,
                                              next: nat, now: real)
    requires TriesWell(try, from, to)
    requires FromProviders(ps, try, next, now).rate.Some?
    ensures var r := FromProviders(ps, try, next, now).rate.value;
      exists i :: 0 <= i < |ps| && r.provider == ps[i] && r.fromCurrency == from && r.toCurrency == to
  {
    var t := try(ps[0], next, now);
    if t.rate.None? {
      FromProvidersFirst(ps[1..], try, from, to, next + |t.requests|, t.clock);
      var r := FromProviders(ps, try, next, now).rate.value;
      var i :| 0 <= i < |ps[1..]| && r.provider == ps[1..][i] && r.fromCurrency == from && r.toCurrency == to;
      assert r.provider == ps[i + 1];
    }
  }

  /** With no provider yielding a rate, each of them spends its three attempts and two sleeps. */
  lemma {:induction false} FromProvidersAllFail(ps: seq<Provider>, try: (Provider, nat, real) -> Trace, from: string, to: string,
                                                next: nat, now: real)
    requires TriesWell(try, from, to)
    requires FromProviders(ps, try, next, now).rate.None?
    ensures |FromProviders(ps, try, next, now).sleeps| == (MaxRetries - 1) * |ps|
    ensures |FromProviders(ps, try, next, now).requests| <= MaxRetries * |ps|
  {
    if ps != [] {
      var t := try(ps[0], next, now);
      FromProvidersAllFail(ps[1..], try, from, to, next + |t.requests|, t.clock);
    }
  }

  /** The provider loop's clock has moved on by exactly the sleeps taken. */
  lemma {:induction false} FromProvidersClock(ps: seq<Provider>, try: (Provider, nat, real) -> Trace, from: string, to: string,
                                              next: nat, now: real)
    requires TriesWell(try, from, to)
    ensures var t := FromProviders(ps, try, next, now); t.clock == now + Sum(t.sleeps)
  {
    if ps != [] {
      var t := try(ps[0], next, now);
      if t.rate.None? {
        var rest := FromProviders(ps[1..], try, next + |t.requests|, t.clock);
        FromProvidersClock(ps[1..], try, from, to, next + |t.requests|, t.clock);
        SumConcat(t.sleeps, rest.sleeps);
      }
    } else {
      assert Sum([]) == 0.0;
    }
  }

  /** A provider that yields no rate moves its requests and sleeps from the rest of the loop to what is done. */
  lemma ProvidersAdvance(whole: Trace, done: seq<Request>, slept: seq<real>, ps: seq<Provider>,
                         try: (Provider, nat, real) -> Trace, next: nat, now: real)
    requires ps != []
    requires Continues(whole, done, slept, FromProviders(ps, try, next, now))
    requires try(ps[0], next, now).rate.None?
    ensures var t := try(ps[0], next, now);
      Continues(whole, done + t.requests, slept + t.sleeps, FromProviders(ps[1..], try, next + |t.requests|, t.clock))
  {
    var t := try(ps[0], next, now);
    var rest := FromProviders(ps[1..], try, next + |t.requests|, t.clock);
    assert done + (t.requests + rest.requests) == (done + t.requests) + rest.requests;
    assert slept + (t.sleeps + rest.sleeps) == (slept + t.sleeps) + rest.sleeps;
  }

  /** A provider that yields a rate ends the loop. */
  lemma ProvidersFinish(whole: Trace, done: seq<Request>, slept: seq<real>, ps: seq<Provider>,
                        try: (Provider, nat, real) -> Trace, next: nat, now: real)
    requires ps != []
    requires Continues(whole, done, slept, FromProviders(ps, try, next, now))
    requires try(ps[0], next, now).rate.Some?
    ensures var t := try(ps[0], next, now);
      whole.rate == t.rate && whole.requests == done + t.requests && whole.sleeps == slept + t.sleeps
      && whole.clock == t.clock
  {
  }

  /**
   * One pass of the provider loop, on the values the service holds before and after trying
   * `ps[0]`, whose trace is `t`: a rate ends the loop, and otherwise `ps'` is left to try.
   */
  lemma ProvidersPass(whole: Trace, r0: seq<Request>, s0: seq<real>, done: seq<Request>, slept: seq<real>,
                      ps: seq<Provider>, ps': seq<Provider>, try: (Provider, nat, real) -> Trace, t: Trace,
                      reqs: seq<Request>, sleeps: seq<real>, now: real, rate: Option<ExchangeRate>,
                      reqs': seq<Request>, sleeps': seq<real>, now': real)
    requires ps != [] && ps' == ps[1..]
    requires reqs == r0 + done && sleeps == s0 + slept
    requires Continues(whole, done, slept, FromProviders(ps, try, |reqs|, now))
    requires t == try(ps[0], |reqs|, now)
    requires rate == t.rate && reqs' == reqs + t.requests && sleeps' == sleeps + t.sleeps && now' == t.clock
    ensures rate.Some? ==>
      rate == whole.rate && reqs' == r0 + whole.requests && sleeps' == s0 + whole.sleeps && now' == whole.clock
    ensures rate.None? ==>
      && reqs' == r0 + (done + t.requests) && sleeps' == s0 + (slept + t.sleeps)
      && Continues(whole, done + t.requests, slept + t.sleeps, FromProviders(ps', try, |reqs'|, now'))
  {
    Associative(r0, done, t.requests);
    Associative(s0, slept, t.sleeps);
    if rate.Some? {
      ProvidersFinish(whole, done, slept, ps, try, |reqs|, now);
    } else {
      ProvidersAdvance(whole, done, slept, ps, try, |reqs|, now);
    }
  }

  /** Nothing is left of the loop once every provider is tried. */
  lemma ProvidersExhausted(whole: Trace, done: seq<Request>, slept: seq<real>,
                           try: (Provider, nat, real) -> Trace, next: nat, now: real)
    requires Continues(whole, done, slept, FromProviders([], try, next, now))
    ensures whole == Trace(None, done, slept, now)
  {
    assert done + [] == done && slept + [] == slept;
  }

  /** A first provider that yields a rate is the only one tried. */
  lemma FromProvidersStopsAtFirst(ps: seq<Provider>, try: (Provider, nat, real) -> Trace, next: nat, now: real)
    requires ps != [] && try(ps[0], next, now).rate.Some?
    ensures FromProviders(ps, try, next, now) == try(ps[0], next, now)
  {
  }

  /** `f"{from_currency}_{to_currency}"`. */
  function CacheKey(from: string, to: string): string {
    from + "_" + to
  }

  /** In the key of a code without an underscore, the first underscore is the separator. */
  lemma CacheKeySeparator(from: string, to: string)
    requires forall i :: 0 <= i < |from| ==> from[i] != '_'
    ensures var k := CacheKey(from, to);
      && |k| == |from| + 1 + |to| && k[|from|] == '_'
      && (forall i :: 0 <= i < |from| ==> k[i] != '_')
      && k[..|from|] == from && k[|from| + 1..] == to
  {
    var k := CacheKey(from, to);
    forall i | 0 <= i < |from| ensures k[i] != '_' {
      assert k[i] == from[i];
    }
  }

  /** Currency codes without an underscore never share a cache key. */
  lemma CacheKeyInjective(from: string, to: string, from': string, to': string)
    requires forall i :: 0 <= i < |from| ==> from[i] != '_'
    requires forall i :: 0 <= i < |from'| ==> from'[i] != '_'
    requires CacheKey(from, to) == CacheKey(from', to')
    ensures from == from' && to == to'
  {
    CacheKeySeparator(from, to);
    CacheKeySeparator(from', to');
    assert |from| == |from'|;
  }

  /** A cached rate is used while it is younger than the cache duration. */
  predicate Fresh(entry: ExchangeRate, now: real) {
    now - entry.timestamp < CacheDuration
  }

  /** `get_cache_stats`, with the keys as a set: the size, and the oldest and newest timestamps. */
  datatype CacheStats = CacheStats(size: nat, keys: set<string>, oldest: Option<real>, newest: Option<real>)

  /** `get_cache_stats`: the oldest and newest timestamps are found by a pass over the entries. */
  method GetCacheStats(cache: map<string, ExchangeRate>) returns (stats: CacheStats)
    ensures stats.size == |cache| && stats.keys == cache.Keys
    ensures stats.oldest.None? <==> cache == map[]
    ensures stats.newest.None? <==> cache == map[]
    ensures stats.oldest.Some? ==>
      (exists k :: k in cache && cache[k].timestamp == stats.oldest.value)
      && (forall k :: k in cache ==> stats.oldest.value <= cache[k].timestamp)
    ensures stats.newest.Some? ==>
      (exists k :: k in cache && cache[k].timestamp == stats.newest.value)
      && (forall k :: k in cache ==> cache[k].timestamp <= stats.newest.value)
  {
    var oldest: Option<real> := None;
    var newest: Option<real> := None;
    var left := cache.Keys;
    while left != {}
      invariant left <= cache.Keys
      invariant oldest.None? <==> left == cache.Keys
      invariant newest.None? <==> left == cache.Keys
      invariant oldest.Some? ==>
        (exists k :: k in cache && cache[k].timestamp == oldest.value)
        && (forall k :: k in cache.Keys - left ==> oldest.value <= cache[k].timestamp)
      invariant newest.Some? ==>
        (exists k :: k in cache && cache[k].timestamp == newest.value)
        && (forall k :: k in cache.Keys - left ==> cache[k].timestamp <= newest.value)
      decreases |left|
    {
      var k :| k in left;
      var ts := cache[k].timestamp;
      if oldest.None? || ts < oldest.value {
        oldest := Some(ts);
      }
      if newest.None? || ts > newest.value {
        newest := Some(ts);
      }
      left := left - {k};
    }
    stats := CacheStats(|cache|, cache.Keys, oldest, newest);
  }

  /** `ExchangeRateService`: its cache, the clock, and what it has asked of the network. */
  class ExchangeRateService {
    const apiKeys: map<string, string>
    /** The network: the outcome of the n-th request. */
    const net: nat -> Response
    var cache: map<string, ExchangeRate>
    var now: real
    var requests: seq<Request>
    var sleeps: seq<real>

    constructor(apiKeys: map<string, string>, net: nat -> Response, now: real)
      ensures this.apiKeys == apiKeys && this.net == net && this.now == now
      ensures cache == map[] && requests == [] && sleeps == []
    {
      this.apiKeys := apiKeys;
      this.net := net;
      this.now := now;
      cache := map[];
      requests := [];
      sleeps := [];
    }

    /** `_fetch_from_provider`: one request, unless the provider needs a key it lacks. */
    method FetchFromProvider(p: Provider, from: string, to: string) returns (rate: Option<ExchangeRate>)
      modifies this`requests
      ensures var request := RequestFor(p, apiKeys, from, to);
        && requests == old(requests) + Sent(request)
        && rate == Attempt(request, FetchFor(p, apiKeys, from, to, net), |old(requests)|, now)
    {
      var url := ProviderUrl(p, apiKeys, from, to);
      if url.None? {
        return None;
      }
      var response := net(|requests|);
      requests := requests + [Request(url.value, TimeoutOf(p))];
      rate := FetchResult(p, from, to, url.value, response, now);
    }

    /** `time.sleep(seconds)`: recorded, and the clock moves on. */
    method Sleep(seconds: real)
      modifies this`sleeps, this`now
      ensures sleeps == old(sleeps) + [seconds] && now == old(now) + seconds
    {
      sleeps := sleeps + [seconds];
      now := now + seconds;
    }

    /** One pass of the retry loop of `_try_provider`: a fetch, then the back-off sleep if it failed. */
    method TryOnce(p: Provider, from: string, to: string, attempt: nat) returns (rate: Option<ExchangeRate>)
      requires attempt < MaxRetries
      modifies this`requests, this`sleeps, this`now
      ensures var request := RequestFor(p, apiKeys, from, to);
        && rate == Attempt(request, FetchFor(p, apiKeys, from, to, net), |old(requests)|, old(now))
        && requests == old(requests) + Sent(request)
        && (rate.Some? ==> sleeps == old(sleeps) && now == old(now))
        && (rate.None? ==> sleeps == old(sleeps) + Pause(attempt) && now == old(now) + Delay(attempt))
    {
      rate := FetchFromProvider(p, from, to);
      if rate.None? {
        if attempt < MaxRetries - 1 {
          Sleep(Backoff(attempt));
        } else {
          RightUnit(sleeps);
        }
      }
    }

    /** `_try_provider`: the retry loop, as `TryTrace` describes it. */
    method TryProvider(p: Provider, from: string, to: string) returns (rate: Option<ExchangeRate>)
      modifies this`requests, this`sleeps, this`now
      ensures var t := TryTrace(p, apiKeys, from, to, net, |old(requests)|, old(now));
        && rate == t.rate
        && requests == old(requests) + t.requests
        && sleeps == old(sleeps) + t.sleeps
        && now == t.clock
    {
      ghost var request, fetch := RequestFor(p, apiKeys, from, to), FetchFor(p, apiKeys, from, to, net);
      ghost var t0 := Retry(request, fetch, |requests|, now, 0);
      ghost var r0, s0 := requests, sleeps;
      ghost var doneR: seq<Request>, doneS: seq<real> := [], [];
      var attempt := 0;
      while attempt < MaxRetries
        invariant attempt <= MaxRetries
        invariant requests == r0 + doneR && sleeps == s0 + doneS
        invariant Continues(t0, doneR, doneS, Retry(request, fetch, |requests|, now, attempt))
      {
        ghost var rs, ss, c := requests, sleeps, now;
        rate := TryOnce(p, from, to, attempt);
        RetryPass(t0, r0, s0, doneR, doneS, request, fetch, attempt, rs, ss, c, rate, requests, sleeps, now);
        if rate.Some? {
          return;
        }
        doneR, doneS := doneR + Sent(request), doneS + Pause(attempt);
        attempt := attempt + 1;
      }
      RetryExhausted(t0, doneR, doneS, request, fetch, |requests|, now);
      rate := None;
    }

    /**
     * `get_exchange_rate` from a given state: a fresh cached rate with nothing else changed, or
     * the trace of the providers tried in order, with the rate found cached under its key.
     */
    function LookupFrom(cache: map<string, ExchangeRate>, requests: seq<Request>, sleeps: seq<real>, now: real,
                        from: string, to: string): (l: Lookup)
      ensures |requests| <= |l.requests| && l.requests[..|requests|] == requests
      ensures |sleeps| <= |l.sleeps| && l.sleeps[..|sleeps|] == sleeps
      ensures l.rate.Some? ==> CacheKey(from, to) in l.cache && l.cache[CacheKey(from, to)] == l.rate.value
      ensures l.cache.Keys == cache.Keys + (if l.rate.Some? then {CacheKey(from, to)} else {})
      ensures forall k :: k in cache && k != CacheKey(from, to) ==> l.cache[k] == cache[k]
    {
      var key := CacheKey(from, to);
      if key in cache && Fresh(cache[key], now) then
        Lookup(Some(cache[key]), cache, requests, sleeps, now)
      else
        var t := FromProviders(Providers, TryFor(apiKeys, from, to, net), |requests|, now);
        Lookup(t.rate, if t.rate.Some? then cache[key := t.rate.value] else cache,
               requests + t.requests, sleeps + t.sleeps, t.clock)
    }

    /**
     * `get_exchange_rate`: a fresh cached rate is returned with no request; otherwise the
     * providers are tried in order, and the first rate found is cached and returned.
     */
    method GetExchangeRate(from: string, to: string) returns (rate: Option<ExchangeRate>)
      modifies this`cache, this`requests, this`sleeps, this`now
      ensures var key := CacheKey(from, to);
        if key in old(cache) && Fresh(old(cache)[key], old(now)) then
          rate == Some(old(cache)[key]) && cache == old(cache) && requests == old(requests)
          && sleeps == old(sleeps) && now == old(now)
        else
          var t := FromProviders(Providers, TryFor(apiKeys, from, to, net), |old(requests)|, old(now));
          && rate == t.rate
          && requests == old(requests) + t.requests
          && sleeps == old(sleeps) + t.sleeps
          && now == t.clock
          && cache == (if rate.Some? then old(cache)[key := rate.value] else old(cache))
      ensures Lookup(rate, cache, requests, sleeps, now) == LookupFrom(old(cache), old(requests), old(sleeps), old(now), from, to)
    {
      var key := CacheKey(from, to);
      if key in cache && Fresh(cache[key], now) {
        return Some(cache[key]);
      }
      ghost var try := TryFor(apiKeys, from, to, net);
      ghost var t0 := FromProviders(Providers, try, |requests|, now);
      ghost var r0, s0 := requests, sleeps;
      ghost var doneR: seq<Request>, doneS: seq<real> := [], [];
      var i := 0;
      while i < |Providers|
        invariant i <= |Providers|
        invariant requests == r0 + doneR && sleeps == s0 + doneS
        invariant cache == old(cache)
        invariant Continues(t0, doneR, doneS, FromProviders(Providers[i..], try, |requests|, now))
      {
        ghost var rs, ss, c := requests, sleeps, now;
        ghost var t := TryTrace(Providers[i], apiKeys, from, to, net, |rs|, c);
        assert Providers[i..][0] == Providers[i] && Providers[i..][1..] == Providers[i + 1..];
        rate := TryProvider(Providers[i], from, to);
        ProvidersPass(t0, r0, s0, doneR, doneS, Providers[i..], Providers[i + 1..], try, t, rs, ss, c, rate, requests, sleeps, now);
        if rate.Some? {
          cache := cache[key := rate.value];
          return;
        }
        doneR, doneS := doneR + t.requests, doneS + t.sleeps;
        i := i + 1;
      }
      ProvidersExhausted(t0, doneR, doneS, try, |requests|, now);
      rate := None;
    }

    /** `convert_amount`: no lookup for a non-positive amount; otherwise the amount times the rate looked up. */
    method ConvertAmount(amount: real, from: string, to: string) returns (result: Option<real>)
      modifies this`cache, this`requests, this`sleeps, this`now
      ensures amount <= 0.0 ==>
        result.None? && cache == old(cache) && requests == old(requests) && sleeps == old(sleeps) && now == old(now)
      ensures amount > 0.0 ==> var key := CacheKey(from, to);
        result == Converted(amount, RateOf(
          if key in old(cache) && Fresh(old(cache)[key], old(now)) then Some(old(cache)[key])
          else FromProviders(Providers, TryFor(apiKeys, from, to, net), |old(requests)|, old(now)).rate))
      ensures amount > 0.0 ==>
        var l := LookupFrom(old(cache), old(requests), old(sleeps), old(now), from, to);
        result == Converted(amount, RateOf(l.rate))
        && cache == l.cache && requests == l.requests && sleeps == l.sleeps && now == l.now
    {
      if amount <= 0.0 {
        return None;
      }
      var info := GetExchangeRate(from, to);
      result := Converted(amount, RateOf(info));
    }
  }

  /** `rate_info.rate`, or None when no rate was found. */
  function RateOf(info: Option<ExchangeRate>): (r: Option<real>)
    ensures r.Some? <==> info.Some?
    ensures r.Some? ==> r.value == info.value.rate
  {
    if info.Some? then Some(info.value.rate) else None
  }

  /** What `get_exchange_rate` leaves behind: the rate it returns, the cache, the requests, the sleeps and the clock. */
  datatype Lookup = Lookup(rate: Option<ExchangeRate>, cache: map<string, ExchangeRate>, requests: seq<Request>,
                           sleeps: seq<real>, now: real)

  lemma {:induction false} SumConcat(a: seq<real>, b: seq<real>)
    ensures Sum(a + b) == Sum(a) + Sum(b)
    decreases |b|
  {
    if b == [] {
      assert a + b == a;
    } else {
      var init := b[..|b| - 1];
      SumConcat(a, init);
      assert a + b == (a + init) + [b[|b| - 1]];
      SumAppend(a + init, b[|b| - 1]);
    }
  }

  /** What `last_error` records about a failed call. */
  datatype ErrorNote = RateFailed(from: string, to: string) | ConvertFailed(amount: real, from: string, to: string)

  /** `get_stats`, with the cache statistics of the service. */
  datatype Stats = Stats(successCount: nat, errorCount: nat, totalOperations: nat, successRate: real,
                         lastError: Option<ErrorNote>, cacheStats: CacheStats)

  /** A share `part / whole` of a positive whole lies between 0 and 1, at either end exactly when the part does. */
  lemma Share(part: real, whole: real)
    requires 0.0 <= part <= whole && whole > 0.0
    ensures 0.0 <= part / whole <= 1.0
    ensures part / whole == 1.0 <==> part == whole
    ensures part / whole == 0.0 <==> part == 0.0
  {
    var q := part / whole;
    assert q * whole == part;
    Scale(q, 1.0, whole);
    Scale(0.0, q, whole);
  }

  lemma Scale(a: real, b: real, c: real)
    requires c > 0.0 && a * c <= b * c
    ensures a <= b
  {
  }

  /** `success_count / total_operations * 100`, or 0 when nothing was done. */
  function SuccessRate(successCount: nat, errorCount: nat): (r: real)
    ensures successCount + errorCount == 0 ==> r == 0.0
    ensures 0.0 <= r <= 100.0
    ensures r == 100.0 <==> successCount > 0 && errorCount == 0
    ensures r == 0.0 <==> successCount == 0
  {
    var total := successCount + errorCount;
    if total > 0 then
      Share(successCount as real, total as real);
      successCount as real / total as real * 100.0
    else 0.0
  }

  /** `ExchangeRateManager`: a service and the outcome counters of the calls made through it. */
  class ExchangeRateManager {
    const service: ExchangeRateService
    var lastError: Option<ErrorNote>
    var errorCount: nat
    var successCount: nat

    constructor(apiKeys: map<string, string>, net: nat -> Response, now: real)
      ensures fresh(service) && service.apiKeys == apiKeys && service.net == net && service.now == now
      ensures service.cache == map[] && service.requests == [] && service.sleeps == []
      ensures lastError == None && errorCount == 0 && successCount == 0
    {
      service := new ExchangeRateService(apiKeys, net, now);
      lastError := None;
      errorCount := 0;
      successCount := 0;
    }

    /** `get_rate`: every call counts once, as a success exactly when a rate is returned. */
    method GetRate(from: string, to: string) returns (rate: Option<real>)
      modifies this, service`cache, service`requests, service`sleeps, service`now
      ensures var l := service.LookupFrom(old(service.cache), old(service.requests), old(service.sleeps), old(service.now), from, to);
        && rate == RateOf(l.rate)
        && service.cache == l.cache && service.requests == l.requests
        && service.sleeps == l.sleeps && service.now == l.now
      ensures rate.Some? ==> successCount == old(successCount) + 1 && errorCount == old(errorCount) && lastError == None
      ensures rate.None? ==>
        errorCount == old(errorCount) + 1 && successCount == old(successCount)
        && lastError == Some(RateFailed(from, to))
    {
      var info := service.GetExchangeRate(from, to);
      if info.Some? {
        successCount := successCount + 1;
        lastError := None;
        rate := RateOf(info);
      } else {
        errorCount := errorCount + 1;
        lastError := Some(RateFailed(from, to));
        rate := None;
      }
    }

    /** `convert`: every call counts once, as a success exactly when an amount is returned. */
    method Convert(amount: real, from: string, to: string) returns (result: Option<real>)
      modifies this, service`cache, service`requests, service`sleeps, service`now
      ensures amount <= 0.0 ==>
        result.None? && service.cache == old(service.cache) && service.requests == old(service.requests)
        && service.sleeps == old(service.sleeps) && service.now == old(service.now)
      ensures amount > 0.0 ==>
        var l := service.LookupFrom(old(service.cache), old(service.requests), old(service.sleeps), old(service.now), from, to);
        result == Converted(amount, RateOf(l.rate))
        && service.cache == l.cache && service.requests == l.requests
        && service.sleeps == l.sleeps && service.now == l.now
      ensures result.Some? ==> successCount == old(successCount) + 1 && errorCount == old(errorCount) && lastError == None
      ensures result.None? ==>
        errorCount == old(errorCount) + 1 && successCount == old(successCount)
        && lastError == Some(ConvertFailed(amount, from, to))
    {
      result := service.ConvertAmount(amount, from, to);
      if result.Some? {
        successCount := successCount + 1;
        lastError := None;
      } else {
        errorCount := errorCount + 1;
        lastError := Some(ConvertFailed(amount, from, to));
      }
    }

    /** `get_stats`. */
    method GetStats() returns (stats: Stats)
      ensures stats.successCount == successCount && stats.errorCount == errorCount
      ensures stats.totalOperations == successCount + errorCount
      ensures stats.successRate == SuccessRate(successCount, errorCount) && stats.lastError == lastError
      ensures stats.cacheStats.size == |service.cache| && stats.cacheStats.keys == service.cache.Keys
      ensures stats.cacheStats.oldest.None? <==> service.cache == map[]
      ensures stats.cacheStats.newest.None? <==> service.cache == map[]
      ensures stats.cacheStats.oldest.Some? ==>
        (exists k :: k in service.cache && service.cache[k].timestamp == stats.cacheStats.oldest.value)
        && (forall k :: k in service.cache ==> stats.cacheStats.oldest.value <= service.cache[k].timestamp)
      ensures stats.cacheStats.newest.Some? ==>
        (exists k :: k in service.cache && service.cache[k].timestamp == stats.cacheStats.newest.value)
        && (forall k :: k in service.cache ==> service.cache[k].timestamp <= stats.cacheStats.newest.value)
    {
      var cacheStats := GetCacheStats(service.cache);
      stats := Stats(successCount, errorCount, successCount + errorCount, SuccessRate(successCount, errorCount),
                     lastError, cacheStats);
    }
  }
}
