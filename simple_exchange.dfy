/**
 * `simple_exchange_check.py`: one endpoint, input validation, the same-currency shortcut and a
 * limiter that refuses a request within one second of the last answered one.
 *
 * The network is the oracle `net`: the n-th request gets `net(n)`. The clock is passed to each
 * call as `now`, and requests take no time.
 */
module SimpleExchange {
  import opened Optional
  import opened Http

  const BaseUrl: string := "https://api.exchangerate-api.com/v4/latest"
  /** `request_interval`: the minimum number of seconds between requests. */
  const RequestInterval: real := 1.0

  /** The request `get_rate` makes: `f"{base_url}/{from_currency}"` with a 10 s timeout. */
  function RateRequest(from: string): Request {
    Request(BaseUrl + "/" + from, 10)
  }

  /** Less than `request_interval` has passed since the last answered request. */
  predicate Limited(lastRequestTime: Option<real>, now: real) {
    lastRequestTime.Some? && now - lastRequestTime.value < RequestInterval
  }

  /** Whether `get_rate` reaches the network: valid, different codes and no limiter in the way. */
  predicate Asks(from: string, to: string, lastRequestTime: Option<real>, now: real) {
    from != "" && to != "" && from != to && !Limited(lastRequestTime, now)
  }

  /** What `get_rate` returns, given the reply it would get if it asked. */
  function Answer(from: string, to: string, lastRequestTime: Option<real>, now: real, response: Response): (r: Option<real>)
    ensures (from == "" || to == "") ==> r.None?
    ensures from != "" && from == to ==> r == Some(1.0)
    ensures from != to && Limited(lastRequestTime, now) ==> r.None?
    ensures Asks(from, to, lastRequestTime, now) ==> r == ParseRates(response, to)
  {
    if from == "" || to == "" then None
    else if from == to then Some(1.0)
    else if Limited(lastRequestTime, now) then None
    else ParseRates(response, to)
  }

  /** The same-currency answer comes before the limiter: it is 1.0 however recent the last request. */
  lemma SameCurrencyIgnoresLimiter(code: string, lastRequestTime: Option<real>, now: real, response: Response)
    requires code != ""
    ensures Answer(code, code, lastRequestTime, now, response) == Some(1.0)
    ensures !Asks(code, code, lastRequestTime, now)
  {
  }

  /** After an answered request at `t`, a new request is made exactly once a full second has passed. */
  lemma LimiterWindow(from: string, to: string, t: real, now: real)
    requires from != "" && to != "" && from != to
    ensures Asks(from, to, Some(t), now) <==> now >= t + RequestInterval
  {
  }

  /** `SimpleExchangeChecker`: the time of the last answered request and the requests made. */
  class SimpleExchangeChecker {
    const net: nat -> Response
    var lastRequestTime: Option<real>
    var requests: seq<Request>

    constructor(net: nat -> Response)
      ensures this.net == net && lastRequestTime == None && requests == []
    {
      this.net := net;
      lastRequestTime := None;
      requests := [];
    }

    /**
     * `get_rate`: at most one request; `last_request_time` moves to `now` only when the reply
     * decoded, whether or not it holds the currency.
     */
    method GetRate(from: string, to: string, now: real) returns (rate: Option<real>)
      modifies this`lastRequestTime, this`requests
      ensures rate == Answer(from, to, old(lastRequestTime), now, net(|old(requests)|))
      ensures !Asks(from, to, old(lastRequestTime), now) ==>
        requests == old(requests) && lastRequestTime == old(lastRequestTime)
      ensures Asks(from, to, old(lastRequestTime), now) ==>
        requests == old(requests) + [RateRequest(from)]
        && lastRequestTime == (if net(|old(requests)|).Body? then Some(now) else old(lastRequestTime))
    {
      if from == "" || to == "" {
        return None;
      }
      if from == to {
        return Some(1.0);
      }
      if lastRequestTime.Some? {
        var sinceLast := now - lastRequestTime.value;
        if sinceLast < RequestInterval {
          return None;
        }
      }
      var response := net(|requests|);
      requests := requests + [RateRequest(from)];
      if response.Body? {
        lastRequestTime := Some(now);
      }
      rate := ParseRates(response, to);
    }

    /** `convert`: no lookup for a non-positive amount; otherwise the amount times the rate. */
    method Convert(amount: real, from: string, to: string, now: real) returns (result: Option<real>)
      modifies this`lastRequestTime, this`requests
      ensures amount <= 0.0 ==> result.None? && requests == old(requests) && lastRequestTime == old(lastRequestTime)
      ensures amount > 0.0 ==>
        result == Converted(amount, Answer(from, to, old(lastRequestTime), now, net(|old(requests)|)))
      ensures amount > 0.0 && !Asks(from, to, old(lastRequestTime), now) ==>
        requests == old(requests) && lastRequestTime == old(lastRequestTime)
      ensures amount > 0.0 && Asks(from, to, old(lastRequestTime), now) ==>
        requests == old(requests) + [RateRequest(from)]
        && lastRequestTime == (if net(|old(requests)|).Body? then Some(now) else old(lastRequestTime))
    {
      if amount <= 0.0 {
        return None;
      }
      var rate := GetRate(from, to, now);
      result := Converted(amount, rate);
    }
  }
}
