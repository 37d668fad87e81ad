/**
 * What the exchange-rate scripts see of the network: one outcome per `requests.get` call, either
 * the decoded JSON body or the exception that `get`, `raise_for_status` or `.json()` raised.
 */
module Http {
  import opened Optional

  /** A decoded JSON value, as `response.json()` returns it. */
  datatype Json =
    | Null
    | Bool(b: bool)
    | Number(n: real)
    | Str(s: string)
    | Arr(items: seq<Json>)
    | Obj(fields: map<string, Json>)

  /** The outcome of one request: an exception class of `requests`/`json`, or the decoded body. */
  datatype Response =
    | Timeout
    | ConnectionError
    | HttpError
    | JsonDecodeError
    | OtherError
    | Body(data: Json)

  /** The status codes the platform's views answer with. */
  const HttpOk: nat := 200
  const HttpCreated: nat := 201
  const HttpBadRequest: nat := 400
  const HttpForbidden: nat := 403
  const HttpNotFound: nat := 404
  const HttpServerError: nat := 500

  /** A request the program made: the URL and the `timeout` argument in seconds. */
  datatype Request = Request(url: string, timeout: nat)

  /** Python's truth value of a decoded JSON value. */
  predicate Truthy(j: Json) {
    match j
    case Null => false
    case Bool(b) => b
    case Number(n) => n != 0.0
    case Str(s) => s != ""
    case Arr(items) => items != []
    case Obj(fields) => fields != map[]
  }

  /** `data.get(key)` on an object. */
  function Get(data: Json, key: string): (r: Option<Json>)
    requires data.Obj?
    ensures r.Some? <==> key in data.fields
    ensures r.Some? ==> r.value == data.fields[key]
  {
    if key in data.fields then Some(data.fields[key]) else None
  }

  /** `data.get(key)` is truthy. */
  predicate TruthyField(data: Json, key: string)
    requires data.Obj?
  {
    key in data.fields && Truthy(data.fields[key])
  }

  /**
   * `data[outer][inner]` after the checks `outer in data and inner in data[outer]`, as a rate:
   * present when the value found there is a number.
   */
  function NumberAt(data: Json, outer: string, inner: string): (r: Option<real>)
    ensures r.Some? <==>
      data.Obj? && outer in data.fields && data.fields[outer].Obj?
      && inner in data.fields[outer].fields && data.fields[outer].fields[inner].Number?
    ensures r.Some? ==> r.value == data.fields[outer].fields[inner].n
  {
    if data.Obj? && outer in data.fields then
      var o := data.fields[outer];
      if o.Obj? && inner in o.fields then
        match o.fields[inner]
        case Number(n) => Some(n)
        case _ => None
      else None
    else None
  }

  /**
   * `data['rates'][to]` after the check `'rates' in data and to in data['rates']`, for a reply
   * that decoded; a reply that raised yields nothing.
   */
  function ParseRates(response: Response, to: string): (r: Option<real>)
    ensures r.Some? <==> response.Body? && NumberAt(response.data, "rates", to).Some?
    ensures r.Some? ==> r == NumberAt(response.data, "rates", to)
  {
    match response
    case Body(data) => NumberAt(data, "rates", to)
    case _ => None
  }

  /** `amount * rate`, or None when no rate was found. */
  function Converted(amount: real, rate: Option<real>): (r: Option<real>)
    ensures r.Some? <==> rate.Some?
  {
    if rate.Some? then Some(amount * rate.value) else None
  }
}
