/**
 * The outside world as the adapters see it: `requests.get` as a function from
 * URL to response, the JSON value `response.json()` returns, Python's
 * subscripting and iteration on that value, and the exceptions the adapters
 * raise or let through.
 */
module Http {
  import opened Wrappers

  /** A parsed JSON document. */
  datatype Json =
    | JNull
    | JBool(b: bool)
    | JNum(n: real)
    | JStr(s: string)
    | JArr(items: seq<Json>)
    | JObj(fields: map<string, Json>)

  /**
   * An HTTP response: `ok` is `response.ok`; `body` is what `response.json()`
   * returns, or None when the body is not JSON and `response.json()` raises.
   */
  datatype Response = Response(ok: bool, body: Option<Json>)

  /** `requests.get`: the response the server gives for a URL. */
  type Oracle = string -> Response

  /** The exceptions an adapter call can end in. */
  datatype FetchError =
    | CarbonIntensityFetcherError(payload: Json) // raised with the body of a non-OK response
    | JsonDecodeError                            // `response.json()` on a body that is not JSON
    | LookupError                                // KeyError, IndexError or TypeError reading the body

  /** `response.json()`. */
  function Parsed(response: Response): (r: Result<Json, FetchError>)
    ensures r.Success? <==> response.body.Some?
    ensures r.Failure? ==> r.error == JsonDecodeError
  {
    match response.body
    case Some(j) => Success(j)
    case None => Failure(JsonDecodeError)
  }

  /**
   * What `raise CarbonIntensityFetcherError(response.json())` raises: the
   * fetcher error carrying the body, unless building its argument already
   * raises because the body is not JSON.
   */
  function ErrorFor(response: Response): (e: FetchError)
    ensures e.CarbonIntensityFetcherError? <==> response.body.Some?
    ensures e.CarbonIntensityFetcherError? ==> response.body == Some(e.payload)
  {
    match response.body
    case Some(j) => CarbonIntensityFetcherError(j)
    case None => JsonDecodeError
  }

  /** `j[key]` for a string key: only a dict holding the key answers. */
  function Key(j: Json, key: string): (r: Result<Json, FetchError>)
    ensures r.Success? <==> j.JObj? && key in j.fields
    ensures r.Success? ==> r.value == j.fields[key]
  {
    if j.JObj? && key in j.fields then Success(j.fields[key]) else Failure(LookupError)
  }

  /**
   * `j[0]`: the first element of a list, the first character of a string;
   * a dict (its keys are strings, never 0) and anything else raise.
   */
  function First(j: Json): (r: Result<Json, FetchError>)
    ensures j.JArr? && |j.items| > 0 ==> r == Success(j.items[0])
    ensures j.JStr? && |j.s| > 0 ==> r == Success(JStr(j.s[..1]))
    ensures r.Success? ==> (j.JArr? && |j.items| > 0) || (j.JStr? && |j.s| > 0)
  {
    match j
    case JArr(items) => if |items| > 0 then Success(items[0]) else Failure(LookupError)
    case JStr(s) => if |s| > 0 then Success(JStr(s[..1])) else Failure(LookupError)
    case _ => Failure(LookupError)
  }

  /**
   * The elements a `for` loop over `j` visits, for the purpose of reading
   * fields of each. A list yields its items. Iterating an empty dict or an
   * empty string visits nothing. A non-empty dict or string yields strings,
   * and subscripting a string with a string raises, so the loop body would
   * raise on the first element: that is reported here directly. Numbers,
   * booleans and null are not iterable.
   */
  function Elements(j: Json): (r: Result<seq<Json>, FetchError>)
    ensures r.Success? <==> j.JArr? || j == JObj(map[]) || j == JStr("")
    ensures j.JArr? ==> r == Success(j.items)
    ensures r.Success? && !j.JArr? ==> r.value == []
  {
    match j
    case JArr(items) => Success(items)
    case JObj(fields) => if fields == map[] then Success([]) else Failure(LookupError)
    case JStr(s) => if s == "" then Success([]) else Failure(LookupError)
    case _ => Failure(LookupError)
  }

  /**
   * A JSON leaf as a number that `np.mean` accepts: numbers, and booleans
   * (Python's `bool` is an `int`). Strings and null make `np.mean` raise.
   */
  function Number(j: Json): (r: Result<real, FetchError>)
    ensures j.JNum? ==> r == Success(j.n)
    ensures j.JBool? ==> r == Success(if j.b then 1.0 else 0.0)
    ensures r.Success? <==> j.JNum? || j.JBool?
  {
    match j
    case JNum(n) => Success(n)
    case JBool(b) => Success(if b then 1.0 else 0.0)
    case _ => Failure(LookupError)
  }

  /**
   * The list a loop or comprehension builds by reading one number out of
   * each element in turn; the first element that cannot be read ends it
   * with that element's exception.
   */
  function CollectValues<T>(xs: seq<T>, f: T -> Result<real, FetchError>): (r: Result<seq<real>, FetchError>)
    ensures r.Success? ==> |r.value| == |xs| && forall i :: 0 <= i < |xs| ==> f(xs[i]) == Success(r.value[i])
    ensures r.Failure? ==> exists k :: 0 <= k < |xs| && f(xs[k]) == Failure(r.error)
                                        && forall j :: 0 <= j < k ==> f(xs[j]).Success?
    ensures (forall i :: 0 <= i < |xs| ==> f(xs[i]).Success?) ==> r.Success?
  {
    if xs == [] then Success([])
    else
      var n := |xs| - 1;
      match CollectValues(xs[..n], f)
      case Failure(e) => Failure(e)
      case Success(vs) =>
        match f(xs[n])
        case Failure(e) => Failure(e)
        case Success(v) => Success(vs + [v])
  }

  /** Once a prefix of the elements cannot all be read, neither can the whole list, with the same exception. */
  lemma {:induction false} CollectPrefixFailure<T>(xs: seq<T>, k: nat, f: T -> Result<real, FetchError>)
    requires k <= |xs|
    requires CollectValues(xs[..k], f).Failure?
    ensures CollectValues(xs, f) == CollectValues(xs[..k], f)
  {
    if k < |xs| {
      var n := |xs| - 1;
      assert xs[..n][..k] == xs[..k];
      CollectPrefixFailure(xs[..n], k, f);
    } else {
      assert xs[..k] == xs;
    }
  }

  /** Reading one more element extends the collected list by that element's value. */
  lemma CollectExtend<T>(xs: seq<T>, k: nat, f: T -> Result<real, FetchError>, vs: seq<real>, v: real)
    requires k < |xs|
    requires CollectValues(xs[..k], f) == Success(vs)
    requires f(xs[k]) == Success(v)
    ensures CollectValues(xs[..k + 1], f) == Success(vs + [v])
  {
    assert xs[..k + 1][..k] == xs[..k];
  }

  /**
   * The loop over two elements: the first element's failure, else the
   * second's, else both values in order.
   */
  lemma CollectPair<T>(x: T, y: T, f: T -> Result<real, FetchError>)
    ensures f(x).Failure? ==> CollectValues([x, y], f) == Failure(f(x).error)
    ensures f(x).Success? && f(y).Failure? ==> CollectValues([x, y], f) == Failure(f(y).error)
    ensures f(x).Success? && f(y).Success? ==> CollectValues([x, y], f) == Success([f(x).value, f(y).value])
  {
    var xs := [x, y];
    assert xs[..0] == [];
    assert xs[..1] == [x];
    assert [x][..0] == [];
    assert xs[..2] == xs;
    if f(x).Success? {
      CollectExtend(xs, 0, f, [], f(x).value);
      assert [] + [f(x).value] == [f(x).value];
      if f(y).Success? {
        CollectExtend(xs, 1, f, [f(x).value], f(y).value);
        assert [f(x).value] + [f(y).value] == [f(x).value, f(y).value];
      }
    }
  }
}
