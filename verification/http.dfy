/** Requests, responses and errors, with the transport left abstract.

    Every operation of the client is modelled as a function or method that is
    given the server as an oracle (`server: Request -> HttpResponse<T>`) and
    returns a `Call`: the requests it sent, in order, and its outcome. A
    raised Python exception is an `Err` outcome. The JSON decoding of a
    response body is not modelled: the oracle hands back the decoded body. */
module Http {

  import opened Wrappers

  // The endpoint table of LNMarkets/APIUrls.py (only the entries the model uses).
  const Lnapi := "https://api.lnmarkets.com"
  const UserUrl := "/user"
  const UserHistoryUrl := "/user/history"
  const TokenUrl := "/user/jwt"
  const PositionUrl := "/positions"
  const AddMarginUrl := "/positions/add-margin"
  const CashinUrl := "/positions/cash-in"
  const CancelUrl := "/positions/cancel"

  datatype Verb = Get | Post | Put | Delete

  /** A query parameter value: requests writes both kinds as text. */
  datatype ParamValue = Text(s: string) | Number(n: int)

  /** A Python dict of query parameters, in insertion order. */
  type Params = seq<(string, ParamValue)>

  datatype Request = Request(
    verb: Verb,
    url: string,
    params: Params,
    authorization: Option<string>,   // the "authorization" header, when sent
    body: Option<string>)            // the "data" text, when sent

  /** What the server answers: a status code, the decoded JSON body and the raw text. */
  datatype HttpResponse<T> = HttpResponse(status: int, json: T, text: string)

  /** The Python exceptions the client raises. */
  datatype Error =
    | ValueError(message: string)
    | RuntimeError(message: string)
    | KeyError(key: string)
    | AttributeError(name: string)

  datatype Result<T> = Ok(value: T) | Err(error: Error)

  /** The requests one operation sent, in order, and its outcome. */
  datatype Call<T> = Call(sent: seq<Request>, result: Result<T>)

  function Bearer(token: string): Option<string> {
    Some("Bearer " + token)
  }

  /** Sends one request; status 200 yields the decoded body, anything else a
      RuntimeError whose message ends with the response text. */
  function Exchange<T>(req: Request, server: Request -> HttpResponse<T>, failure: string): (c: Call<T>)
    ensures c.sent == [req]
    ensures c.result.Ok? <==> server(req).status == 200
    ensures c.result.Ok? ==> c.result.value == server(req).json
    ensures c.result.Err? ==> c.result.error == RuntimeError(failure + server(req).text)
  {
    var resp := server(req);
    Call([req], if resp.status == 200 then Ok(resp.json) else Err(RuntimeError(failure + resp.text)))
  }

  // ---------------------------------------------------------------------------
  // Query parameters as an insertion-ordered dict

  function ParamKeys(d: Params): (r: seq<string>)
    ensures |r| == |d|
    ensures forall i :: 0 <= i < |d| ==> r[i] == d[i].0
  {
    seq(|d|, i requires 0 <= i < |d| => d[i].0)
  }

  /** d[k], or None when k is not a key. */
  function Lookup(d: Params, k: string): Option<ParamValue> {
    if |d| == 0 then None
    else if d[0].0 == k then Some(d[0].1)
    else Lookup(d[1..], k)
  }

  /** The assignment d[k] = v: replaces the value of an existing key in place,
      and appends a new key at the end. */
  function Assign(d: Params, k: string, v: ParamValue): (r: Params)
    ensures Lookup(r, k) == Some(v)
    ensures k in ParamKeys(d) ==> ParamKeys(r) == ParamKeys(d)
    ensures k !in ParamKeys(d) ==> ParamKeys(r) == ParamKeys(d) + [k]
  {
    if |d| == 0 then [(k, v)]
    else
      KeysCons(d[0], d[1..]);
      assert [d[0]] + d[1..] == d;
      if d[0].0 == k then
        KeysCons((k, v), d[1..]);
        [(k, v)] + d[1..]
      else
        var rest := Assign(d[1..], k, v);
        KeysCons(d[0], rest);
        [d[0]] + rest
  }

  lemma KeysCons(p: (string, ParamValue), d: Params)
    ensures ParamKeys([p] + d) == [p.0] + ParamKeys(d)
  {
    assert forall i :: 0 < i < |[p] + d| ==> ([p] + d)[i] == d[i - 1];
  }

  /** The assignment d[k] = v leaves every other key's value as it was. */
  lemma {:induction false} AssignKeepsOthers(d: Params, k: string, v: ParamValue, j: string)
    requires j != k
    ensures Lookup(Assign(d, k, v), j) == Lookup(d, j)
  {
    if |d| > 0 && d[0].0 != k {
      var r := Assign(d, k, v);
      assert r[1..] == Assign(d[1..], k, v);
      AssignKeepsOthers(d[1..], k, v, j);
    } else if |d| > 0 {
      assert Assign(d, k, v)[1..] == d[1..];
    }
  }

  lemma AssignOthers(d: Params, k: string, v: ParamValue)
    ensures forall j :: j != k ==> Lookup(Assign(d, k, v), j) == Lookup(d, j)
  {
    forall j | j != k ensures Lookup(Assign(d, k, v), j) == Lookup(d, j) {
      AssignKeepsOthers(d, k, v, j);
    }
  }

  /** A key that was never assigned has no value. */
  lemma {:induction false} LookupAbsent(d: Params, k: string)
    requires k !in ParamKeys(d)
    ensures Lookup(d, k) == None
  {
    if |d| > 0 {
      assert d[0].0 == ParamKeys(d)[0];
      assert ParamKeys(d[1..]) == ParamKeys(d)[1..];
      LookupAbsent(d[1..], k);
    }
  }

}
