/**
 * `apiRequest` of src/services/api.ts, split in its two halves around the opaque `fetch`:
 * BuildRequest decides what is sent, Classify decides what the caller gets back from the
 * response `fetch` produced. `apiRequest(path, httpMethod, body, token)` is
 * `Classify(fetch(BuildRequest(path, httpMethod, body, token)))`.
 */
module Api {
  import opened Outcomes
  import opened Json

  const ApiUrl: string := "http://10.0.2.2:3333"
  const JsonContentType: string := "application/json"
  const FallbackMessage: string := "Erro inesperado"

  /** The only two methods `apiRequest` accepts. */
  datatype Method = GET | POST

  datatype Header = Header(name: string, value: string)

  /** What is handed to `fetch`: `body` is the text sent, None when the body is left undefined. */
  datatype Request = Request(url: string, verb: Method, headers: seq<Header>, body: Option<string>)

  /**
   * What `fetch` produces: it rejects (no connection), or a response arrives. `json` is
   * what `res.json()` yields for its body (None when the body is not JSON and the call
   * rejects), `text` what `res.text()` yields, `contentType` its content-type header.
   */
  datatype Fetched =
    | Unreachable
    | Received(ok: bool, json: Option<Json>, contentType: Option<string>, text: string)

  /** Why a call to the backend rejects. */
  datatype Failure =
    | NetworkFailure        // `fetch` itself rejected
    | MalformedJson         // `res.json()` rejected: the body is not JSON
    | NullErrorBody         // a failed response whose body is `null`: reading `data.error` throws a TypeError
    | Raised(message: string)  // `throw new Error(message)`

  /** The value of the first header called `name`, as `fetch` reads the headers object. */
  function HeaderValue(headers: seq<Header>, name: string): (r: Option<string>)
    ensures r.Some? <==> exists i :: 0 <= i < |headers| && headers[i].name == name
  {
    if headers == [] then None
    else if headers[0].name == name then Some(headers[0].value)
    else HeaderValue(headers[1..], name)
  }

  /** `token ? ... : ...` on the optional token argument. */
  predicate TokenTruthy(token: Option<string>) {
    token.Some? && token.value != ""
  }

  /** The `Authorization: Bearer <token>` header of section 2.1 of RFC 6750. */
  function Bearer(token: string): Header {
    Header("Authorization", "Bearer " + token)
  }

  /**
   * The request `apiRequest(path, httpMethod, body, token)` hands to `fetch`. `httpMethod` and
   * `body` are None when the caller leaves them undefined.
   */
  function BuildRequest(path: string, httpMethod: Option<Method>, body: Option<Json>, token: Option<string>): (r: Request)
    ensures r.url == ApiUrl + path
    ensures httpMethod.None? ==> r.verb == GET
    ensures httpMethod.Some? ==> r.verb == httpMethod.value
    ensures HeaderValue(r.headers, "Content-Type") == Some(JsonContentType)
    ensures HeaderValue(r.headers, "Authorization").Some? <==> TokenTruthy(token)
    ensures TokenTruthy(token) ==> HeaderValue(r.headers, "Authorization") == Some("Bearer " + token.value)
    ensures forall h :: h in r.headers ==>
              h == Header("Content-Type", JsonContentType) || (TokenTruthy(token) && h == Bearer(token.value))
    ensures r.body.Some? <==> body.Some? && Truthy(body.value)
    ensures r.body.Some? ==> r.body.value == Serialize(body.value)
  {
    var headers := [Header("Content-Type", JsonContentType)] + (if TokenTruthy(token) then [Bearer(token.value)] else []);
    assert headers[0].name == "Content-Type";
    Request(
      ApiUrl + path,
      if httpMethod.Some? then httpMethod.value else GET,
      headers,
      if body.Some? && Truthy(body.value) then Some(Serialize(body.value)) else None)
  }

  /** The message of `new Error(data.error || "Erro inesperado")` for a parsed, non-null body. */
  function ErrorMessage(data: Json): (m: string)
    requires data != JNull
    ensures (exists e :: Property(data, "error") == Some(e) && Truthy(e)) ==> m == AsString(Property(data, "error").value)
    ensures (forall e :: Property(data, "error") == Some(e) ==> !Truthy(e)) ==> m == FallbackMessage
  {
    match Property(data, "error")
    case Some(e) => if Truthy(e) then AsString(e) else FallbackMessage
    case None => FallbackMessage
  }

  /**
   * What `apiRequest` resolves or rejects with, given what `fetch` produced. The body is
   * parsed before the status is looked at, so a body that is not JSON rejects with
   * MalformedJson whatever the status.
   */
  function Classify(f: Fetched): (r: Result<Json, Failure>)
    ensures r.Ok? <==> f.Received? && f.ok && f.json.Some?
    ensures r.Ok? ==> r.value == f.json.value
    ensures f.Unreachable? ==> r == Err(NetworkFailure)
    ensures f.Received? && f.json.None? ==> r == Err(MalformedJson)
    ensures f.Received? && !f.ok && f.json == Some(JNull) ==> r == Err(NullErrorBody)
    ensures f.Received? && !f.ok && f.json.Some? && f.json.value != JNull ==>
              r == Err(Raised(ErrorMessage(f.json.value)))
  {
    match f
    case Unreachable => Err(NetworkFailure)
    case Received(ok, json, _, _) =>
      match json
      case None => Err(MalformedJson)
      case Some(data) =>
        if ok then Ok(data)
        else if data == JNull then Err(NullErrorBody)
        else Err(Raised(ErrorMessage(data)))
  }

  /**
   * A failed response whose object body's `error` member (the last one, when the key is
   * repeated) is a non-empty string surfaces that string itself, wherever the member sits.
   */
  lemma ServerMessageSurfaces(ms: seq<Member>, m: string, contentType: Option<string>, text: string)
    requires m != "" && LastValue(ms, "error") == Some(JString(m))
    ensures Classify(Received(false, Some(JObject(ms)), contentType, text)) == Err(Raised(m))
  {
  }

  /** A non-zero numeric `error` member surfaces as its decimal text, as `String(n)` writes it. */
  lemma NumericErrorSurfaces(ms: seq<Member>, n: int, contentType: Option<string>, text: string)
    requires n != 0 && LastValue(ms, "error") == Some(JNumber(n))
    ensures Classify(Received(false, Some(JObject(ms)), contentType, text)) == Err(Raised(IntToDecimal(n)))
  {
  }

  /** A failed response whose JSON object has no `error` member falls back to the generic message. */
  lemma MissingErrorFallsBack(ms: seq<Member>, contentType: Option<string>, text: string)
    requires forall i :: 0 <= i < |ms| ==> ms[i].key != "error"
    ensures Classify(Received(false, Some(JObject(ms)), contentType, text)) == Err(Raised(FallbackMessage))
  {
  }

  /** An `error` member that is falsy (`""`, `0`, `false`, `null`) falls back to the generic message too. */
  lemma FalsyErrorFallsBack(ms: seq<Member>, contentType: Option<string>, text: string)
    requires LastValue(ms, "error").Some? && !Truthy(LastValue(ms, "error").value)
    ensures Classify(Received(false, Some(JObject(ms)), contentType, text)) == Err(Raised(FallbackMessage))
  {
  }
}
