/**
 * src/services/export.ts: both calls first read the stored token and reject locally
 * without any request when there is none; the summary goes through `apiRequest`, the
 * download calls `fetch` directly with its own error fallback.
 */
module Export {
  import opened Outcomes
  import opened Json
  import opened Api
  import opened Storage

  const MissingTokenMessage: string := "Token nao encontrado"
  const ExportFallbackMessage: string := "Erro ao exportar"
  const SummaryPath: string := "/export/summary"

  /** A call that may or may not reach the network: the request sent, if any, and its outcome. */
  datatype Exchange<T> = Exchange(sent: Option<Request>, result: Result<T, Failure>)

  datatype Format = Csv | JsonFile

  /** What a successful download resolves with. */
  datatype Download = Download(text: string, contentType: string)

  function FormatName(format: Format): string {
    match format
    case Csv => "csv"
    case JsonFile => "json"
  }

  /** `getToken()`: the stored token, or a rejection when none (or an empty one) is stored. */
  function GetToken(entries: map<string, string>): (r: Result<string, Failure>)
    ensures r.Ok? <==> TokenKey in entries && entries[TokenKey] != ""
    ensures r.Ok? ==> r.value == entries[TokenKey]
    ensures r.Err? ==> r.error == Raised(MissingTokenMessage)
  {
    match Lookup(entries, TokenKey)
    case Some(token) => if token != "" then Ok(token) else Err(Raised(MissingTokenMessage))
    case None => Err(Raised(MissingTokenMessage))
  }

  /** `getExportSummary()`, given the store and what `fetch` would produce. */
  function GetExportSummary(entries: map<string, string>, reply: Fetched): (x: Exchange<Json>)
    ensures x.sent.None? <==> GetToken(entries).Err?
    ensures x.sent.None? ==> x.result == Err(Raised(MissingTokenMessage))
    ensures x.sent.Some? ==>
              && x.sent.value.url == ApiUrl + SummaryPath
              && x.sent.value.verb == GET
              && x.sent.value.body.None?
              && HeaderValue(x.sent.value.headers, "Authorization") == Some("Bearer " + entries[TokenKey])
              && x.result == Classify(reply)
  {
    match GetToken(entries)
    case Err(e) => Exchange(None, Err(e))
    case Ok(token) => Exchange(Some(BuildRequest(SummaryPath, Some(GET), None, Some(token))), Classify(reply))
  }

  /** The request `downloadExport(format)` hands to `fetch`: a GET with only the bearer header. */
  function DownloadRequest(token: string, format: Format): Request {
    Request(ApiUrl + "/export?format=" + FormatName(format), GET, [Bearer(token)], None)
  }

  /** `data?.error || "Erro ao exportar"`, where `data` is null when the body did not parse. */
  function DownloadErrorMessage(data: Option<Json>): (m: string)
    ensures data.None? || data.value == JNull ==> m == ExportFallbackMessage
  {
    if data.None? || data.value == JNull then ExportFallbackMessage
    else match Property(data.value, "error")
      case Some(e) => if Truthy(e) then AsString(e) else ExportFallbackMessage
      case None => ExportFallbackMessage
  }

  /** `downloadExport(format)`, given the store and what `fetch` would produce. */
  function DownloadExport(entries: map<string, string>, format: Format, reply: Fetched): (x: Exchange<Download>)
    ensures x.sent.None? <==> GetToken(entries).Err?
    ensures x.sent.None? ==> x.result == Err(Raised(MissingTokenMessage))
    ensures x.sent.Some? ==>
              && x.sent.value.url == ApiUrl + "/export?format=" + FormatName(format)
              && x.sent.value.verb == GET
              && x.sent.value.headers == [Header("Authorization", "Bearer " + entries[TokenKey])]
              && x.sent.value.body.None?
    ensures x.sent.Some? && reply.Unreachable? ==> x.result == Err(NetworkFailure)
    ensures x.sent.Some? && reply.Received? && reply.ok ==>
              x.result == Ok(Download(reply.text, OrElse(reply.contentType, "")))
    ensures x.sent.Some? && reply.Received? && !reply.ok ==>
              x.result == Err(Raised(DownloadErrorMessage(reply.json)))
  {
    match GetToken(entries)
    case Err(e) => Exchange(None, Err(e))
    case Ok(token) =>
      var sent := Some(DownloadRequest(token, format));
      match reply
      case Unreachable => Exchange(sent, Err(NetworkFailure))
      case Received(ok, json, contentType, text) =>
        if !ok then Exchange(sent, Err(Raised(DownloadErrorMessage(json))))
        else Exchange(sent, Ok(Download(text, OrElse(contentType, ""))))
  }

  /**
   * A failed response whose body is not JSON: `apiRequest` (and so the summary) rejects
   * with the parse error itself, while the download falls back to its own message.
   */
  lemma UnparsableErrorBody(entries: map<string, string>, format: Format, contentType: Option<string>, text: string)
    requires GetToken(entries).Ok?
    ensures GetExportSummary(entries, Received(false, None, contentType, text)).result == Err(MalformedJson)
    ensures DownloadExport(entries, format, Received(false, None, contentType, text)).result ==
            Err(Raised(ExportFallbackMessage))
  {
  }

  /**
   * A failed download whose object body's `error` member (the last one, when repeated) is
   * a non-empty string raises that string, wherever the member sits.
   */
  lemma DownloadServerMessage(entries: map<string, string>, format: Format, ms: seq<Member>, m: string,
                              contentType: Option<string>, text: string)
    requires GetToken(entries).Ok? && m != "" && LastValue(ms, "error") == Some(JString(m))
    ensures DownloadExport(entries, format, Received(false, Some(JObject(ms)), contentType, text)).result == Err(Raised(m))
  {
  }

  /** A failed download whose body has no `error` member, or a falsy one, raises "Erro ao exportar". */
  lemma DownloadMissingErrorFallsBack(entries: map<string, string>, format: Format, ms: seq<Member>,
                                      contentType: Option<string>, text: string)
    requires GetToken(entries).Ok?
    requires LastValue(ms, "error").None? || !Truthy(LastValue(ms, "error").value)
    ensures DownloadExport(entries, format, Received(false, Some(JObject(ms)), contentType, text)).result ==
            Err(Raised(ExportFallbackMessage))
  {
  }

  /**
   * For a parsed, non-null body the download raises the same message `apiRequest` would
   * whenever the body carries a truthy `error`; otherwise each falls back to its own text.
   */
  lemma DownloadMessageMatchesApi(d: Json)
    requires d != JNull
    ensures (exists e :: Property(d, "error") == Some(e) && Truthy(e)) ==> DownloadErrorMessage(Some(d)) == ErrorMessage(d)
    ensures (forall e :: Property(d, "error") == Some(e) ==> !Truthy(e)) ==>
              ErrorMessage(d) == FallbackMessage && DownloadErrorMessage(Some(d)) == ExportFallbackMessage
  {
  }
}
