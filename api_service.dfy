/** The front end's API client (frontend/src/services/apiService.ts): how an HTTP response
    becomes a value or an error message, and which request each call sends. The network is
    a function from request to response. */
module ApiService {
  import opened Text
  import App = Application

  /** A file picked in the browser: its name, size in bytes, MIME type and contents. */
  datatype FileRef = FileRef(name: string, size: nat, mime: string, content: string)

  /** A response body: JSON with its `error` field (absent, or the text it holds), or text
      that does not parse (with the `SyntaxError` message `res.json()` rejects with). */
  datatype Body<T> = Parsed(value: T, error: Option<string>) | Unparsable(syntaxError: string)

  datatype Response<T> = Response(status: nat, body: Body<T>)

  /** The fields of a share record (frontend/src/services/types.ts) the components read. */
  datatype ShareInfo = ShareInfo(code: string, contentType: string, fileName: Option<string>,
                                 fileSize: Option<int>, fileUrl: Option<string>)

  /** A settled call: its value, or the message of the `Error` it threw. */
  datatype Outcome<T> = Ok(value: T) | Err(message: string)

  /** `res.ok`: a 2xx status. */
  predicate IsOk(status: nat) {
    200 <= status <= 299
  }

  /** `handleResponse`: a 2xx body is returned as parsed; any other status throws the body's
      truthy `error`, or `Request failed with <status>` when there is none or the body does
      not parse. */
  function HandleResponse<T>(res: Response<T>): (r: Outcome<T>)
    ensures IsOk(res.status) && res.body.Parsed? ==> r == Ok(res.body.value)
    ensures IsOk(res.status) && res.body.Unparsable? ==> r == Err(res.body.syntaxError)
    ensures !IsOk(res.status) ==> r.Err?
    ensures !IsOk(res.status) && res.body.Parsed? && Truthy(res.body.error) ==> r.message == res.body.error.value
    ensures !IsOk(res.status) && !(res.body.Parsed? && Truthy(res.body.error)) ==>
      r.message == "Request failed with " + Decimal(res.status)
  {
    if !IsOk(res.status) then
      Err(if res.body.Parsed? && Truthy(res.body.error) then res.body.error.value
          else "Request failed with " + Decimal(res.status))
    else match res.body
      case Parsed(v, _) => Ok(v)
      case Unparsable(e) => Err(e)
  }

  /** The status a `Request failed with <status>` message names, if it is one. */
  function StatusInMessage(m: string): Option<nat> {
    if StartsWith(m, "Request failed with ") && |m| > 20 && forall i :: 20 <= i < |m| ==> IsDigit(m[i]) then
      Some(DigitsValue(m[20..]))
    else None
  }

  /** A failed status never yields a value, and when the server gave no error text the
      message names the status, which can be read back from it. */
  lemma FailedStatusMessage<T>(status: nat, body: Body<T>)
    requires !IsOk(status) && !(body.Parsed? && Truthy(body.error))
    ensures HandleResponse(Response(status, body)).Err?
    ensures StatusInMessage(HandleResponse(Response(status, body)).message) == Some(status)
  {
    var m := HandleResponse(Response(status, body)).message;
    assert m[20..] == Decimal(status);
    assert m[..20] == "Request failed with ";
    DecimalValue(status);
  }

  /** A form field: the file part or a text part. */
  datatype FormValue = FilePart(file: FileRef) | TextPart(text: string)

  /** The browser's `FormData`, filled by `append` in call order. */
  class FormData {
    var entries: seq<(string, FormValue)>

    constructor()
      ensures entries == []
    {
      entries := [];
    }

    method Append(name: string, value: FormValue)
      modifies this
      ensures entries == old(entries) + [(name, value)]
    {
      entries := entries + [(name, value)];
    }
  }

  /** The two request shapes `POST /api/shares` is sent with. */
  datatype CreateRequest =
    | MultipartRequest(form: seq<(string, FormValue)>)
    | JsonRequest(text: Option<string>)

  /** The request `createShare` sends: multipart with the file and, only when it is
      non-empty, the text; otherwise JSON `{text: text || null}`. */
  function CreateRequestFor(text: Option<string>, file: Option<FileRef>): (req: CreateRequest)
    ensures req.MultipartRequest? <==> file.Some?
    ensures req.MultipartRequest? ==> |req.form| >= 1 && req.form[0] == ("file", FilePart(file.value))
    ensures req.MultipartRequest? ==> (|req.form| == 2 <==> Truthy(text)) && |req.form| <= 2
    ensures req.MultipartRequest? && |req.form| == 2 ==> req.form[1] == ("text", TextPart(text.value))
    ensures req.JsonRequest? ==> (req.text.Some? <==> Truthy(text)) && (req.text.Some? ==> req.text == text)
  {
    if file.Some? then
      MultipartRequest([("file", FilePart(file.value))] + (if Truthy(text) then [("text", TextPart(text.value))] else []))
    else JsonRequest(if Truthy(text) then text else None)
  }

  /** The `createShare` branch itself, filling a `FormData` with `append`. */
  method BuildCreateRequest(text: Option<string>, file: Option<FileRef>) returns (req: CreateRequest)
    ensures req == CreateRequestFor(text, file)
  {
    if file.Some? {
      var form := new FormData();
      form.Append("file", FilePart(file.value));
      if Truthy(text) {
        form.Append("text", TextPart(text.value));
      }
      req := MultipartRequest(form.entries);
    } else {
      req := JsonRequest(if Truthy(text) then text else None);
    }
  }

  /** A request as this client builds it: the file part first. */
  predicate WellFormed(req: CreateRequest) {
    req.MultipartRequest? ==> |req.form| >= 1 && req.form[0].1.FilePart?
  }

  /** The body the backend's `create_share` reads from a request this client sends. */
  function AsBackendBody(req: CreateRequest): (b: App.CreateBody)
    requires WellFormed(req)
    ensures App.ClientCode(b).None?
  {
    match req
    case MultipartRequest(form) =>
      var f := form[0].1.file;
      App.Multipart(None,
                    if |form| >= 2 && form[1].1.TextPart? then Some(form[1].1.text) else None,
                    Some(App.Upload(f.name, f.size, f.size)))
    case JsonRequest(t) => App.NonMultipart(Some(App.JsonShare(None, t)))
  }

  /** Dropping an empty text or sending `null` loses nothing: the backend stores the same
      `text_content` as it would for the text itself. */
  lemma CreateRequestKeepsText(text: Option<string>, file: Option<FileRef>)
    ensures WellFormed(CreateRequestFor(text, file))
    ensures App.NormalizeText(App.ClientText(AsBackendBody(CreateRequestFor(text, file)))) == App.NormalizeText(text)
  {
    var sent := App.ClientText(AsBackendBody(CreateRequestFor(text, file)));
    if Truthy(text) {
      assert sent == text;
    } else {
      assert OrElse(sent, "") == "" && OrElse(text, "") == "";
    }
  }

  /** `createShare`: send the request, then read the reply as `handleResponse` does. */
  method CreateShare<T>(text: Option<string>, file: Option<FileRef>, send: CreateRequest -> Response<T>)
    returns (r: Outcome<T>)
    ensures r == HandleResponse(send(CreateRequestFor(text, file)))
  {
    var req := BuildCreateRequest(text, file);
    r := HandleResponse(send(req));
  }

  /** A request to the backend: its path and its query parameters. */
  datatype Request = Request(path: string, query: seq<(string, string)>)

  /** `URLSearchParams.get`: the first value under `name`. */
  function QueryGet(query: seq<(string, string)>, name: string): Option<string> {
    if query == [] then None else if query[0].0 == name then Some(query[0].1) else QueryGet(query[1..], name)
  }

  /** `getShareByCode`: `GET /api/shares/<code>` (the code percent-encoded on the wire). */
  function GetShareRequest(code: string): (req: Request)
    ensures StartsWith(req.path, "/api/shares/") && req.path[12..] == code
  {
    Request("/api/shares/" + code, [])
  }

  function GetShareByCode<T>(code: string, send: Request -> Response<T>): Outcome<T> {
    HandleResponse(send(GetShareRequest(code)))
  }

  /** `downloadFile`: every locator, public URL or `proxy:` path, goes to the backend proxy. */
  function DownloadRequest(fileUrl: string): (req: Request)
    ensures req.path == "/api/files/fetch"
    ensures QueryGet(req.query, "url") == Some(fileUrl)
  {
    Request("/api/files/fetch", [("url", fileUrl)])
  }

  /** The blob on a 2xx reply, else `Download failed with <status>`. */
  function DownloadFile(fileUrl: string, send: Request -> (nat, seq<int>)): (r: Outcome<seq<int>>)
    ensures IsOk(send(DownloadRequest(fileUrl)).0) <==> r.Ok?
    ensures r.Ok? ==> r.value == send(DownloadRequest(fileUrl)).1
    ensures r.Err? ==> r.message == "Download failed with " + Decimal(send(DownloadRequest(fileUrl)).0)
  {
    var (status, blob) := send(DownloadRequest(fileUrl));
    if IsOk(status) then Ok(blob) else Err("Download failed with " + Decimal(status))
  }

  /** The backend reads back the locator the client put in the query, so a `proxy:` locator
      reaches the proxy branch of `fetch_file` unchanged. */
  lemma DownloadReachesProxy(bucket: string, path: string)
    requires '/' !in bucket
    ensures var url := QueryGet(DownloadRequest(App.ProxyLocator(bucket, path)).query, "url");
      Truthy(url) && StartsWith(url.value, "proxy:") && App.SplitBucketPath(url.value[6..]) == Some((bucket, path))
  {
    App.ProxyLocatorRoundTrip(bucket, path);
  }
}
