/** The Flask backend's decision logic (backend/application.py): share codes, bearer
    tokens, share creation, lookup, the file proxy and the per-user stats. Supabase calls,
    the clock and `random` are parameters; HTTP replies are values. */
module Application {
  import opened Text
  import Config
  import SC = SupabaseClient

  /** A JSON reply: a success with its status and payload, or an error body `{"error": ...}`. */
  datatype Reply<T> = Success(status: nat, value: T) | Failure(status: nat, error: string)

  // ---------------------------------------------------------------------------
  // Share codes

  /** `string.ascii_uppercase + string.digits`. */
  const CodeAlphabet: string := "ABCDEFGHIJKLMNOPQRSTUVWXYZ" + "0123456789"

  /** One draw of `random.choice` over the 36-character alphabet. */
  type Draw = i: nat | i < 36

  predicate IsCodeChar(c: char) {
    'A' <= c <= 'Z' || '0' <= c <= '9'
  }

  /** The character a draw picks, computed from its position in the alphabet. */
  function CodeChar(d: Draw): (c: char)
    ensures IsCodeChar(c)
  {
    if d < 26 then ('A' as int + d) as char else ('0' as int + (d - 26)) as char
  }

  /** The alphabet is `A` to `Z` then `0` to `9`, so a draw picks `CodeChar` of itself. */
  lemma AlphabetIsCodeChars()
    ensures |CodeAlphabet| == 36
    ensures forall d: Draw :: CodeAlphabet[d] == CodeChar(d)
  {
  }

  /** `_generate_code(length)`: `draw(i)` is the i-th choice made by `random.choice`. */
  function GenerateCode(length: nat, draw: nat -> Draw): (code: string)
    ensures |code| == length
    ensures forall i :: 0 <= i < length ==> IsCodeChar(code[i])
  {
    var code := seq(length, i requires 0 <= i < length => CodeChar(draw(i)));
    assert forall i :: 0 <= i < length ==> code[i] == CodeChar(draw(i));
    code
  }

  /** The position of a code character in the alphabet. */
  function AlphabetIndex(c: char): (i: Draw)
    requires IsCodeChar(c)
    ensures CodeChar(i) == c
  {
    if 'A' <= c <= 'Z' then c as int - 'A' as int else 26 + (c as int - '0' as int)
  }

  /** Every code of the requested length over `[A-Z0-9]` can be produced: the code space
      is the full 36^length set. */
  lemma EveryCodeReachable(code: string)
    requires forall i :: 0 <= i < |code| ==> IsCodeChar(code[i])
    ensures exists draw: nat -> Draw :: GenerateCode(|code|, draw) == code
  {
    var draw: nat -> Draw := (i: nat) => if i < |code| then AlphabetIndex(code[i]) else 0;
    assert GenerateCode(|code|, draw) == code;
  }

  // ---------------------------------------------------------------------------
  // Authorization header

  /** `auth_header.split(" ", 1)[1]`: the text after the first space. */
  function AfterFirstSpace(s: string): string
    requires ' ' in s
  {
    s[IndexOf(s, ' ') + 1..]
  }

  /** The token of a `Bearer` Authorization header (absent header = ""), stripped. */
  function BearerToken(header: string): (token: Option<string>)
    ensures token.Some? <==> StartsWith(header, "Bearer ")
    ensures token.Some? ==> token.value == Strip(Python, header[7..]) && IsStripped(Python, token.value)
  {
    if StartsWith(header, "Bearer ") then
      assert header[6] == ' ' && ' ' !in header[..6];
      Some(Strip(Python, AfterFirstSpace(header)))
    else None
  }

  /** A header built as `Bearer <t>` gives back `t`, stripped. */
  lemma BearerRoundTrip(t: string)
    ensures BearerToken("Bearer " + t) == Some(Strip(Python, t))
  {
    assert ("Bearer " + t)[7..] == t;
  }

  /** What `client.auth.get_user(token)` produced. */
  datatype UserLookup = UserFound(id: string) | NoUser | LookupRaised(message: string)

  datatype Authorization = ClientFailure(message: string) | Unauthorized(message: string) | Authorized(userId: string)

  /** The user id a lookup yields (`user_id or None`). */
  function LookupUserId(l: UserLookup): Option<string> {
    if l.UserFound? && l.id != "" then Some(l.id) else None
  }

  /** The gate in front of every per-user endpoint (`/api/me/...`): client, then header, then user. */
  function Authorize(client: SC.ClientResult, header: string, getUser: string -> UserLookup): (a: Authorization)
    ensures a.ClientFailure? <==> client.error.Some? || client.client.None?
    ensures a.ClientFailure? ==> a.message == OrElse(client.error, "Failed to create Supabase client")
    ensures !a.ClientFailure? && !StartsWith(header, "Bearer ") ==>
      a == Unauthorized("Missing or invalid Authorization header")
    ensures !a.ClientFailure? && StartsWith(header, "Bearer ") ==>
      var l := getUser(BearerToken(header).value);
      if l.UserFound? && l.id != "" then a == Authorized(l.id) else a == Unauthorized("Invalid token")
    ensures a.Authorized? ==>
      StartsWith(header, "Bearer ") && a.userId != "" && getUser(BearerToken(header).value) == UserFound(a.userId)
  {
    if client.error.Some? || client.client.None? then ClientFailure(OrElse(client.error, "Failed to create Supabase client"))
    else match BearerToken(header)
      case None => Unauthorized("Missing or invalid Authorization header")
      case Some(token) =>
        match LookupUserId(getUser(token))
        case None => Unauthorized("Invalid token")
        case Some(id) => Authorized(id)
  }

  /** A missing or non-Bearer header is refused before any user lookup: the answer does
      not depend on what the lookup would have said. */
  lemma NoLookupWithoutBearer(client: SC.ClientResult, header: string, g1: string -> UserLookup, g2: string -> UserLookup)
    requires !StartsWith(header, "Bearer ")
    ensures Authorize(client, header, g1) == Authorize(client, header, g2)
  {
  }

  function AuthFailureReply<T>(a: Authorization): Reply<T>
    requires !a.Authorized?
  {
    if a.ClientFailure? then Failure(500, a.message) else Failure(401, a.message)
  }

  // ---------------------------------------------------------------------------
  // Share creation

  /** An uploaded file part: its name (possibly empty), its declared length and its size. */
  datatype Upload = Upload(filename: string, contentLength: nat, size: nat)

  /** The request body: a multipart form (content type `multipart/form-data...`) or
      anything else, read as JSON when it parses (absent otherwise). */
  datatype CreateBody =
    | Multipart(formCode: Option<string>, formText: Option<string>, file: Option<Upload>)
    | NonMultipart(json: Option<JsonShare>)

  datatype JsonShare = JsonShare(code: Option<string>, text: Option<string>)

  /** What the storage bucket did with an upload: raised, answered with an error dict, or
      stored the object; then the public and signed URLs it offered (falsy ones count as none). */
  datatype StorageOutcome =
    | UploadRaised(message: string)
    | UploadRejected(error: string)
    | Uploaded(publicUrl: Option<string>, signedUrl: Option<string>)

  /** What the insert into `shares` did. */
  datatype InsertOutcome = InsertOk(row: Option<SC.Row>) | InsertRaised(message: string)

  /** The record inserted into `shares` and echoed back. */
  datatype SharePayload = SharePayload(
    code: string,
    contentType: string,
    textContent: Option<string>,
    fileName: Option<string>,
    fileSize: Option<nat>,
    fileUrl: Option<string>,
    userId: Option<string>)

  datatype CreatedShare = CreatedShare(payload: SharePayload, row: Option<SC.Row>)

  const Bucket: string := "shared-files"

  /** `(text or "").strip() or None`. */
  function NormalizeText(text: Option<string>): (r: Option<string>)
    ensures r.None? <==> Strip(Python, OrElse(text, "")) == ""
    ensures r.Some? ==> r.value == Strip(Python, text.value) && IsStripped(Python, r.value)
  {
    var t := Strip(Python, OrElse(text, ""));
    if t == "" then None else Some(t)
  }

  /** `name.rsplit('.', 1)[-1] if '.' in name else 'bin'`. */
  function Extension(name: string): (ext: string)
    ensures '.' !in ext
    ensures '.' !in name ==> ext == "bin"
    ensures '.' in name ==> exists k :: 0 <= k < |name| && name == name[..k] + "." + ext
  {
    if '.' in name then
      var k := LastIndexOf(name, '.');
      assert name == name[..k] + "." + name[k + 1..];
      name[k + 1..]
    else "bin"
  }

  /** `"{code}-{int(time.time())}.{ext}"`. */
  function StoragePath(code: string, now: nat, name: string): string {
    code + "-" + Decimal(now) + "." + Extension(name)
  }

  /** `f"proxy:{bucket}/{path}"`: the locator the backend proxy resolves itself. */
  function ProxyLocator(bucket: string, path: string): string {
    "proxy:" + bucket + "/" + path
  }

  /** `proxy_part.split("/", 1)` unpacked into bucket and path; absent when there is no `/`. */
  function SplitBucketPath(proxyPart: string): (r: Option<(string, string)>)
    ensures r.Some? <==> '/' in proxyPart
    ensures r.Some? ==> '/' !in r.value.0 && proxyPart == r.value.0 + "/" + r.value.1
  {
    if '/' in proxyPart then
      var i := IndexOf(proxyPart, '/');
      assert proxyPart == proxyPart[..i] + "/" + proxyPart[i + 1..];
      Some((proxyPart[..i], proxyPart[i + 1..]))
    else None
  }

  /** The locator built at creation is split back by the file proxy into the same bucket
      and path, whatever the path holds, as long as the bucket has no `/`. */
  lemma ProxyLocatorRoundTrip(bucket: string, path: string)
    requires '/' !in bucket
    ensures StartsWith(ProxyLocator(bucket, path), "proxy:")
    ensures SplitBucketPath(ProxyLocator(bucket, path)[6..]) == Some((bucket, path))
  {
    var loc := ProxyLocator(bucket, path);
    var part := bucket + "/" + path;
    assert loc == "proxy:" + part;
    assert loc[..6] == "proxy:" && loc[6..] == part;
    assert part[|bucket|] == '/' && part[..|bucket|] == bucket;
    IndexOfFirst(part, '/', |bucket|);
    assert part[..|bucket|] == bucket && part[|bucket| + 1..] == path;
    assert SplitBucketPath(part) == Some((bucket, path));
  }

  /** The insert was refused by a row-level security policy. */
  predicate RlsRefusal(message: string) {
    Contains(Lower(message), "row level security") || Contains(message, "42501")
  }

  /** The insert was refused for want of valid credentials. */
  predicate AuthRefusal(message: string) {
    Contains(message, "401") || Contains(Lower(message), "unauthorized")
  }

  const RlsMessage: string :=
    "Insert blocked by RLS; ensure service role key is used on the backend and policies permit insert."
  const AuthMessage: string :=
    "Unauthorized to insert; check SUPABASE_SERVICE_ROLE_KEY is set and valid."

  /** The status and message for an insert that raised: 403 for a row-level security
      refusal, else 401 for a credentials refusal, else 500 carrying the message. */
  function InsertFailure(message: string): (r: Reply<CreatedShare>)
    ensures r.Failure?
    ensures r.status == 403 <==> RlsRefusal(message)
    ensures r.status == 401 <==> !RlsRefusal(message) && AuthRefusal(message)
    ensures r.status == 500 <==> !RlsRefusal(message) && !AuthRefusal(message)
    ensures r.status == 500 ==> r.error == "Failed to create share: " + message
  {
    if RlsRefusal(message) then Failure(403, RlsMessage)
    else if AuthRefusal(message) then Failure(401, AuthMessage)
    else Failure(500, "Failed to create share: " + message)
  }

  /** The multipart file part counts as a file. The guard reads `uploaded and (filename or
      content_length)`, but an upload is truthy only when it has a name, so a nameless part
      is never a file, whatever its length. */
  predicate HasFile(body: CreateBody) {
    body.Multipart? && body.file.Some? && body.file.value.filename != ""
  }

  /** A nameless file part is ignored: the share is created as text. */
  lemma NamelessPartIgnored(formCode: Option<string>, formText: Option<string>, length: nat, size: nat)
    ensures !HasFile(Multipart(formCode, formText, Some(Upload("", length, size))))
  {
  }

  /** The code field the client sent, if any. */
  function ClientCode(body: CreateBody): Option<string> {
    match body
    case Multipart(c, _, _) => c
    case NonMultipart(j) => if j.Some? then j.value.code else None
  }

  /** The text field the client sent, if any. */
  function ClientText(body: CreateBody): Option<string> {
    match body
    case Multipart(_, t, _) => t
    case NonMultipart(j) => if j.Some? then j.value.text else None
  }

  /** The name a file is stored under: its own, or `upload-<now>`. */
  function UploadName(u: Upload, now: nat): string {
    if u.filename != "" then u.filename else "upload-" + Decimal(now)
  }

  /** The file URL chosen after an upload: the public URL, else a signed URL, else the
      proxy locator for the stored object. */
  function ChosenFileUrl(publicUrl: Option<string>, signedUrl: Option<string>, path: string): string {
    if Truthy(publicUrl) then publicUrl.value
    else if Truthy(signedUrl) then signedUrl.value
    else ProxyLocator(Bucket, path)
  }

  /** `code or _generate_code()`: the client's code when it is truthy, else a fresh one. */
  function ShareCode(given: Option<string>, draw: nat -> Draw): (code: string)
    ensures Truthy(given) ==> code == given.value
    ensures !Truthy(given) ==> code == GenerateCode(Config.CodeLength, draw)
  {
    if Truthy(given) then given.value else GenerateCode(Config.CodeLength, draw)
  }

  /** What the share created from `body` holds: the client's code or a generated one, the
      normalised text, content type `file` exactly when a file came, and for a file its
      stored name, its size and the URL chosen after a successful upload. */
  predicate PayloadFor(body: CreateBody, draw: nat -> Draw, now: nat, storage: StorageOutcome, p: SharePayload) {
    && p.code == ShareCode(ClientCode(body), draw)
    && p.textContent == NormalizeText(ClientText(body))
    && (p.contentType == "file" <==> HasFile(body))
    && (p.contentType == "text" <==> !HasFile(body))
    && (HasFile(body) ==>
          && p.fileName == Some(UploadName(body.file.value, now))
          && p.fileSize == Some(body.file.value.size)
          && storage.Uploaded?
          && p.fileUrl == Some(ChosenFileUrl(storage.publicUrl, storage.signedUrl,
                                             StoragePath(p.code, now, UploadName(body.file.value, now)))))
    && (!HasFile(body) ==> p.fileName.None? && p.fileSize.None? && p.fileUrl.None?)
  }

  /** A file kept in the bucket (its name, size and URL), or the reply that ends the request. */
  datatype StoredFile = Stored(name: string, size: nat, url: string) | UploadFailed(status: nat, error: string)

  /** The upload step of `create_share`: an oversized file is refused with 400 before
      anything is stored, a failed upload is 500, and a stored file is named after the
      upload (or `upload-<now>`), keeps its size and gets the URL `ChosenFileUrl` picks. */
  method StoreUpload(uploaded: Upload, code: string, now: nat, storage: StorageOutcome) returns (r: StoredFile)
    ensures uploaded.size > Config.MaxFileSize ==> r == UploadFailed(400, "File too large")
    ensures uploaded.size <= Config.MaxFileSize ==> (r.Stored? <==> storage.Uploaded?)
    ensures uploaded.size <= Config.MaxFileSize && r.UploadFailed? ==> r.status == 500
    ensures uploaded.size <= Config.MaxFileSize && storage.UploadRaised? ==>
      r == UploadFailed(500, "Upload failed: " + storage.message)
    ensures uploaded.size <= Config.MaxFileSize && storage.UploadRejected? ==>
      r == UploadFailed(500, "Upload failed: " + storage.error)
    ensures r.Stored? ==>
      var name := UploadName(uploaded, now);
      r == Stored(name, uploaded.size, ChosenFileUrl(storage.publicUrl, storage.signedUrl, StoragePath(code, now, name)))
  {
    if uploaded.size > Config.MaxFileSize {
      return UploadFailed(400, "File too large");
    }
    var name := UploadName(uploaded, now);
    var path := StoragePath(code, now, name);
    match storage {
      case UploadRaised(m) =>
        r := UploadFailed(500, "Upload failed: " + m);
      case UploadRejected(e) =>
        r := UploadFailed(500, "Upload failed: " + e);
      case Uploaded(pub, signed) =>
        r := Stored(name, uploaded.size, ChosenFileUrl(pub, signed, path));
    }
  }

  /** The part of `create_share` that reads the body and stores the file: it fails with
      400 "File too large" exactly for an oversized file, with 500 when the upload fails,
      and otherwise yields the record to insert. */
  method BuildPayload(body: CreateBody, draw: nat -> Draw, now: nat, storage: StorageOutcome, userId: Option<string>)
    returns (r: Reply<SharePayload>)
    ensures r == Failure(400, "File too large") <==> HasFile(body) && body.file.value.size > Config.MaxFileSize
    ensures r.Failure? ==> r.status == 400 || r.status == 500
    ensures HasFile(body) && body.file.value.size <= Config.MaxFileSize && storage.UploadRaised? ==>
      r == Failure(500, "Upload failed: " + storage.message)
    ensures HasFile(body) && body.file.value.size <= Config.MaxFileSize && storage.UploadRejected? ==>
      r == Failure(500, "Upload failed: " + storage.error)
    ensures r.Success? <==> Storable(body, storage)
    ensures r.Success? ==> PayloadFor(body, draw, now, storage, r.value) && r.value.userId == userId
  {
    var code: string;
    var textContent: Option<string>;
    var fileName: Option<string> := None;
    var fileSize: Option<nat> := None;
    var fileUrl: Option<string> := None;
    var hadFile := false;

    if body.Multipart? {
      code := ShareCode(body.formCode, draw);
      textContent := NormalizeText(body.formText);
      assert code == ShareCode(ClientCode(body), draw) && textContent == NormalizeText(ClientText(body));
      if HasFile(body) {
        hadFile := true;
        var stored := StoreUpload(body.file.value, code, now, storage);
        if stored.UploadFailed? {
          return Failure(stored.status, stored.error);
        }
        fileUrl, fileName, fileSize := Some(stored.url), Some(stored.name), Some(stored.size);
      }
    } else {
      var json := if body.json.Some? then body.json.value else JsonShare(None, None);
      code := ShareCode(json.code, draw);
      textContent := NormalizeText(json.text);
      assert code == ShareCode(ClientCode(body), draw) && textContent == NormalizeText(ClientText(body));
    }

    var contentType := if hadFile then "file" else "text";
    r := Success(201, SharePayload(code, contentType, textContent, fileName, fileSize, fileUrl, userId));
  }

  /** The body can be turned into a record: no file came, or it fits and the bucket stored it. */
  predicate Storable(body: CreateBody, storage: StorageOutcome) {
    !HasFile(body) || (body.file.value.size <= Config.MaxFileSize && storage.Uploaded?)
  }

  /** The owner recorded on a new share: the user a `Bearer` token resolves to, or none
      (no header, a lookup that found nobody, or one that raised). */
  function RequestUser(header: string, getUser: string -> UserLookup): (id: Option<string>)
    ensures id.Some? <==> StartsWith(header, "Bearer ") && getUser(BearerToken(header).value).UserFound?
                          && getUser(BearerToken(header).value).id != ""
    ensures id.Some? ==> getUser(BearerToken(header).value) == UserFound(id.value)
  {
    match BearerToken(header)
    case None => None
    case Some(token) => LookupUserId(getUser(token))
  }

  /** `create_share`. `draw` stands for `random`, `now` for `int(time.time())`. */
  method CreateShare(
    client: SC.ClientResult, header: string, getUser: string -> UserLookup,
    body: CreateBody, draw: nat -> Draw, now: nat,
    storage: StorageOutcome, insert: InsertOutcome)
    returns (reply: Reply<CreatedShare>)
    ensures client.error.Some? || client.client.None? ==>
      reply == Failure(500, OrElse(client.error, "Failed to create Supabase client"))
    ensures client.error.None? && client.client.Some? ==>
      (reply == Failure(400, "File too large") <==> HasFile(body) && body.file.value.size > Config.MaxFileSize)
    ensures client.error.None? && client.client.Some? && HasFile(body) && body.file.value.size <= Config.MaxFileSize &&
            storage.UploadRaised? ==>
      reply == Failure(500, "Upload failed: " + storage.message)
    ensures client.error.None? && client.client.Some? && HasFile(body) && body.file.value.size <= Config.MaxFileSize &&
            storage.UploadRejected? ==>
      reply == Failure(500, "Upload failed: " + storage.error)
    ensures client.error.None? && client.client.Some? && Storable(body, storage) && insert.InsertRaised? ==>
      reply == InsertFailure(insert.message)
    ensures reply.Success? <==> client.error.None? && client.client.Some? && Storable(body, storage) && insert.InsertOk?
    ensures reply.Success? ==> reply.status == 201 && PayloadFor(body, draw, now, storage, reply.value.payload)
    ensures reply.Success? ==> insert == InsertOk(reply.value.row)
    ensures reply.Success? ==> reply.value.payload.userId == RequestUser(header, getUser)
  {
    if client.error.Some? || client.client.None? {
      return Failure(500, OrElse(client.error, "Failed to create Supabase client"));
    }

    var userId: Option<string> := None;
    var token := BearerToken(header);
    if token.Some? {
      userId := LookupUserId(getUser(token.value));
    }
    assert userId == RequestUser(header, getUser);

    var built := BuildPayload(body, draw, now, storage, userId);
    if built.Failure? {
      return Failure(built.status, built.error);
    }
    reply := InsertShare(built.value, insert);
  }

  /** The insert into `shares`: the created share with status 201, or the insert failure. */
  method InsertShare(payload: SharePayload, insert: InsertOutcome) returns (reply: Reply<CreatedShare>)
    ensures insert.InsertOk? ==> reply == Success(201, CreatedShare(payload, insert.row))
    ensures insert.InsertRaised? ==> reply == InsertFailure(insert.message) && reply.Failure? && reply.status != 400
  {
    match insert {
      case InsertRaised(m) =>
        reply := InsertFailure(m);
      case InsertOk(row) =>
        reply := Success(201, CreatedShare(payload, row));
    }
  }

  // ---------------------------------------------------------------------------
  // Share lookup

  /** `get_share` once the RPC has answered: an RPC error falls back to a select on the
      upper-cased code; an RPC without a row is 404. */
  function GetShareWith(code: string, lookup: SC.RpcResult, select: string -> SC.CallOutcome<seq<SC.Row>>): (r: Reply<SC.Row>)
    ensures Truthy(lookup.error) && select(Upper(code)).Returned? && select(Upper(code)).value != [] ==>
      r == Success(200, select(Upper(code)).value[0])
    ensures Truthy(lookup.error) && select(Upper(code)) == SC.Returned([]) ==> r == Failure(404, "Not found")
    ensures Truthy(lookup.error) && select(Upper(code)).Raised? ==> r == Failure(500, select(Upper(code)).message)
    ensures !Truthy(lookup.error) && lookup.row.None? ==> r == Failure(404, "Not found")
    ensures !Truthy(lookup.error) && lookup.row == Some(map[]) ==> r == Failure(404, "Not found")
    ensures !Truthy(lookup.error) && lookup.row.Some? && |lookup.row.value| > 0 ==> r == Success(200, lookup.row.value)
  {
    if Truthy(lookup.error) then
      (match select(Upper(code))
       case Raised(m, _) => Failure(500, m)
       case Returned(rows) => if rows == [] then Failure(404, "Not found") else Success(200, rows[0]))
    else if lookup.row.None? || |lookup.row.value| == 0 then Failure(404, "Not found")
    else Success(200, lookup.row.value)
  }

  /** `get_share` as written. */
  function GetShare(client: SC.ClientResult, code: string, rpc: (string, string) -> SC.RpcAttempt,
                    select: string -> SC.CallOutcome<seq<SC.Row>>): (r: Reply<SC.Row>)
    ensures client.error.Some? ==> r.Failure? && r.status == 500
    ensures r.Success? ==> r.status == 200
  {
    if client.error.Some? || client.client.None? then Failure(500, OrElse(client.error, "Failed to create Supabase client"))
    else GetShareWith(code, SC.RpcLookup(client.client, code, rpc), select)
  }

  /** A share the RPC finds is returned as the RPC gave it, whatever the table select says. */
  lemma GetShareFoundByRpc(client: SC.ClientResult, code: string, rpc: (string, string) -> SC.RpcAttempt,
                           select: string -> SC.CallOutcome<seq<SC.Row>>)
    requires client.error.None? && client.client.Some?
    requires SC.AttemptRow(rpc(SC.ParamNames[0], Upper(code))).Some?
    ensures GetShare(client, code, rpc, select) == Success(200, SC.AttemptRow(rpc(SC.ParamNames[0], Upper(code))).value)
  {
  }

  /** As written, the select fallback is never reached: when both RPC attempts raise, the
      share is reported missing even though the table holds it. */
  lemma GetShareFallbackUnreachable(client: SC.ClientResult, code: string, rpc: (string, string) -> SC.RpcAttempt,
                                    select: string -> SC.CallOutcome<seq<SC.Row>>)
    requires client.error.None? && client.client.Some?
    requires rpc(SC.ParamNames[0], Upper(code)).RpcRaised? && rpc(SC.ParamNames[1], Upper(code)).RpcRaised?
    ensures GetShare(client, code, rpc, select) == Failure(404, "Not found")
  {
    SC.RpcErrorsSwallowed(client.client, code, rpc);
  }

  /** `get_share` over the lookup that reports RPC failures. */
  function GetShareCorrected(client: SC.ClientResult, code: string, rpc: (string, string) -> SC.RpcAttempt,
                             select: string -> SC.CallOutcome<seq<SC.Row>>): (r: Reply<SC.Row>)
    ensures client.error.Some? ==> r.Failure? && r.status == 500
  {
    if client.error.Some? || client.client.None? then Failure(500, OrElse(client.error, "Failed to create Supabase client"))
    else GetShareWith(code, SC.RpcLookupReportingErrors(client.client, code, rpc), select)
  }

  /** With the corrected lookup, an unavailable RPC falls back to the select on the
      upper-cased code, and a share the table holds is found. */
  lemma GetShareCorrectedFallsBack(client: SC.ClientResult, code: string, rpc: (string, string) -> SC.RpcAttempt,
                                   select: string -> SC.CallOutcome<seq<SC.Row>>, m0: string, m1: string)
    requires client.error.None? && client.client.Some?
    requires rpc(SC.ParamNames[0], Upper(code)) == SC.RpcRaised(m0)
    requires rpc(SC.ParamNames[1], Upper(code)) == SC.RpcRaised(m1) && m1 != ""
    requires select(Upper(code)).Returned? && select(Upper(code)).value != []
    ensures GetShareCorrected(client, code, rpc, select) == Success(200, select(Upper(code)).value[0])
  {
  }

  // ---------------------------------------------------------------------------
  // File proxy

  predicate IsSchemeChar(c: char) {
    'a' <= c <= 'z' || 'A' <= c <= 'Z' || '0' <= c <= '9' || c == '+' || c == '-' || c == '.'
  }

  /** The part of a URL after its scheme, as `urllib.parse.urlsplit` finds one: letters,
      digits, `+-.` before the first `:`, starting with a letter. */
  function AfterScheme(url: string): string {
    if ':' in url then
      var i := IndexOf(url, ':');
      if i > 0 && ('a' <= url[0] <= 'z' || 'A' <= url[0] <= 'Z') && (forall k :: 0 <= k < i ==> IsSchemeChar(url[k]))
      then url[i + 1..] else url
    else url
  }

  /** A well-formed scheme and its colon are what AfterScheme removes. */
  lemma AfterSchemeOf(scheme: string, rest: string)
    requires scheme != [] && ('a' <= scheme[0] <= 'z' || 'A' <= scheme[0] <= 'Z')
    requires forall k :: 0 <= k < |scheme| ==> IsSchemeChar(scheme[k])
    ensures AfterScheme(scheme + ":" + rest) == rest
  {
    var url := scheme + ":" + rest;
    assert url[..|scheme|] == scheme && url[|scheme|] == ':' && url[|scheme| + 1..] == rest;
    assert ':' !in scheme by {
      assert forall k :: 0 <= k < |scheme| ==> scheme[k] != ':';
    }
    IndexOfFirst(url, ':', |scheme|);
    assert forall k :: 0 <= k < |scheme| ==> url[k] == scheme[k];
  }

  /** After a `//`, the network location is what TakeNetloc keeps. */
  lemma NetlocAfter(url: string, scheme: string, rest: string)
    requires scheme != [] && ('a' <= scheme[0] <= 'z' || 'A' <= scheme[0] <= 'Z')
    requires forall k :: 0 <= k < |scheme| ==> IsSchemeChar(scheme[k])
    requires Cleaned(url) == scheme + ":" + rest && |rest| >= 2 && rest[..2] == "//"
    ensures Netloc(url) == TakeNetloc(rest[2..])
  {
    AfterSchemeOf(scheme, rest);
  }

  /** The characters that end a network location. */
  predicate EndsNetloc(c: char) {
    c == '/' || c == '?' || c == '#'
  }

  /** The text up to the first `/`, `?` or `#`. */
  function TakeNetloc(s: string): (r: string)
    ensures |r| <= |s| && r == s[..|r|]
    ensures forall k :: 0 <= k < |r| ==> !EndsNetloc(r[k])
  {
    if s == [] || EndsNetloc(s[0]) then [] else [s[0]] + TakeNetloc(s[1..])
  }

  /** `urlsplit` first drops the C0 control characters and spaces (everything up to
      U+0020) at the start of the URL. */
  function LStripC0(s: string): (r: string)
    ensures |r| <= |s| && r == s[|s| - |r|..]
    ensures r == [] || r[0] > ' '
    ensures forall k :: 0 <= k < |s| - |r| ==> s[k] <= ' '
  {
    if s != [] && s[0] <= ' ' then LStripC0(s[1..]) else s
  }

  /** Leading controls and spaces make no difference to what `urlsplit` reads. */
  lemma {:induction false} LStripC0Pad(pad: string, url: string)
    requires forall k :: 0 <= k < |pad| ==> pad[k] <= ' '
    ensures LStripC0(pad + url) == LStripC0(url)
  {
    if pad != [] {
      assert (pad + url)[1..] == pad[1..] + url;
      LStripC0Pad(pad[1..], url);
    } else {
      assert pad + url == url;
    }
  }

  /** The characters `urlsplit` deletes wherever they occur: tab, carriage return, line feed. */
  predicate IsUnsafe(c: char) {
    c == '\t' || c == '\r' || c == '\n'
  }

  /** `url.replace(b, "")` for each unsafe character: every other character stays, in order. */
  function RemoveUnsafe(s: string): (r: string)
    ensures |r| <= |s|
    ensures forall k :: 0 <= k < |r| ==> !IsUnsafe(r[k])
  {
    if s == [] then [] else (if IsUnsafe(s[0]) then [] else [s[0]]) + RemoveUnsafe(s[1..])
  }

  /** The removal adds no character. */
  lemma {:induction false} RemoveUnsafeFrom(s: string)
    ensures forall k :: 0 <= k < |RemoveUnsafe(s)| ==> RemoveUnsafe(s)[k] in s
  {
    if s != [] {
      RemoveUnsafeFrom(s[1..]);
      assert forall c :: c in s[1..] ==> c in s;
    }
  }

  /** Every character other than the three occurs as often after the removal as before. */
  lemma {:induction false} RemoveUnsafeKeepsOthers(s: string, c: char)
    requires !IsUnsafe(c)
    ensures multiset(RemoveUnsafe(s))[c] == multiset(s)[c]
  {
    if s != [] {
      assert s == [s[0]] + s[1..];
      RemoveUnsafeKeepsOthers(s[1..], c);
    }
  }

  lemma {:induction false} RemoveUnsafeAppend(a: string, b: string)
    ensures RemoveUnsafe(a + b) == RemoveUnsafe(a) + RemoveUnsafe(b)
  {
    if a != [] {
      assert (a + b)[1..] == a[1..] + b;
      RemoveUnsafeAppend(a[1..], b);
    } else {
      assert a + b == b;
    }
  }

  lemma {:induction false} RemoveUnsafeNone(s: string)
    requires forall k :: 0 <= k < |s| ==> !IsUnsafe(s[k])
    ensures RemoveUnsafe(s) == s
  {
    if s != [] {
      RemoveUnsafeNone(s[1..]);
    }
  }

  /** The URL as `urlsplit` goes on to read it. */
  function Cleaned(url: string): string {
    RemoveUnsafe(LStripC0(url))
  }

  /** `urlparse(url).netloc`: in the cleaned URL, what follows `//` after the scheme, up to
      `/`, `?` or `#`. */
  function Netloc(url: string): string {
    var rest := AfterScheme(Cleaned(url));
    if StartsWith(rest, "//") then TakeNetloc(rest[2..]) else ""
  }

  /** `urlsplit` raises `ValueError("Invalid IPv6 URL")` for a network location holding
      one square bracket without the other. */
  predicate SplitRaises(url: string) {
    ('[' in Netloc(url)) != (']' in Netloc(url))
  }

  const InvalidIPv6: string := "Invalid IPv6 URL"

  /** A `scheme://host/path` URL (`https://host/path`, say) has `host` as its network
      location, less any tab, carriage return or line feed in it. */
  lemma NetlocOfUrl(scheme: string, host: string, path: string)
    requires scheme != [] && ('a' <= scheme[0] <= 'z' || 'A' <= scheme[0] <= 'Z')
    requires forall k :: 0 <= k < |scheme| ==> IsSchemeChar(scheme[k])
    requires forall k :: 0 <= k < |host| ==> !EndsNetloc(host[k])
    ensures Netloc(scheme + "://" + host + "/" + path) == RemoveUnsafe(host)
  {
    var url := scheme + "://" + host + "/" + path;
    var h := RemoveUnsafe(host);
    var tail := "/" + RemoveUnsafe(path);
    CleanedOfUrl(scheme, host, path);
    RemoveUnsafeFrom(host);
    var rest := "//" + (h + tail);
    assert rest[..2] == "//" && rest[2..] == h + tail;
    NetlocAfter(url, scheme, rest);
    TakeNetlocPrefix(h, tail);
  }

  lemma CleanedOfUrl(scheme: string, host: string, path: string)
    requires scheme != [] && ('a' <= scheme[0] <= 'z' || 'A' <= scheme[0] <= 'Z')
    requires forall k :: 0 <= k < |scheme| ==> IsSchemeChar(scheme[k])
    ensures Cleaned(scheme + "://" + host + "/" + path)
            == scheme + ":" + ("//" + (RemoveUnsafe(host) + ("/" + RemoveUnsafe(path))))
  {
    var head := scheme + "://";
    var tail := host + ("/" + path);
    assert scheme + "://" + host + "/" + path == head + tail;
    assert forall k :: 0 <= k < |head| ==> !IsUnsafe(head[k]) by {
      assert forall k :: 0 <= k < |scheme| ==> head[k] == scheme[k];
      assert head[|scheme|..] == "://";
    }
    CleanedOf(head, tail);
    RemoveUnsafeAppend(host, "/" + path);
    RemoveUnsafeSlash(path);
    var x := RemoveUnsafe(host) + ("/" + RemoveUnsafe(path));
    assert Cleaned(head + tail) == head + x;
    SchemeSlashes(scheme, x);
  }

  lemma SchemeSlashes(scheme: string, x: string)
    ensures scheme + "://" + x == scheme + ":" + ("//" + x)
  {
  }

  /** A URL that starts with a character above U+0020 and whose head holds none of the
      removed characters is cleaned in its tail alone. */
  lemma CleanedOf(head: string, tail: string)
    requires head != [] && head[0] > ' '
    requires forall k :: 0 <= k < |head| ==> !IsUnsafe(head[k])
    ensures Cleaned(head + tail) == head + RemoveUnsafe(tail)
  {
    assert (head + tail)[0] == head[0];
    assert LStripC0(head + tail) == head + tail;
    RemoveUnsafeNone(head);
    RemoveUnsafeAppend(head, tail);
  }

  lemma RemoveUnsafeSlash(path: string)
    ensures RemoveUnsafe("/" + path) == "/" + RemoveUnsafe(path)
  {
    assert ("/" + path)[1..] == path;
  }

  /** Controls and spaces in front of a URL do not change its network location. */
  lemma NetlocIgnoresLeadingControls(pad: string, url: string)
    requires forall k :: 0 <= k < |pad| ==> pad[k] <= ' '
    ensures Netloc(pad + url) == Netloc(url)
  {
    LStripC0Pad(pad, url);
  }

  lemma {:induction false} TakeNetlocPrefix(host: string, rest: string)
    requires forall k :: 0 <= k < |host| ==> !EndsNetloc(host[k])
    requires rest == [] || EndsNetloc(rest[0])
    ensures TakeNetloc(host + rest) == host
  {
    if host != [] {
      assert (host + rest)[1..] == host[1..] + rest;
      TakeNetlocPrefix(host[1..], rest);
    } else {
      assert host + rest == rest;
    }
  }

  /** A proxy locator has no network location, so it can never pass the host check. */
  lemma NetlocOfProxyLocator(bucket: string, path: string)
    requires RemoveUnsafe(bucket) != "" && '/' !in bucket
    ensures Netloc(ProxyLocator(bucket, path)) == ""
  {
    var b := RemoveUnsafe(bucket);
    var rest := b + ("/" + RemoveUnsafe(path));
    CleanedOfProxyLocator(bucket, path);
    RemoveUnsafeFrom(bucket);
    ProxyScheme();
    AfterSchemeOf("proxy", rest);
    assert AfterScheme(Cleaned(ProxyLocator(bucket, path))) == rest;
    assert rest[0] == b[0] && b[0] in bucket;
    NoLeadingSlashes(rest);
  }

  /** "proxy" is a well-formed scheme: a letter followed by scheme characters. */
  lemma ProxyScheme()
    ensures "proxy" != [] && 'a' <= "proxy"[0] <= 'z'
    ensures forall k :: 0 <= k < |"proxy"| ==> IsSchemeChar("proxy"[k])
  {
    var p := "proxy";
    assert p[0] == 'p' && p[1] == 'r' && p[2] == 'o' && p[3] == 'x' && p[4] == 'y';
  }

  lemma NoLeadingSlashes(s: string)
    requires s != [] && s[0] != '/'
    ensures !StartsWith(s, "//")
  {
    if |s| >= 2 {
      assert s[..2][0] == s[0];
    }
  }

  lemma CleanedOfProxyLocator(bucket: string, path: string)
    ensures Cleaned(ProxyLocator(bucket, path)) == "proxy" + ":" + (RemoveUnsafe(bucket) + ("/" + RemoveUnsafe(path)))
  {
    var loc := ProxyLocator(bucket, path);
    assert loc == "proxy:" + (bucket + ("/" + path));
    CleanedOf("proxy:", bucket + ("/" + path));
    RemoveUnsafeAppend(bucket, "/" + path);
    RemoveUnsafeSlash(path);
  }

  /** The response of the file proxy: the bytes and their content type, or an error. */
  datatype FileBody = FileBody(content: seq<int>, contentType: string)

  /** The signed-URL attempt: bytes fetched through a fresh signed URL, or nothing (no
      URL, or the attempt raised; both are only logged). */
  datatype SignedFetch = SignedFetched(content: seq<int>, contentType: string) | SignedUnavailable

  /** `storage.download(path)`: bytes, a dict with truthy `data`, anything else, or a raise. */
  datatype Download = DownloadBytes(content: seq<int>) | DownloadData(content: seq<int>) | DownloadOther | DownloadRaised(message: string)

  /** A direct fetch with `urllib`: bytes with a content type, or a raise. */
  datatype DirectFetch = Fetched(content: seq<int>, contentType: string) | FetchRaised(message: string)

  const OctetStream: string := "application/octet-stream"

  /** What Python reports when `split("/", 1)` gives a single piece to unpack into two. */
  const UnpackError: string := "not enough values to unpack (expected 2, got 1)"

  /** The host check of the public-URL branch and the fetch after it. */
  function FetchPublic(url: string, supabaseUrl: Option<string>, direct: DirectFetch): (r: Reply<FileBody>)
    ensures SplitRaises(OrElse(supabaseUrl, "")) || SplitRaises(url) ==> r == Failure(502, "Fetch failed: " + InvalidIPv6)
    ensures !SplitRaises(OrElse(supabaseUrl, "")) && !SplitRaises(url) &&
            (Netloc(OrElse(supabaseUrl, "")) == "" || Netloc(url) != Netloc(OrElse(supabaseUrl, ""))) ==>
      r == Failure(400, "Invalid file host")
    ensures r.Success? <==>
      && !SplitRaises(OrElse(supabaseUrl, "")) && !SplitRaises(url)
      && Netloc(url) == Netloc(OrElse(supabaseUrl, "")) != ""
      && direct.Fetched?
    ensures r.Success? ==> r == Success(200, FileBody(direct.content, direct.contentType))
  {
    var allowedHost := Netloc(OrElse(supabaseUrl, ""));
    if SplitRaises(OrElse(supabaseUrl, "")) || SplitRaises(url) then Failure(502, "Fetch failed: " + InvalidIPv6)
    else if allowedHost == "" || Netloc(url) != allowedHost then Failure(400, "Invalid file host")
    else match direct
      case Fetched(data, ct) => Success(200, FileBody(data, ct))
      case FetchRaised(m) => Failure(502, "Fetch failed: " + m)
  }

  /** A host with an opening bracket and no closing one makes the URL unparsable: the
      fetch fails with 502 before any host comparison. */
  lemma OpenBracketHostFails(host: string, path: string, supabaseUrl: Option<string>, direct: DirectFetch)
    requires forall k :: 0 <= k < |host| ==> !EndsNetloc(host[k]) && !IsUnsafe(host[k])
    requires '[' in host && ']' !in host
    ensures FetchPublic("https://" + host + "/" + path, supabaseUrl, direct) == Failure(502, "Fetch failed: " + InvalidIPv6)
  {
    var url := "https://" + host + "/" + path;
    NetlocOfUrl("https", host, path);
    RemoveUnsafeNone(host);
    assert "https" + "://" == "https://";
    assert Netloc(url) == host;
    assert SplitRaises(url);
  }

  /** The URL is a proxy locator whose part after `proxy:` holds a bucket and a path. */
  predicate ProxyPathGiven(url: Option<string>) {
    Truthy(url) && StartsWith(url.value, "proxy:") && '/' in url.value[6..]
  }

  /** `fetch_file`: a missing URL is 400; a proxy locator is resolved through storage
      (signed URL first, then a direct download); any other URL must be on the Supabase
      host. A proxy locator whose download yields nothing falls through to the host check. */
  function FetchFile(url: Option<string>, supabaseUrl: Option<string>, client: SC.ClientResult,
                     signed: SignedFetch, download: Download, direct: DirectFetch): (r: Reply<FileBody>)
    ensures !Truthy(url) ==> r == Failure(400, "Missing url")
    ensures Truthy(url) && !StartsWith(url.value, "proxy:") ==> r == FetchPublic(url.value, supabaseUrl, direct)
    ensures Truthy(url) && StartsWith(url.value, "proxy:") && '/' !in url.value[6..] ==>
      r == Failure(502, "Proxy access failed: " + UnpackError)
    ensures Truthy(url) && StartsWith(url.value, "proxy:") && '/' in url.value[6..] &&
            client.error.None? && client.client.Some? && signed.SignedUnavailable? && download.DownloadOther? ==>
      r == FetchPublic(url.value, supabaseUrl, direct)
    ensures ProxyPathGiven(url) && (client.error.Some? || client.client.None?) ==>
      r == Failure(500, OrElse(client.error, "Failed to create Supabase client"))
    ensures ProxyPathGiven(url) && client.error.None? && client.client.Some? && signed.SignedFetched? ==>
      r == Success(200, FileBody(signed.content, signed.contentType))
    ensures ProxyPathGiven(url) && client.error.None? && client.client.Some? && signed.SignedUnavailable? &&
            (download.DownloadBytes? || download.DownloadData?) ==>
      r == Success(200, FileBody(download.content, OctetStream))
    ensures ProxyPathGiven(url) && client.error.None? && client.client.Some? && signed.SignedUnavailable? &&
            download.DownloadRaised? ==>
      r == Failure(502, "File access failed: " + download.message)
    ensures r.Success? ==> r.status == 200
  {
    if !Truthy(url) then Failure(400, "Missing url")
    else if StartsWith(url.value, "proxy:") then
      (match SplitBucketPath(url.value[6..])
       case None => Failure(502, "Proxy access failed: " + UnpackError)
       case Some(_) =>
         if client.error.Some? || client.client.None? then Failure(500, OrElse(client.error, "Failed to create Supabase client"))
         else match signed
           case SignedFetched(data, ct) => Success(200, FileBody(data, ct))
           case SignedUnavailable =>
             match download
             case DownloadBytes(data) => Success(200, FileBody(data, OctetStream))
             case DownloadData(data) => Success(200, FileBody(data, OctetStream))
             case DownloadRaised(m) => Failure(502, "File access failed: " + m)
             case DownloadOther => FetchPublic(url.value, supabaseUrl, direct))
    else FetchPublic(url.value, supabaseUrl, direct)
  }

  /** The reply a URL without a network location gets from the host check: the Supabase
      URL's own parse error, if it has one, else "Invalid file host". */
  function HostlessReply(supabaseUrl: Option<string>): Reply<FileBody> {
    if SplitRaises(OrElse(supabaseUrl, "")) then Failure(502, "Fetch failed: " + InvalidIPv6)
    else Failure(400, "Invalid file host")
  }

  /** A proxy locator whose storage object cannot be obtained ends as "Invalid file host"
      (or as the Supabase URL's parse error). */
  lemma ProxyFallThroughIsInvalidHost(bucket: string, path: string, supabaseUrl: Option<string>,
                                      client: SC.ClientResult, direct: DirectFetch)
    requires RemoveUnsafe(bucket) != "" && '/' !in bucket
    requires client.error.None? && client.client.Some?
    ensures FetchFile(Some(ProxyLocator(bucket, path)), supabaseUrl, client, SignedUnavailable, DownloadOther, direct)
            == HostlessReply(supabaseUrl)
  {
    ProxyLocatorRoundTrip(bucket, path);
    NetlocOfProxyLocator(bucket, path);
    HostlessProxyFallThrough(ProxyLocator(bucket, path), supabaseUrl, client, direct);
  }

  lemma HostlessProxyFallThrough(loc: string, supabaseUrl: Option<string>,
                                 client: SC.ClientResult, direct: DirectFetch)
    requires StartsWith(loc, "proxy:") && SplitBucketPath(loc[6..]).Some? && Netloc(loc) == ""
    requires client.error.None? && client.client.Some?
    ensures FetchFile(Some(loc), supabaseUrl, client, SignedUnavailable, DownloadOther, direct)
            == HostlessReply(supabaseUrl)
  {
    assert !SplitRaises(loc);
    assert FetchPublic(loc, supabaseUrl, direct) == HostlessReply(supabaseUrl);
  }

  // ---------------------------------------------------------------------------
  // Per-user stats and shares

  /** A row's `view_count`: missing (counts as 0), an integer, or a value `int()` rejects
      (with the text of the exception it raises). */
  datatype ViewCount = NoViewCount | ViewInt(n: int) | ViewBad(message: string)

  /** `int(row.get("view_count", 0))`, absent when it raises. */
  function ParsedViews(v: ViewCount): Option<int> {
    match v
    case NoViewCount => Some(0)
    case ViewInt(n) => Some(n)
    case ViewBad(_) => None
  }

  /** The sum of the view counts that parse; the others are skipped. */
  function SumParsedViews(rows: seq<ViewCount>): int {
    if rows == [] then 0
    else SumParsedViews(rows[..|rows| - 1]) + (match ParsedViews(rows[|rows| - 1]) case Some(n) => n case None => 0)
  }

  lemma {:induction false} SumParsedViewsAppend(a: seq<ViewCount>, b: seq<ViewCount>)
    ensures SumParsedViews(a + b) == SumParsedViews(a) + SumParsedViews(b)
    decreases |b|
  {
    if b == [] {
      assert a + b == a;
    } else {
      assert (a + b)[..|a + b| - 1] == a + b[..|b| - 1];
      SumParsedViewsAppend(a, b[..|b| - 1]);
    }
  }

  /** Skipped rows contribute nothing; counts that are never negative give a total that is not. */
  lemma {:induction false} SumParsedViewsNonNegative(rows: seq<ViewCount>)
    requires forall k :: 0 <= k < |rows| ==> !rows[k].ViewInt? || rows[k].n >= 0
    ensures SumParsedViews(rows) >= 0
  {
    if rows != [] {
      SumParsedViewsNonNegative(rows[..|rows| - 1]);
    }
  }

  /** The accumulation loop of `get_my_stats`. */
  method TotalViews(rows: seq<ViewCount>) returns (total: int)
    ensures total == SumParsedViews(rows)
  {
    total := 0;
    var i := 0;
    while i < |rows|
      invariant 0 <= i <= |rows|
      invariant total == SumParsedViews(rows[..i])
    {
      assert rows[..i + 1][..i] == rows[..i];
      match ParsedViews(rows[i]) {
        case Some(n) => total := total + n;
        case None =>
      }
      i := i + 1;
    }
    assert rows[..|rows|] == rows;
  }

  datatype Stats = Stats(totalShares: nat, totalViews: int)

  /** `get_my_stats`: after the gate, the number of rows and the sum of their views. */
  method GetMyStats(client: SC.ClientResult, header: string, getUser: string -> UserLookup,
                    query: SC.CallOutcome<seq<ViewCount>>)
    returns (reply: Reply<Stats>)
    ensures !Authorize(client, header, getUser).Authorized? ==> reply == AuthFailureReply(Authorize(client, header, getUser))
    ensures Authorize(client, header, getUser).Authorized? && query.Returned? ==>
      reply == Success(200, Stats(|query.value|, SumParsedViews(query.value)))
    ensures Authorize(client, header, getUser).Authorized? && query.Raised? ==>
      reply == Failure(500, "Failed to fetch stats: " + query.message)
    ensures reply.Success? ==>
      reply.status == 200 && query.Returned? &&
      reply.value == Stats(|query.value|, SumParsedViews(query.value))
  {
    var auth := Authorize(client, header, getUser);
    if !auth.Authorized? {
      return AuthFailureReply(auth);
    }
    match query {
      case Raised(m, _) =>
        reply := Failure(500, "Failed to fetch stats: " + m);
      case Returned(rows) =>
        var total := TotalViews(rows);
        reply := Success(200, Stats(|rows|, total));
    }
  }

  /** `get_my_shares`: after the gate, the user's rows as the query returned them. */
  function GetMyShares<T>(client: SC.ClientResult, header: string, getUser: string -> UserLookup,
                          query: SC.CallOutcome<seq<T>>): (reply: Reply<seq<T>>)
    ensures !Authorize(client, header, getUser).Authorized? ==> reply == AuthFailureReply(Authorize(client, header, getUser))
    ensures Authorize(client, header, getUser).Authorized? && query.Returned? ==> reply == Success(200, query.value)
    ensures Authorize(client, header, getUser).Authorized? && query.Raised? ==>
      reply == Failure(500, "Failed to fetch shares: " + query.message)
    ensures reply.Success? ==> query.Returned? && reply.value == query.value
  {
    var auth := Authorize(client, header, getUser);
    if !auth.Authorized? then AuthFailureReply(auth)
    else match query
      case Raised(m, _) => Failure(500, "Failed to fetch shares: " + m)
      case Returned(rows) => Success(200, rows)
  }
}
