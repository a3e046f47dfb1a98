/** The Supabase helper layer of the backend (backend/supabase_client.py): environment
    normalisation, client creation, SDK response shapes, bucket listing and the
    `get_share_by_code` RPC. The SDK itself is represented by the outcomes it can produce. */
module SupabaseClient {
  import opened Text

  // ---------------------------------------------------------------------------
  // Environment

  const Placeholders: set<string> := {"your-key-or-anon-key", "changeme", "<set-me>"}

  /** `_norm`: falsy values pass unchanged; the placeholders (compared stripped and
      lower-cased) become absent; anything else is stripped. */
  function Norm(v: Option<string>): (r: Option<string>)
    ensures !Truthy(v) ==> r == v
    ensures Truthy(v) ==> (r == None <==> Lower(Strip(Python, v.value)) in Placeholders)
    ensures Truthy(v) && r != None ==> r == Some(Strip(Python, v.value)) && IsStripped(Python, r.value)
  {
    if !Truthy(v) then v
    else if Lower(Strip(Python, v.value)) in Placeholders then None
    else Some(Strip(Python, v.value))
  }

  /** The Supabase variables of the process environment (absent when unset). */
  datatype Env = Env(
    url: Option<string>,
    serviceRoleKey: Option<string>,  // SUPABASE_SERVICE_ROLE_KEY
    serviceKey: Option<string>,      // SUPABASE_SERVICE_KEY
    key: Option<string>,             // SUPABASE_KEY
    anonKey: Option<string>)         // SUPABASE_ANON_KEY

  datatype KeyType = NoKey | Service | Anon | Unknown

  datatype EnvInfo = EnvInfo(url: Option<string>, key: Option<string>, keyType: KeyType)

  /** Python's `a or b or c or d`: the first truthy operand, else the last one. */
  function FirstTruthy(a: Option<string>, b: Option<string>, c: Option<string>, d: Option<string>): Option<string>
  {
    if Truthy(a) then a else if Truthy(b) then b else if Truthy(c) then c else d
  }

  /** The key variables in precedence order. */
  function KeyVars(env: Env): (vs: seq<Option<string>>)
    ensures |vs| == 4
  {
    [env.serviceRoleKey, env.serviceKey, env.key, env.anonKey]
  }

  /** `_get_env`: the key is the first set variable in precedence order, normalised after
      it is chosen. It is classified `service` when it equals either normalised service
      variable, else `anon` when it equals the raw anon variable, else `unknown`; `none`
      when there is no key. */
  function GetEnv(env: Env): (info: EnvInfo)
    ensures info.url == env.url
    ensures info.key == Norm(FirstTruthy(env.serviceRoleKey, env.serviceKey, env.key, env.anonKey))
    ensures info.keyType == NoKey <==> !Truthy(info.key)
    ensures info.keyType == Service <==>
      Truthy(info.key) && (Norm(env.serviceRoleKey) == info.key || Norm(env.serviceKey) == info.key)
    ensures info.keyType == Anon <==>
      Truthy(info.key) && Norm(env.serviceRoleKey) != info.key && Norm(env.serviceKey) != info.key &&
      env.anonKey == info.key
  {
    var key := Norm(FirstTruthy(env.serviceRoleKey, env.serviceKey, env.key, env.anonKey));
    var keyType :=
      if !Truthy(key) then NoKey
      else if Norm(env.serviceRoleKey) == key || Norm(env.serviceKey) == key then Service
      else if env.anonKey == key then Anon
      else Unknown;
    EnvInfo(env.url, key, keyType)
  }

  /** A placeholder in the first set variable hides every real key set further down: no
      key results, whatever the lower-priority variables hold. */
  lemma PlaceholderShadowsLowerKeys(env: Env, i: nat)
    requires i < 4 && forall j :: 0 <= j < i ==> !Truthy(KeyVars(env)[j])
    requires Truthy(KeyVars(env)[i]) && Lower(Strip(Python, KeyVars(env)[i].value)) in Placeholders
    ensures GetEnv(env).key == None && GetEnv(env).keyType == NoKey
  {
    assert FirstTruthy(env.serviceRoleKey, env.serviceKey, env.key, env.anonKey) == KeyVars(env)[i] by {
      if i > 0 { assert !Truthy(KeyVars(env)[0]); }
      if i > 1 { assert !Truthy(KeyVars(env)[1]); }
      if i > 2 { assert !Truthy(KeyVars(env)[2]); }
    }
  }

  /** "changeme" in the service-role variable is one such placeholder. */
  lemma ChangemeShadows(env: Env)
    requires env.serviceRoleKey == Some("changeme")
    ensures GetEnv(env).key == None && GetEnv(env).keyType == NoKey
  {
    ChangemeIsPlaceholder();
    PlaceholderShadowsLowerKeys(env, 0);
  }

  /** `SUPABASE_KEY` holding the anon key exactly as `SUPABASE_ANON_KEY` does is classified
      `anon` when no service variable normalises to it. */
  lemma GenericKeyEqualToAnon(env: Env, k: string)
    requires !Truthy(env.serviceRoleKey) && !Truthy(env.serviceKey)
    requires env.key == Some(k) && env.anonKey == Some(k) && IsStripped(Python, k)
    requires k != "" && Lower(k) !in Placeholders
    ensures GetEnv(env).key == Some(k) && GetEnv(env).keyType == Anon
  {
    NormOfClean(k);
    assert FirstTruthy(env.serviceRoleKey, env.serviceKey, env.key, env.anonKey) == env.key;
  }

  /** A stripped, non-empty value that is no placeholder passes `_norm` unchanged. */
  lemma NormOfClean(k: string)
    requires IsStripped(Python, k) && k != "" && Lower(k) !in Placeholders
    ensures Norm(Some(k)) == Some(k)
  {
    StrippedFixed(Python, k);
  }

  lemma ChangemeIsPlaceholder()
    ensures Norm(Some("changeme")) == None
  {
    var s := "changeme";
    assert s[0] == 'c' && s[|s| - 1] == 'e';
    StrippedFixed(Python, s);
    LowerOfLowercase(s);
    assert Lower(Strip(Python, s)) == s;
  }

  /** A real service-role key wins over everything else and is classified `service`. */
  lemma ServiceRoleKeyWins(env: Env, k: string)
    requires env.serviceRoleKey == Some(k) && k != ""
    requires Lower(Strip(Python, k)) !in Placeholders && Strip(Python, k) != ""
    ensures GetEnv(env).key == Some(Strip(Python, k)) && GetEnv(env).keyType == Service
  {
  }

  /** An anon key alone is classified `anon` only when it carries no surrounding
      whitespace: the classification compares the raw variable with the stripped key. */
  lemma AnonKeyAlone(env: Env, k: string)
    requires env.serviceRoleKey == None && env.serviceKey == None && env.key == None
    requires env.anonKey == Some(k) && k != "" && Lower(Strip(Python, k)) !in Placeholders && Strip(Python, k) != ""
    ensures GetEnv(env).keyType == (if IsStripped(Python, k) then Anon else Unknown)
  {
    if IsStripped(Python, k) {
      StrippedFixed(Python, k);
    } else {
      assert Strip(Python, k) != k by {
        if Strip(Python, k) == k {
          assert IsStripped(Python, Strip(Python, k));
        }
      }
    }
  }

  /** An abstract client handle: what `supabase.create_client(url, key)` was given. */
  datatype Client = Client(url: string, key: string)

  /** What the SDK constructor did. */
  datatype SdkOutcome = SdkCreated | SdkRaised(message: string)

  datatype ClientResult = ClientResult(client: Option<Client>, error: Option<string>)

  const MissingConfigError: string :=
    "Missing SUPABASE_URL or key (SUPABASE_SERVICE_ROLE_KEY/SUPABASE_KEY/SUPABASE_ANON_KEY)"

  /** `create_client`: exactly one of client and error is present; a missing URL or key is
      reported without calling the SDK. */
  function CreateClient(env: Env, sdk: SdkOutcome): (r: ClientResult)
    ensures r.client.Some? != r.error.Some?
    ensures !Truthy(env.url) || !Truthy(GetEnv(env).key) ==> r.error == Some(MissingConfigError)
    ensures r.client.Some? ==>
      && Truthy(env.url) && Truthy(GetEnv(env).key) && sdk == SdkCreated
      && r.client.value == Client(env.url.value, GetEnv(env).key.value)
  {
    var info := GetEnv(env);
    if !Truthy(info.url) || !Truthy(info.key) then ClientResult(None, Some(MissingConfigError))
    else match sdk
      case SdkCreated => ClientResult(Some(Client(info.url.value, info.key.value)), None)
      case SdkRaised(m) => ClientResult(None, Some("Failed to create Supabase client: " + m))
  }

  // ---------------------------------------------------------------------------
  // SDK response shapes

  /** The shapes `execute()` has been seen to return. */
  datatype SdkResponse<T> =
    | NullResponse                                          // None
    | AttrResponse(data: Option<T>, error: Option<string>)  // object with .data / .error
    | DictResponse(data: Option<T>, error: Option<string>)  // plain dict
    | OpaqueResponse                                        // anything else

  datatype Extracted<T> = Extracted(data: Option<T>, error: Option<string>)

  /** `_extract_response_data`: one (data, error) pair for every response shape. */
  function ExtractResponseData<T>(resp: SdkResponse<T>): (r: Extracted<T>)
    ensures resp.NullResponse? ==> r == Extracted(None, Some("Empty response"))
    ensures resp.AttrResponse? && (resp.data.Some? || resp.error.Some?) ==>
      r.data == resp.data && r.error == (if Truthy(resp.error) then resp.error else None)
    ensures resp.DictResponse? ==> r == Extracted(resp.data, resp.error)
    ensures resp.OpaqueResponse? || resp == AttrResponse(None, None) ==>
      r == Extracted(None, Some("Unknown response format"))
    ensures r.data.Some? ==> r.data == resp.data
  {
    match resp
    case NullResponse => Extracted(None, Some("Empty response"))
    case AttrResponse(d, e) =>
      if d.Some? || e.Some? then Extracted(d, if Truthy(e) then e else None)
      else Extracted(None, Some("Unknown response format"))
    case DictResponse(d, e) => Extracted(d, e)
    case OpaqueResponse => Extracted(None, Some("Unknown response format"))
  }

  /** What a query call did: raised (with its message; `isDns` for a resolver failure) or returned. */
  datatype CallOutcome<T> = Raised(message: string, isDns: bool) | Returned(value: T)

  function ExceptionMessage(message: string, isDns: bool): string {
    if isDns then "DNS resolution failed: " + message else message
  }

  /** `fetch_table_rows`: a missing client or a raised call is an error; a response is
      passed through `_extract_response_data`. */
  function FetchTableRows<T>(client: Option<Client>, call: CallOutcome<SdkResponse<T>>): (r: Extracted<T>)
    ensures client.None? ==> r == Extracted(None, Some("Client is None"))
    ensures client.Some? && call.Raised? ==> r.data.None? && r.error.Some?
    ensures client.Some? && call.Returned? ==> r == ExtractResponseData(call.value)
  {
    if client.None? then Extracted(None, Some("Client is None"))
    else match call
      case Raised(m, dns) => Extracted(None, Some(ExceptionMessage(m, dns)))
      case Returned(resp) => ExtractResponseData(resp)
  }

  // ---------------------------------------------------------------------------
  // Bucket listing

  /** What `storage.list` returned: a Python list, or some other object. */
  datatype Listing<T> = ListOf(items: seq<T>) | OtherListing

  /** The `limit` argument: absent, an int, or a value of another type. */
  datatype Limit = NoLimit | IntLimit(n: int) | OtherLimit

  /** Python `s[:n]`, negative `n` counting from the end. */
  function PySliceTo<T>(s: seq<T>, n: int): (r: seq<T>)
    ensures n >= 0 ==> |r| == (if n < |s| then n else |s|)
    ensures n < 0 ==> |r| == (if -n < |s| then |s| + n else 0)
    ensures r == s[..|r|]
  {
    if n >= 0 then (if n < |s| then s[..n] else s)
    else if -n < |s| then s[..|s| + n] else []
  }

  /** `list_bucket_objects`: a list result is cut to `limit` only when the limit is an int. */
  function ListBucketObjects<T>(client: Option<Client>, call: CallOutcome<Listing<T>>, limit: Limit): (r: Extracted<Listing<T>>)
    ensures client.None? ==> r == Extracted(None, Some("Client is None"))
    ensures client.Some? && call.Returned? && !limit.IntLimit? ==> r == Extracted(Some(call.value), None)
    ensures client.Some? && call.Returned? && call.value.ListOf? && limit.IntLimit? && limit.n >= 0 ==>
      r.error.None? && r.data.Some? && r.data.value.ListOf? &&
      r.data.value.items == call.value.items[..if limit.n < |call.value.items| then limit.n else |call.value.items|]
    ensures client.Some? && call.Raised? ==> r.data.None? && r.error.Some?
  {
    if client.None? then Extracted(None, Some("Client is None"))
    else match call
      case Raised(m, dns) => Extracted(None, Some(ExceptionMessage(m, dns)))
      case Returned(objects) =>
        if objects.ListOf? && limit.IntLimit? then Extracted(Some(ListOf(PySliceTo(objects.items, limit.n))), None)
        else Extracted(Some(objects), None)
  }

  // ---------------------------------------------------------------------------
  // The get_share_by_code RPC

  /** A JSON value of a row column. */
  datatype Value = Null | Str(s: string) | Num(n: int) | Bool(b: bool)

  type Row = map<string, Value>

  /** What the RPC's `data` attribute held. */
  datatype RpcData = NoData | Record(row: Row) | Rows(rows: seq<Row>)

  /** One RPC call: it raised, or it returned a response whose data is given. */
  datatype RpcAttempt = RpcRaised(message: string) | RpcReturned(data: RpcData)

  predicate AllNull(row: Row) {
    forall k :: k in row ==> row[k] == Null
  }

  /** The row an attempt yields: a list becomes its first element, an all-null record or an
      empty one counts as no row, a raised call yields none. */
  function AttemptRow(a: RpcAttempt): (r: Option<Row>)
    ensures r.Some? ==> |r.value| > 0 && !AllNull(r.value)
    ensures a.RpcReturned? && a.data.Record? && |a.data.row| > 0 && !AllNull(a.data.row) ==> r == Some(a.data.row)
    ensures a.RpcReturned? && a.data.Rows? && a.data.rows != [] && |a.data.rows[0]| > 0 && !AllNull(a.data.rows[0]) ==>
      r == Some(a.data.rows[0])
    ensures a.RpcRaised? || a == RpcReturned(NoData) || a == RpcReturned(Rows([])) ==> r == None
  {
    match a
    case RpcRaised(_) => None
    case RpcReturned(d) =>
      var first := match d
        case NoData => None
        case Record(row) => Some(row)
        case Rows(rows) => if rows == [] then None else Some(rows[0]);
      if first.Some? && |first.value| > 0 && !AllNull(first.value) then first else None
  }

  /** The parameter names tried, in order. */
  const ParamNames: seq<string> := ["_code", "code"]

  datatype RpcResult = RpcResult(row: Option<Row>, error: Option<string>)

  /** The result of `rpc_get_share_by_code` as written: the row of the first attempt that
      yields one; a missing client is the only error it ever reports. */
  function RpcLookup(client: Option<Client>, code: string, rpc: (string, string) -> RpcAttempt): RpcResult
  {
    if client.None? then RpcResult(None, Some("Client is None"))
    else
      var first := AttemptRow(rpc(ParamNames[0], Upper(code)));
      if first.Some? then RpcResult(first, None)
      else RpcResult(AttemptRow(rpc(ParamNames[1], Upper(code))), None)
  }

  /** `rpc_get_share_by_code`: tries `_code` then `code`, always with the upper-cased code,
      and stops at the first attempt that yields a row. `calls` records the calls made. */
  method RpcGetShareByCode(client: Option<Client>, code: string, rpc: (string, string) -> RpcAttempt)
    returns (row: Option<Row>, error: Option<string>, calls: seq<(string, string)>)
    ensures RpcResult(row, error) == RpcLookup(client, code, rpc)
    ensures client.None? ==> calls == []
    ensures client.Some? ==> 1 <= |calls| <= 2 && |calls| == (if row.Some? && row == AttemptRow(rpc(ParamNames[0], Upper(code))) then 1 else 2)
    ensures forall k :: 0 <= k < |calls| ==> calls[k] == (ParamNames[k], Upper(code))
  {
    calls := [];
    if client.None? {
      return None, Some("Client is None"), calls;
    }
    var lastError: Option<string> := None;
    var i := 0;
    while i < |ParamNames|
      invariant 0 <= i <= |ParamNames|
      invariant |calls| == i
      invariant forall k :: 0 <= k < i ==> calls[k] == (ParamNames[k], Upper(code))
      invariant forall k :: 0 <= k < i ==> AttemptRow(rpc(ParamNames[k], Upper(code))).None?
    {
      var attempt := rpc(ParamNames[i], Upper(code));
      calls := calls + [(ParamNames[i], Upper(code))];
      if attempt.RpcRaised? {
        // The message is kept in `last_err` and never reported.
        lastError := Some(attempt.message);
        i := i + 1;
        continue;
      }
      var data := AttemptRow(attempt);
      if data.Some? {
        return data, None, calls;
      }
      i := i + 1;
    }
    return None, None, calls;
  }

  /** Every RPC failure is swallowed: with a client present the error is always absent,
      even when both attempts raised. */
  lemma RpcErrorsSwallowed(client: Option<Client>, code: string, rpc: (string, string) -> RpcAttempt)
    requires client.Some?
    requires rpc(ParamNames[0], Upper(code)).RpcRaised? && rpc(ParamNames[1], Upper(code)).RpcRaised?
    ensures RpcLookup(client, code, rpc) == RpcResult(None, None)
  {
  }

  /** The lookup is case-insensitive in the code: both attempts receive the upper-cased code. */
  lemma RpcLookupCaseInsensitive(client: Option<Client>, a: string, b: string, rpc: (string, string) -> RpcAttempt)
    requires Upper(a) == Upper(b)
    ensures RpcLookup(client, a, rpc) == RpcLookup(client, b, rpc)
  {
  }

  /** The evidently intended lookup: when no attempt yields a row and some attempt raised,
      the last exception message is reported, so that the caller can fall back. */
  function RpcLookupReportingErrors(client: Option<Client>, code: string, rpc: (string, string) -> RpcAttempt): (r: RpcResult)
    ensures r.row == RpcLookup(client, code, rpc).row
    ensures client.Some? && r.row.None? ==>
      (r.error.Some? <==> rpc(ParamNames[0], Upper(code)).RpcRaised? || rpc(ParamNames[1], Upper(code)).RpcRaised?)
  {
    if client.None? then RpcResult(None, Some("Client is None"))
    else
      var a0 := rpc(ParamNames[0], Upper(code));
      var a1 := rpc(ParamNames[1], Upper(code));
      var first := AttemptRow(a0);
      if first.Some? then RpcResult(first, None)
      else if AttemptRow(a1).Some? then RpcResult(AttemptRow(a1), None)
      else if a1.RpcRaised? then RpcResult(None, Some(a1.message))
      else if a0.RpcRaised? then RpcResult(None, Some(a0.message))
      else RpcResult(None, None)
  }
}
