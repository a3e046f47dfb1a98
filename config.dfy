/** The backend configuration (backend/config.py): the CORS origin list read from the
    environment and the share and file constants. */
module Config {
  import opened Text

  /** `MAX_FILE_SIZE`: 10 MiB. */
  const MaxFileSize: nat := 10 * 1024 * 1024
  const DefaultExpiryHours: nat := 24
  const MaxExpiryHours: nat := 168
  const CodeLength: nat := 6

  const DefaultCorsOrigins: seq<string> := [
    "http://localhost:3000",
    "http://localhost:5173",
    "http://localhost:8080",
    "http://localhost:8081",
    "https://localhost:3000",
    "https://localhost:8080",
    "https://localhost:8081",
    "https://your-frontend-domain.com"
  ]

  /** The constants fit together: the default lifetime is within the maximum, a week. */
  lemma ConstantsConsistent()
    ensures MaxFileSize == 10485760
    ensures CodeLength == 6
    ensures DefaultExpiryHours <= MaxExpiryHours == 7 * 24
  {
  }

  /** `o.strip()` for each comma-separated piece. */
  function StripAll(pieces: seq<string>): (r: seq<string>)
    ensures |r| == |pieces|
    ensures forall k :: 0 <= k < |r| ==> r[k] == Strip(Python, pieces[k]) && IsStripped(Python, r[k])
  {
    seq(|pieces|, k requires 0 <= k < |pieces| => Strip(Python, pieces[k]))
  }

  /** `if o.strip()`: the non-empty strings, in order. */
  function NonEmpty(xs: seq<string>): seq<string>
  {
    if xs == [] then []
    else (if xs[0] != "" then [xs[0]] else []) + NonEmpty(xs[1..])
  }

  /** `_cors_origins_from_env`: the defaults when `CORS_ORIGINS` is unset or empty, else the
      comma-separated origins, each stripped, empty ones dropped. */
  function CorsOriginsFromEnv(raw: Option<string>, defaults: seq<string>): (origins: seq<string>)
    ensures !Truthy(raw) ==> origins == defaults
  {
    if !Truthy(raw) then defaults else NonEmpty(StripAll(Split(raw.value, ',')))
  }

  /** Stripping works piece by piece, so it distributes over concatenation. */
  lemma StripAllAppend(a: seq<string>, b: seq<string>)
    ensures StripAll(a + b) == StripAll(a) + StripAll(b)
  {
    assert forall k :: 0 <= k < |a| ==> (a + b)[k] == a[k];
    assert forall k :: |a| <= k < |a| + |b| ==> (a + b)[k] == b[k - |a|];
  }

  /** What is kept is non-empty and comes from the input. */
  lemma {:induction false} NonEmptyShape(xs: seq<string>)
    ensures forall k :: 0 <= k < |NonEmpty(xs)| ==> NonEmpty(xs)[k] != "" && NonEmpty(xs)[k] in xs
  {
    if xs != [] {
      var head := if xs[0] != "" then [xs[0]] else [];
      var rest := NonEmpty(xs[1..]);
      NonEmptyShape(xs[1..]);
      forall k | 0 <= k < |head + rest|
        ensures (head + rest)[k] != "" && (head + rest)[k] in xs
      {
        if k < |head| {
          assert (head + rest)[k] == xs[0];
        } else {
          assert (head + rest)[k] == rest[k - |head|];
          assert rest[k - |head|] in xs[1..];
        }
      }
    }
  }

  /** Filtering keeps order: it distributes over concatenation. */
  lemma {:induction false} NonEmptyAppend(a: seq<string>, b: seq<string>)
    ensures NonEmpty(a + b) == NonEmpty(a) + NonEmpty(b)
  {
    if a == [] {
      assert a + b == b;
    } else {
      assert (a + b)[0] == a[0] && (a + b)[1..] == a[1..] + b;
      NonEmptyAppend(a[1..], b);
    }
  }

  /** Every configured origin is non-empty and carries no surrounding whitespace. */
  lemma CorsOriginsWellFormed(raw: string)
    requires raw != ""
    ensures var origins := CorsOriginsFromEnv(Some(raw), []);
      forall k :: 0 <= k < |origins| ==> origins[k] != "" && IsStripped(Python, origins[k])
  {
    var stripped := StripAll(Split(raw, ','));
    NonEmptyShape(stripped);
    forall k | 0 <= k < |NonEmpty(stripped)| ensures IsStripped(Python, NonEmpty(stripped)[k]) {
      var j :| 0 <= j < |stripped| && stripped[j] == NonEmpty(stripped)[k];
    }
  }

  /** Order is kept: the origins of `a,b` are the origins of `a` followed by those of `b`. */
  lemma CorsOriginsConcat(a: string, b: string)
    requires a != "" && b != ""
    ensures CorsOriginsFromEnv(Some(a + "," + b), []) ==
            CorsOriginsFromEnv(Some(a), []) + CorsOriginsFromEnv(Some(b), [])
  {
    SplitAppend(a, b, ',');
    StripAllAppend(Split(a, ','), Split(b, ','));
    NonEmptyAppend(StripAll(Split(a, ',')), StripAll(Split(b, ',')));
  }

  /** One origin, padded with blanks, comes back stripped and alone. */
  lemma CorsOriginsSingle(o: string)
    requires o != "" && ',' !in o
    ensures CorsOriginsFromEnv(Some(o), []) == if Strip(Python, o) == "" then [] else [Strip(Python, o)]
  {
    assert Split(o, ',') == [o];
    assert StripAll([o]) == [Strip(Python, o)];
    assert NonEmpty([Strip(Python, o)]) == (if Strip(Python, o) != "" then [Strip(Python, o)] else []) + NonEmpty([]);
  }
}
