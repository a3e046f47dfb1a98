# codeshare in Dafny

codeshare is a paste-and-file sharing service. A Flask backend stores shares in Supabase,
in a `shares` table plus a `shared-files` storage bucket. Each share gets a six-character
code made of `A-Z0-9`. A React front end creates shares and looks them up by code. It also
previews and downloads files through a backend proxy, and shows per-user statistics,
analytics and an activity feed.

This project models the logic of that system in Dafny:

- `Config`: configuration constants and the `CORS_ORIGINS` parser (`backend/config.py`).
- `SupabaseClient`: environment and key selection, client creation, response unwrapping
  and the two-attempt RPC lookup (`backend/supabase_client.py`).
- `Application`: the endpoints of `backend/application.py`:
  - code generation;
  - the Bearer-token gate;
  - share creation with file upload;
  - lookup by code;
  - the file proxy with its host check;
  - per-user stats and share lists.
- `AnalyticsEndpoints`: `get_my_analytics` and `get_my_activity`
  (`backend/analytics_endpoints.py`).
- `ApiService`: the front end's API client (`frontend/src/services/apiService.ts`).
- `ShareComponent`, `RetrieveComponent`, `ShareViewPage`, `UserSharesPanel`, `Notifications`,
  `ShareOptionsPanel`, `AnalyticsChartView`, `Theme`: the React components and the hook.
  Each becomes a class whose fields are the component's state and whose methods are its
  handlers.
- `Text` and `Sorting`: the string operations and the stable sort that Python and
  JavaScript provide.

The outside world enters as parameters:

- the network, the database and storage are functions from request to response, or
  outcome datatypes;
- the clock is an integer;
- `random` is a draw oracle `nat -> Draw`, where a draw is an index into the 36-character
  alphabet.

## Model

| member | source | states |
|---|---|---|
| Text.OrElse | backend/config.py:12-13 | `s or d`: the value when it is truthy, otherwise the default |
| Text.TrimLeftRemovesSpace | backend/application.py:312 | the part `lstrip` drops is all whitespace |
| Text.TrimRightRemovesSpace | backend/application.py:312 | the part `rstrip` drops is all whitespace |
| Text.Strip | backend/application.py:312 | `strip()` (Python) or `trim()` (JavaScript), each with its own whitespace set: no leading or trailing whitespace is left, and the result is a contiguous slice of the input |
| Text.StripRemovesSpace | backend/application.py:312 | everything `strip()` drops, before and after the slice it keeps, is whitespace |
| Text.BlankIsAllSpace | backend/application.py:312 | a string that strips to nothing is whitespace throughout |
| Text.StripIdempotent | backend/application.py:312 | stripping twice is stripping once |
| Text.Lower | frontend/src/components/Share.tsx:79-80 | `toLowerCase()` keeps the length and maps each character to its lower-case form |
| Text.Upper | frontend/src/components/Retrieve.tsx:43 | `toUpperCase()` keeps the length and maps each character to its upper-case form |
| Text.LowerIdempotent | frontend/src/components/Share.tsx:79-80 | lower-casing is idempotent |
| Text.LowerOfUpper | frontend/src/components/Share.tsx:79-80 | lower-casing after upper-casing is the same as lower-casing alone |
| Text.Split | backend/config.py:15 | `split(",")` returns at least one piece and no piece contains the separator |
| Text.JoinSplit | backend/config.py:15 | joining the pieces of a split with the separator gives back the original string |
| Text.SplitAppend | backend/config.py:15 | splitting `a + sep + b` gives the pieces of `a` followed by those of `b` |
| Text.Decimal | frontend/src/services/apiService.ts:9 | a number's decimal text is non-empty and made only of digits |
| Text.DecimalValue | frontend/src/services/apiService.ts:9 | the decimal text reads back as the same number |
| Sorting.Sort | backend/analytics_endpoints.py:54 | `sorted` returns a permutation of its input: same length, same multiset |
| Sorting.Take | backend/analytics_endpoints.py:54 | `[:n]` is the prefix of length `min(n, len)` |
| Sorting.SortSorted | backend/analytics_endpoints.py:54 | under a total preorder, the sorted output is in order |
| Sorting.TakeSorted | backend/analytics_endpoints.py:54 | a prefix (`[:n]`) of a sorted sequence is sorted |
| Sorting.TakeSortTop | backend/analytics_endpoints.py:54 | the first `n` after sorting are drawn from the input, in order, and every element left out may follow each of them |
| Config.ConstantsConsistent | backend/config.py:33-57 | the limits are 10 MiB, a 24-hour default expiry within the 168-hour maximum, and 6-character codes |
| Config.StripAll | backend/config.py:15 | each piece is stripped, one result per piece |
| Config.NonEmptyShape | backend/config.py:15 | the `if o.strip()` filter keeps only non-empty entries taken from its input |
| Config.NonEmptyAppend | backend/config.py:15 | the filter keeps order (it distributes over concatenation) |
| Config.CorsOriginsFromEnv | backend/config.py:10-15 | an unset or empty `CORS_ORIGINS` gives the defaults |
| Config.CorsOriginsWellFormed | backend/config.py:15 | every configured origin is non-empty and already stripped |
| Config.CorsOriginsConcat | backend/config.py:15 | the origins of `a,b` are the origins of `a` followed by the origins of `b` |
| Config.CorsOriginsSingle | backend/config.py:15 | a single non-blank entry yields exactly that entry, stripped |
| SupabaseClient.Norm | backend/supabase_client.py:16-22 | a falsy value is unchanged; the placeholder text becomes `None`; anything else is stripped |
| SupabaseClient.GetEnv | backend/supabase_client.py:14-40 | the url is read as is; the key is the first truthy variable, normalised, and "no key" exactly when that is falsy; `service` exactly when a key equals the normalised service-role or service key, `anon` exactly when it equals neither but equals the raw anon key |
| SupabaseClient.PlaceholderShadowsLowerKeys | backend/supabase_client.py:16-29 | whichever variable is the first one set, a placeholder value there hides every later variable, so there is no key |
| SupabaseClient.ChangemeShadows | backend/supabase_client.py:20-29 | a service-role key of `changeme` leaves no key at all, whatever the other variables hold |
| SupabaseClient.GenericKeyEqualToAnon | backend/supabase_client.py:24-38 | a `SUPABASE_KEY` equal to the anon key, with no service key set, is classified as anon |
| SupabaseClient.ServiceRoleKeyWins | backend/supabase_client.py:31-34 | a real service-role key is selected and classified as the service role |
| SupabaseClient.AnonKeyAlone | backend/supabase_client.py:35-38 | an anon key on its own is classified as anon only when it needs no stripping |
| SupabaseClient.CreateClient | backend/supabase_client.py:43-60 | exactly one of client and error; a missing url or key is the configuration error; a client was built from that url and key |
| SupabaseClient.ExtractResponseData | backend/supabase_client.py:166-178 | a missing response is the error "Empty response"; attribute and dict responses give their own data and error; any data returned is the response's |
| SupabaseClient.FetchTableRows | backend/supabase_client.py:181-195 | no client gives "Client is None"; a raised call gives an error and no data; otherwise the response's data and error |
| SupabaseClient.PySliceTo | backend/supabase_client.py:212 | Python's `[:n]`: a prefix of length `min(n, len)`, or shorter for negative `n` |
| SupabaseClient.ListBucketObjects | backend/supabase_client.py:198-217 | no client gives "Client is None"; the listing is cut with `[:limit]` only when the limit is an integer; a raised call gives an error and no data |
| SupabaseClient.AttemptRow | backend/supabase_client.py:236-244 | a list reply gives its first row; an all-null or empty reply gives none; a raised call gives none |
| SupabaseClient.RpcGetShareByCode | backend/supabase_client.py:220-248 | tries `_code` then `code` with the upper-cased code and stops at the first row; makes no call without a client; the result equals the lookup function |
| SupabaseClient.RpcErrorsSwallowed | backend/supabase_client.py:225-248 | when both attempts raise, the result is `(None, None)` and no error is reported |
| SupabaseClient.RpcLookupCaseInsensitive | backend/supabase_client.py:229-235 | the lookup depends only on the upper-cased code |
| SupabaseClient.RpcLookupReportingErrors | backend/supabase_client.py:220-248 | corrected lookup: same row as the original, and an error exactly when some attempt raised |
| Application.AlphabetIsCodeChars | backend/application.py:240-242 | the generator's alphabet has 36 characters, `A-Z` then `0-9`, so draw `d` picks `CodeChar(d)` |
| Application.GenerateCode | backend/application.py:240-242 | a code of the requested length made only of `A-Z0-9` |
| Application.EveryCodeReachable | backend/application.py:240-242 | every `A-Z0-9` string of that length is produced by some sequence of draws |
| Application.BearerToken | backend/application.py:292-296 | a token exactly when the header starts with `Bearer `; it is the stripped rest of the header |
| Application.BearerRoundTrip | backend/application.py:292-296 | the header `Bearer t` gives back `t`, stripped |
| Application.Authorize | backend/application.py:447-465 | 500 with the client's error exactly when the client failed; then 401 "Missing or invalid Authorization header" without `Bearer `; then authorised exactly when the lookup of the stripped token finds a non-empty id, that id, else 401 "Invalid token" |
| Application.NoLookupWithoutBearer | backend/analytics_endpoints.py:9-27 | without `Bearer ` the answer does not depend on the user lookup |
| Application.NormalizeText | backend/application.py:312 | `(text or "").strip() or None`: `None` exactly for blank text, otherwise the stripped text |
| Application.Extension | backend/application.py:325 | the extension has no dot; it is `bin` for a name without a dot; otherwise the name is a prefix, a dot and the extension |
| Application.SplitBucketPath | backend/application.py:538-539 | present exactly when there is a `/`; the bucket has no `/`; the pieces glue back to the input |
| Application.ProxyLocatorRoundTrip | backend/application.py:374 | the proxy splits the locator built at upload back into the same bucket and path |
| Application.InsertFailure | backend/application.py:401-407 | a failed insert is 403 exactly for a row-level-security refusal, 401 exactly for a credential refusal that is not one, and otherwise 500 carrying the exception text |
| Application.ShareCode | backend/application.py:311 | the client's code when it is truthy, otherwise a freshly generated six-character code |
| Application.StoreUpload | backend/application.py:316-378 | an oversize file is 400 "File too large"; otherwise a stored file exactly when the upload succeeded, with the uploaded name, size and the preferred URL; a raised upload or an error answer is 500 "Upload failed: " followed by that error |
| Application.BuildPayload | backend/application.py:305-398 | 400 "File too large" exactly for an oversize file; a fitting file whose upload raised or was answered with an error is 500 "Upload failed: " followed by that error; any other failure is 400 or 500; success exactly when no file came, or it fits and the bucket stored it; a payload built has the code, normalised text, content type and file fields the request calls for, and the caller's user id |
| Application.NamelessPartIgnored | backend/application.py:313-315 | a file part without a name is not a file, whatever its length, since an upload without a name is falsy |
| Application.RequestUser | backend/application.py:292-303 | the owner is the id the `Bearer` token's lookup found; none exactly when there is no such header or the lookup found no id |
| Application.InsertShare | backend/application.py:387-418 | a successful insert is 201 with the payload and the row; a raised insert is the classified failure, never 400 |
| Application.CreateShare | backend/application.py:245-418 | client failure is 500 with the client's error; 400 "File too large" exactly when a file exceeds 10 MiB; a fitting file whose upload raised or was answered with an error is 500 "Upload failed: " followed by that error; a raised insert is the classified failure; success (201) exactly when the client works, the file if any fits and is stored, and the insert returns; the share then has the client's or a generated code, normalised text, content type `file` exactly for a file, a file URL that prefers public, then signed, then proxy, the requesting user's id, and the row the insert returned |
| Application.GetShareWith | backend/application.py:428-441 | an RPC error falls back to a select on the upper-cased code, whose first row is 200, whose empty result is 404 and whose exception is 500 with its text; an RPC with no row or an empty row is 404; an RPC row is returned as 200 |
| Application.GetShare | backend/application.py:421-441 | client failure is 500; every success is 200 |
| Application.GetShareFoundByRpc | backend/application.py:428-439 | a row the RPC finds is returned whatever the select would say |
| Application.GetShareFallbackUnreachable | backend/application.py:428-438 | as written, when both RPC attempts raise, the share is 404 even though the select would find it |
| Application.GetShareCorrected | backend/application.py:421-441 | with the corrected lookup, client failure is still 500 |
| Application.GetShareCorrectedFallsBack | backend/application.py:428-438 | with the corrected lookup, a raising RPC falls back to the select and the row is found |
| Application.TakeNetloc | backend/application.py:588-589 | the network location is a prefix containing no `/`, `?` or `#` |
| Application.AfterSchemeOf | backend/application.py:588-589 | with a valid scheme, what follows the first `:` is the rest of the URL |
| Application.NetlocAfter | backend/application.py:588-589 | after `scheme://`, the network location is read from what follows the two slashes |
| Application.NetlocOfUrl | backend/application.py:588-589 | a `scheme://host/path` URL (such as `https://host/path`) has `host`, less any tab, carriage return or line feed, as its network location |
| Application.LStripC0 | backend/application.py:588-589 | `urlsplit` drops the leading characters up to U+0020, all of them and no more |
| Application.LStripC0Pad | backend/application.py:588-589 | leading controls and spaces make no difference to the cleaned URL |
| Application.RemoveUnsafe | backend/application.py:588-589 | after the removal no tab, carriage return or line feed is left |
| Application.RemoveUnsafeKeepsOthers | backend/application.py:588-589 | every other character occurs as often as before |
| Application.RemoveUnsafeFrom | backend/application.py:588-589 | the removal adds no character |
| Application.RemoveUnsafeAppend | backend/application.py:588-589 | the removal distributes over concatenation |
| Application.RemoveUnsafeNone | backend/application.py:588-589 | text without those characters is unchanged |
| Application.NetlocIgnoresLeadingControls | backend/application.py:588-589 | controls and spaces in front of a URL do not change its network location |
| Application.TakeNetlocPrefix | backend/application.py:588-589 | the network location stops at the first `/`, `?` or `#` |
| Application.NetlocOfProxyLocator | backend/application.py:588-591 | a `proxy:` locator whose bucket is not empty once cleaned has no network location |
| Application.FetchPublic | backend/application.py:584-603 | a network location with one bracket and not the other, in either URL, is 502 "Fetch failed: Invalid IPv6 URL"; otherwise a missing allowed host or a different host is 400 "Invalid file host"; success exactly when the hosts match and the fetch returns, with its bytes and content type |
| Application.OpenBracketHostFails | backend/application.py:587-603 | an `https` URL whose host has `[` without `]` fails with 502 before any host comparison |
| Application.FetchFile | backend/application.py:522-603 | a missing url is 400; a non-proxy url goes through the host check; a proxy part without `/` is 502 with the unpack error; for a proxy locator with a bucket and a path: a client failure is 500 with the client's error, a signed fetch is 200 with its bytes and content type, a downloaded object is 200 with its bytes as `application/octet-stream`, a raised download is 502 "File access failed: " with its message, and an object that can be neither signed nor downloaded falls through to the host check; every success is 200 |
| Application.ProxyFallThroughIsInvalidHost | backend/application.py:535-591 | a proxy locator whose object cannot be obtained ends as "Invalid file host", or as the Supabase URL's own parse error |
| Application.HostlessProxyFallThrough | backend/application.py:535-591 | any proxy locator without a network location ends the same way |
| Application.SumParsedViewsAppend | backend/application.py:472-478 | the view sum distributes over concatenation |
| Application.SumParsedViewsNonNegative | backend/application.py:472-478 | non-negative counts give a non-negative total; skipped rows add nothing |
| Application.TotalViews | backend/application.py:472-478 | the accumulation loop computes the sum of the view counts that parse |
| Application.GetMyStats | backend/application.py:444-481 | gate failures are passed through; for an authorised caller a returned query is always 200 with the number of rows and their view sum, and a raised query is 500 "Failed to fetch stats: " with its text |
| Application.GetMyShares | backend/application.py:484-519 | gate failures are passed through; for an authorised caller a returned query is always 200 with the rows as queried, and a raised query is 500 "Failed to fetch shares: " with its text |
| AnalyticsEndpoints.Get | backend/analytics_endpoints.py:41 | `row.get(k, d)`: the default only for a missing key; a stored `None` stays `None` |
| AnalyticsEndpoints.BumpCount | backend/analytics_endpoints.py:42 | `counts[k] = counts.get(k, 0) + 1` adds one to `k` and leaves the other counts alone |
| AnalyticsEndpoints.TallyKey | backend/analytics_endpoints.py:40-42 | each key's tally is the number of times it occurs |
| AnalyticsEndpoints.ContentTypes | backend/analytics_endpoints.py:39-42 | one entry per distinct content type, exactly the types present, each with its occurrence count; the counts sum to the number of rows |
| AnalyticsEndpoints.ViewsByDate | backend/analytics_endpoints.py:47-51 | 30 distinct days ending today, each with 0 views |
| AnalyticsEndpoints.DaysDistinct | backend/analytics_endpoints.py:49-51 | consecutive days counted back from today are distinct and none is later than today |
| AnalyticsEndpoints.FirstViewError | backend/analytics_endpoints.py:36 | no error exactly when every view count parses |
| AnalyticsEndpoints.ViewCounts | backend/analytics_endpoints.py:36 | the view counts of the rows, in row order |
| AnalyticsEndpoints.MoreViewsTotal | backend/analytics_endpoints.py:54 | "more views first" is a total preorder |
| AnalyticsEndpoints.ToTop | backend/analytics_endpoints.py:55-63 | a top-share entry carries the row's code and content type (`None` when missing or null), its parsed view count, and its file name, or "Text Share" when the name is missing, null or empty |
| AnalyticsEndpoints.ByViews | backend/analytics_endpoints.py:54 | rows sorted by views are in non-increasing order, are taken from the rows, and the first has the most views |
| AnalyticsEndpoints.TopRows | backend/analytics_endpoints.py:54 | at most five rows drawn from the input, views non-increasing, and no row left out has more views than a row kept |
| AnalyticsEndpoints.TopShares | backend/analytics_endpoints.py:54-63 | one summary per top row, in order; views non-increasing; the first has the most views of all rows |
| AnalyticsEndpoints.TopRowFirst | backend/analytics_endpoints.py:54 | the first top row has at least as many views as any row |
| AnalyticsEndpoints.RecentCount | backend/analytics_endpoints.py:65-70 | a count results exactly when every `created_at` parses and compares with the cutoff |
| AnalyticsEndpoints.RecentCountCounts | backend/analytics_endpoints.py:65-70 | the count is the number of rows judged newer than seven days ago, so at most the number of rows |
| AnalyticsEndpoints.RecentCountFirstFailure | backend/analytics_endpoints.py:65-70 | a failure carries the error of the first timestamp that fails to parse or to compare, every earlier one having been compared |
| AnalyticsEndpoints.RecentCheckAsWritten | backend/analytics_endpoints.py:48-69 | against the offset-less `utcnow()` cutoff only a `created_at` without an offset compares; one with an offset raises the naive/aware `TypeError`, and an unparsable one its own error |
| AnalyticsEndpoints.RecentCheckCorrected | backend/analytics_endpoints.py:66-69 | comparing instants, every parsable `created_at` compares, one with an offset by its UTC time |
| AnalyticsEndpoints.OffsetTimestampFailsCount | backend/analytics_endpoints.py:48-69 | as written, one `created_at` with an offset anywhere in the rows fails the recent count |
| AnalyticsEndpoints.ZuluTimestampFailsCount | backend/analytics_endpoints.py:66-69 | as written, a single share created at `2024-05-01T10:00:00Z` fails the count with the naive/aware error |
| AnalyticsEndpoints.CorrectedCountsRecent | backend/analytics_endpoints.py:65-70 | corrected, rows whose `created_at` all parse always give a count, the number of rows newer than the cutoff |
| AnalyticsEndpoints.GetMyAnalytics | backend/analytics_endpoints.py:6-83 | gate failures are passed through; a raised query, an unparsable count or a timestamp that fails to parse or compare is 500 "Failed to fetch analytics: " with its error; success holds totals, the average, the number of recent rows, the content types summing to the total, 30 zero days and the top shares |
| AnalyticsEndpoints.AnalyticsWithoutBearer | backend/analytics_endpoints.py:13-15 | without a Bearer header the reply is 401 whatever the query would return |
| AnalyticsEndpoints.Created | backend/analytics_endpoints.py:118-125 | the creation entry is timestamped with `created_at` |
| AnalyticsEndpoints.Viewed | backend/analytics_endpoints.py:128-137 | the view entry is timestamped with `updated_at`, or `created_at` when that is falsy |
| AnalyticsEndpoints.ShareActivities | backend/analytics_endpoints.py:116-137 | the creation entry, then a view entry with the parsed count exactly when the share has views |
| AnalyticsEndpoints.ActivitiesCount | backend/analytics_endpoints.py:116-137 | the feed has one entry per share plus one per viewed share |
| AnalyticsEndpoints.LexLeTotal | backend/analytics_endpoints.py:140 | Python's string `<=` is total |
| AnalyticsEndpoints.LexLeTrans | backend/analytics_endpoints.py:140 | Python's string `<=` is transitive |
| AnalyticsEndpoints.LexLeAntisymmetric | backend/analytics_endpoints.py:140 | Python's string `<=` is antisymmetric |
| AnalyticsEndpoints.LaterTotal | backend/analytics_endpoints.py:140 | "later timestamp first" is a total preorder |
| AnalyticsEndpoints.FirstViewErrorAt | backend/analytics_endpoints.py:128 | the error reported is the one from the first unparsable count |
| AnalyticsEndpoints.CollectActivities | backend/analytics_endpoints.py:115-137 | the loop stops at the first unparsable count; otherwise it builds each share's entries in query order |
| AnalyticsEndpoints.Feed | backend/analytics_endpoints.py:140-142 | at most 20 entries drawn from the activities, latest first, and no entry left out is later than one kept |
| AnalyticsEndpoints.FeedFromActivities | backend/analytics_endpoints.py:140-142 | every feed entry is one of the activities |
| AnalyticsEndpoints.GetMyActivity | backend/analytics_endpoints.py:86-145 | gate failures are passed through; a raised query, the first unparsable count, or a missing timestamp compared by the sort is 500 "Failed to fetch activity: " with its error; success exactly when every count parses and no missing timestamp is compared; the reply is the sorted, truncated feed |
| ApiService.HandleResponse | frontend/src/services/apiService.ts:7-17 | a 2xx reply yields its parsed body; any other status throws the server's error text, or `Request failed with <status>` |
| ApiService.FailedStatusMessage | frontend/src/services/apiService.ts:9-14 | the fallback message names the status, and the status can be read back from it |
| ApiService.FormData.constructor | frontend/src/services/apiService.ts:28 | a new form has no fields |
| ApiService.FormData.Append | frontend/src/services/apiService.ts:29-30 | `append` adds one field at the end |
| ApiService.CreateRequestFor | frontend/src/services/apiService.ts:25-41 | multipart exactly with a file, file part first, text part exactly for truthy text; otherwise JSON whose text is the truthy text or `null` |
| ApiService.BuildCreateRequest | frontend/src/services/apiService.ts:27-39 | the `FormData` branch builds exactly the request the specification function gives |
| ApiService.AsBackendBody | frontend/src/services/apiService.ts:25-41 | the client never sends its own code |
| ApiService.CreateRequestKeepsText | frontend/src/services/apiService.ts:30-37 | dropping empty text or sending `null` stores the same `text_content` as sending the text |
| ApiService.CreateShare | frontend/src/services/apiService.ts:25-41 | the result is the handled reply to the request for that text and file |
| ApiService.GetShareRequest | frontend/src/services/apiService.ts:20-23 | the path is `/api/shares/` followed by the code |
| ApiService.DownloadRequest | frontend/src/services/apiService.ts:43-46 | every locator goes to `/api/files/fetch` with `url` set to it |
| ApiService.DownloadFile | frontend/src/services/apiService.ts:43-49 | the blob exactly on a 2xx reply, otherwise `Download failed with <status>` |
| ApiService.DownloadReachesProxy | frontend/src/services/apiService.ts:43-46 | a `proxy:` locator reaches the backend proxy unchanged and splits into its bucket and path |
| Theme.InitialTheme | frontend/src/hooks/use-theme.ts:6-9 | `system` without a stored value; otherwise the theme named by the stored text |
| Theme.StoredThemeRestores | frontend/src/hooks/use-theme.ts:6-9 | the theme the effect stores is the theme the next load starts from |
| Theme.Toggled | frontend/src/hooks/use-theme.ts:30-39 | the toggle never gives `system`; dark and light swap; from `system` it gives the opposite of the preference |
| Theme.ToggleTwice | frontend/src/hooks/use-theme.ts:30-39 | two toggles from dark or light return to the start |
| Theme.ModeClass | frontend/src/hooks/use-theme.ts:17-25 | the class is the preference under `system`, otherwise the theme's own name |
| Theme.Document.constructor | frontend/src/hooks/use-theme.ts:12 | the document starts with the given classes and storage |
| Theme.Document.ApplyTheme | frontend/src/hooks/use-theme.ts:11-28 | exactly one of `light` and `dark` remains for the three named themes, `dark` exactly when dark applies; storage holds the theme's name |
| Theme.ThemeHook.constructor | frontend/src/hooks/use-theme.ts:6-9 | the state starts from the stored theme |
| Theme.ThemeHook.Toggle | frontend/src/hooks/use-theme.ts:30-39 | after a toggle the theme is never `system` |
| ShareComponent.EndsWithAnyMember | frontend/src/components/Share.tsx:81-83 | a name ending in any listed suffix matches the anchored alternation |
| ShareComponent.LowerOr | frontend/src/components/Share.tsx:79-80 | `(x \|\| '').toLowerCase()`: empty for a falsy value, otherwise the lower-cased text |
| ShareComponent.InferPreviewKind | frontend/src/components/Share.tsx:78-85 | an `image/` type is an image; `other` only when the type is neither text nor pdf |
| ShareComponent.PreviewKindOfNothing | frontend/src/components/Share.tsx:78-85 | no name and no type is `other` |
| ShareComponent.PreviewKindIgnoresCase | frontend/src/components/Share.tsx:79-80 | upper-casing the name and the type does not change the kind |
| ShareComponent.ImageNameWins | frontend/src/components/Share.tsx:81 | an image suffix makes an image whatever the type |
| ShareComponent.PdfPriority | frontend/src/components/Share.tsx:81-82 | a `.pdf` name is a pdf, but an image type takes priority over it |
| ShareComponent.GenerateCode | frontend/src/components/Share.tsx:48-56 | the loop draws six characters of `A-Z0-9`, as the backend generator does |
| ShareComponent.CodeFile | frontend/src/components/Share.tsx:138-139 | the code buffer becomes a `text/plain` file named `fileName`, or `script.js` |
| ShareComponent.FileToShare | frontend/src/components/Share.tsx:134-141 | the code tab always sends a file; a picked file is sent as is |
| ShareComponent.ContentToShare | frontend/src/components/Share.tsx:133-140 | the text is emptied exactly when the code buffer is promoted to a file |
| ShareComponent.MetadataNeverAttached | frontend/src/components/Share.tsx:137-171 | the code-editor metadata is never attached, since the code tab always has a file |
| ShareComponent.DefaultCodeNotBlank | frontend/src/components/Share.tsx:43 | the initial code buffer is not blank |
| ShareComponent.BlankTextShareSent | frontend/src/components/Share.tsx:143-150 | as written, an empty text share from the text tab passes the guard and is sent as `text: null` |
| ShareComponent.CorrectedGuardSendsContent | frontend/src/components/Share.tsx:143-150 | with the corrected guard, every request sent carries a file, or JSON text that is not blank to `trim()` and that the backend normalises as it would the text itself |
| ShareComponent.CorrectedGuardKeepsText | frontend/src/components/Share.tsx:143-150 | when the content holds no character that only Python counts as whitespace, the corrected guard lets through only a file or text the backend keeps |
| ShareComponent.NotBlankToPython | backend/application.py:312 | text not blank to `trim()` and free of Python-only whitespace is not blank to `strip()` |
| ShareComponent.SeparatorTextDropped | frontend/src/components/Share.tsx:143-150 | the text U+001C passes the corrected guard, goes out as JSON, and is stored as no text |
| ShareComponent.GuardsDiffer | frontend/src/components/Share.tsx:143 | the two guards differ only when the unsent code buffer is not blank |
| ShareComponent.ShareForm.constructor | frontend/src/components/Share.tsx:33-45 | the initial state: text tab, default code buffer, `script.js`, no file |
| ShareComponent.ShareForm.HandleFileUpload | frontend/src/components/Share.tsx:58-75 | a file over 10 MiB is refused and nothing changes; otherwise it is kept and the text is cleared |
| ShareComponent.ShareForm.HandleShare | frontend/src/components/Share.tsx:132-202 | the guard stops with "Nothing to share"; otherwise one request is sent and the code shown is the server's |
| ShareComponent.ShareForm.Reset | frontend/src/components/Share.tsx:204-208 | clears the file, the text and the shown code, and keeps the editor |
| RetrieveComponent.Dotted | frontend/src/components/Retrieve.tsx:89-91 | each extension with a dot in front |
| RetrieveComponent.EndsWithExtDotted | frontend/src/components/Retrieve.tsx:89-91 | factoring the dot out of the alternation changes nothing |
| RetrieveComponent.ExtListsMatch | frontend/src/components/Retrieve.tsx:89-91 | this component's extension lists are the share form's, dotted |
| RetrieveComponent.InferPreviewKind | frontend/src/components/Retrieve.tsx:86-93 | an `image/` type is an image |
| RetrieveComponent.PreviewKindsAgree | frontend/src/components/Retrieve.tsx:86-93 | this classifier agrees with the share form's on every input |
| RetrieveComponent.LookupFor | frontend/src/components/Retrieve.tsx:42-45 | the code is upper-cased; the password is sent exactly when the prompt is up |
| RetrieveComponent.ApiLookup | frontend/src/services/apiService.ts:20-23 | the client never produces "password required"; found exactly when the API call succeeds |
| RetrieveComponent.PasswordIgnored | frontend/src/services/apiService.ts:20-23 | the password has no effect on the lookup's result |
| RetrieveComponent.Retrieve.constructor | frontend/src/components/Retrieve.tsx:14-23 | the initial panel state |
| RetrieveComponent.Retrieve.HandleRetrieve | frontend/src/components/Retrieve.tsx:27-64 | a blank code only shows a toast; otherwise one lookup with the trimmed upper-cased code, and the outcome sets the share, the prompt or the error |
| RetrieveComponent.Retrieve.Submit | frontend/src/components/Retrieve.tsx:37-63 | for a non-blank code: the preview is cleared, one lookup is recorded with the upper-cased code and the password only when one is required, the spinner is off afterwards, and the outcome decides share, prompt, password, error and toast case by case |
| RetrieveComponent.Retrieve.ApplyOutcome | frontend/src/components/Retrieve.tsx:40-60 | a found share is shown with the prompt closed and the password cleared; a password demand opens the prompt; any other failure shows its message and clears the share; the code and preview are untouched |
| RetrieveComponent.Retrieve.Cancel | frontend/src/components/Retrieve.tsx:270-274 | closes the password prompt and clears the password and the error |
| RetrieveComponent.Retrieve.Reset | frontend/src/components/Retrieve.tsx:78-84 | clears the code, the share and the error, and releases the preview URL |
| RetrieveComponent.Retrieve.HandlePreview | frontend/src/components/Retrieve.tsx:95-107 | only a file share with a URL is fetched; on success the old URL is released before being replaced |
| ShareViewPage.FallbackPath | frontend/src/pages/ShareView.tsx:77-78 | the name itself when it starts with the code, otherwise the code, a dash and the name; either way it starts with the code and ends with the name |
| ShareViewPage.FileLocator | frontend/src/pages/ShareView.tsx:73-80 | the record's URL when truthy; no locator exactly when there is neither URL nor name |
| ShareViewPage.FallbackReachesProxy | frontend/src/pages/ShareView.tsx:73-80 | the guessed locator is a proxy locator for the `shared-files` bucket that the backend splits back |
| ShareViewPage.CountdownFor | frontend/src/pages/ShareView.tsx:183-192 | expired exactly when no time is left; otherwise whole hours and minutes that bracket the time left |
| ShareViewPage.Render | frontend/src/pages/ShareView.tsx:183-197 | nothing before a share is loaded, `Expired`, or `<h>h <m>m remaining`, the hours left out when there are none |
| ShareViewPage.ExpiredExactly | frontend/src/pages/ShareView.tsx:183-197 | the page says `Expired` exactly when the expiry has been reached |
| ShareViewPage.UnderAnHour | frontend/src/pages/ShareView.tsx:191-197 | under an hour left, only minutes are shown |
| ShareViewPage.ShareView.constructor | frontend/src/pages/ShareView.tsx:25-31 | the page starts loading, with nothing fetched |
| ShareViewPage.ShareView.FetchShareData | frontend/src/pages/ShareView.tsx:34-53 | without a code, "Invalid share code"; otherwise one lookup, and failure is "Failed to load share"; loading always ends |
| ShareViewPage.ShareView.AutoPreview | frontend/src/pages/ShareView.tsx:56-102 | only a named file share is fetched, from its locator; success sets the URL and kind, failure "Preview not available" |
| UserSharesPanel.FormatSize | frontend/src/components/UserShares.tsx:62-67 | `-` exactly for a missing or non-positive size, then bytes, KB and MB by range |
| UserSharesPanel.FormatSizeMonotone | frontend/src/components/UserShares.tsx:62-67 | a larger size never takes an earlier branch |
| UserSharesPanel.FormatSizeBranch | frontend/src/components/UserShares.tsx:62-67 | each positive size takes exactly the branch its range names |
| UserSharesPanel.NameOnlyAgrees | frontend/src/components/UserShares.tsx:113-119 | the name-only classifier is the share form's classifier without a type |
| UserSharesPanel.CopyLinkUrl | frontend/src/components/UserShares.tsx:89-93 | the link is the origin followed by `/share/<code>` |
| UserSharesPanel.UserShares.constructor | frontend/src/components/UserShares.tsx:14-15 | no preview and nothing fetched |
| UserSharesPanel.UserShares.HandleOpen | frontend/src/components/UserShares.tsx:78-87 | nothing without a URL; otherwise one download, and a tab opens exactly when it succeeds; no toast either way |
| UserSharesPanel.UserShares.HandlePreview | frontend/src/components/UserShares.tsx:95-105 | nothing without a URL; a successful download replaces the preview without releasing the old URL; only a failed one toasts "Preview failed" |
| UserSharesPanel.UserShares.ClosePreview | frontend/src/components/UserShares.tsx:107-111 | releases the preview URL, if any, and clears the preview |
| Notifications.CountUnread | frontend/src/components/NotificationCenter.tsx:64 | the unread count is at most the list length |
| Notifications.MarkRead | frontend/src/components/NotificationCenter.tsx:68-70 | the entries with the id become read; the others are unchanged |
| Notifications.MarkAllRead | frontend/src/components/NotificationCenter.tsx:75 | every entry becomes read |
| Notifications.Without | frontend/src/components/NotificationCenter.tsx:80 | the filter keeps no entry with the deleted id and never grows the list |
| Notifications.WithoutFromInput | frontend/src/components/NotificationCenter.tsx:80 | every entry the filter keeps comes from the list |
| Notifications.Find | frontend/src/components/NotificationCenter.tsx:81 | a found entry is in the list with that id; none found means no entry has it |
| Notifications.FindFirst | frontend/src/components/NotificationCenter.tsx:81 | `find` returns the first entry with the id, whatever follows it |
| Notifications.MarkReadCount | frontend/src/components/NotificationCenter.tsx:68-70 | marking an id read lowers the unread count by exactly its unread entries |
| Notifications.MarkAllReadCount | frontend/src/components/NotificationCenter.tsx:75-76 | after marking all, none are unread |
| Notifications.WithoutCount | frontend/src/components/NotificationCenter.tsx:80 | deleting an id lowers the unread count by exactly its unread entries |
| Notifications.WithoutKeeps | frontend/src/components/NotificationCenter.tsx:80 | every entry with another id survives the delete |
| Notifications.WithoutAppend | frontend/src/components/NotificationCenter.tsx:80 | the filter keeps order (it distributes over concatenation) |
| Notifications.UniqueUnreadWith | frontend/src/components/NotificationCenter.tsx:81-83 | with unique ids, the unread entries under an id are the found entry when it is unread |
| Notifications.WithoutKeepsUnique | frontend/src/components/NotificationCenter.tsx:80 | deleting keeps ids unique |
| Notifications.CountAfterMarkAsRead | frontend/src/components/NotificationCenter.tsx:71 | `Math.max(0, prev - 1)` is never negative and is one less for a positive count |
| Notifications.NotificationCenter.constructor | frontend/src/components/NotificationCenter.tsx:19-21 | empty, closed, and the counter agrees with the list |
| Notifications.NotificationCenter.Load | frontend/src/components/NotificationCenter.tsx:63-64 | after loading, the counter equals the unread entries |
| Notifications.NotificationCenter.MarkAsRead | frontend/src/components/NotificationCenter.tsx:67-72 | as written: the entries are marked and the counter drops by one, floored at zero |
| Notifications.NotificationCenter.MarkAsReadCorrected | frontend/src/components/NotificationCenter.tsx:67-72 | corrected: the counter keeps agreeing with the list |
| Notifications.NotificationCenter.MarkAllAsRead | frontend/src/components/NotificationCenter.tsx:74-77 | all read, the counter is 0 and agrees with the list |
| Notifications.NotificationCenter.DeleteNotification | frontend/src/components/NotificationCenter.tsx:79-85 | the entries go; the counter drops when the found entry was unread; with unique ids the counter stays right |
| Notifications.MarkAsReadMiscounts | frontend/src/components/NotificationCenter.tsx:71 | marking an already-read entry leaves one unread entry with a counter of 0 |
| ShareOptionsPanel.Merge | frontend/src/components/AdvancedShareOptions.tsx:30-31 | the fields the partial names are overwritten, the others kept |
| ShareOptionsPanel.MergeIdempotent | frontend/src/components/AdvancedShareOptions.tsx:31 | applying a partial twice is applying it once |
| ShareOptionsPanel.MergeThen | frontend/src/components/AdvancedShareOptions.tsx:31 | successive updates compose, with the later one winning |
| ShareOptionsPanel.MergeNoChange | frontend/src/components/AdvancedShareOptions.tsx:31 | an empty partial changes nothing |
| ShareOptionsPanel.ExpiryChoice | frontend/src/components/AdvancedShareOptions.tsx:82-84 | `never` is stored as absent, any other choice as given |
| ShareOptionsPanel.ExpiryRoundTrip | frontend/src/components/AdvancedShareOptions.tsx:81-84 | the select shows back the choice just made |
| ShareOptionsPanel.MaxViewsInput | frontend/src/components/AdvancedShareOptions.tsx:112-116 | an empty box stores an absent limit, any other input its parsed value |
| ShareOptionsPanel.SummaryLines | frontend/src/components/AdvancedShareOptions.tsx:157-161 | one line per active protection in display order: "Password protected" exactly with a password, "Expires in <time>" with an expiry, "Limited to <n> views" with a non-zero limit, the one-time and sign-in lines exactly with their switches, and no line for an inactive protection |
| ShareOptionsPanel.ActiveProtections | frontend/src/components/AdvancedShareOptions.tsx:157-161 | the active protections, each once, in display order, and all of them |
| ShareOptionsPanel.LinesOfActive | frontend/src/components/AdvancedShareOptions.tsx:157-161 | a protection's line is among lines drawn from the active protections exactly when it is active |
| ShareOptionsPanel.SummaryShownIffLines | frontend/src/components/AdvancedShareOptions.tsx:153-162 | the box is shown exactly when it has a line |
| ShareOptionsPanel.SummaryInitially | frontend/src/components/AdvancedShareOptions.tsx:23-26 | nothing is shown initially; turning on one switch shows the box |
| ShareOptionsPanel.AdvancedShareOptions.constructor | frontend/src/components/AdvancedShareOptions.tsx:23-28 | both switches off, no password, nothing notified |
| ShareOptionsPanel.AdvancedShareOptions.UpdateOptions | frontend/src/components/AdvancedShareOptions.tsx:30-34 | the merged record is stored and is the value the callback gets |
| ShareOptionsPanel.AdvancedShareOptions.SetShowPassword | frontend/src/components/AdvancedShareOptions.tsx:52-56 | shows or hides the password box and leaves the options unchanged |
| AnalyticsChartView.DateOrder | frontend/src/components/AnalyticsChart.tsx:35 | the date comparison is a total preorder |
| AnalyticsChartView.LatestDays | frontend/src/components/AnalyticsChart.tsx:34-36 | at most seven entries, all taken from the input |
| AnalyticsChartView.LatestDaysAreLatest | frontend/src/components/AnalyticsChart.tsx:34-36 | the kept days are ascending, and no dropped day comes after a kept one |
| AnalyticsChartView.ViewsOverTime | frontend/src/components/AnalyticsChart.tsx:34-40 | one point per kept day, with its weekday label and its views |
| AnalyticsChartView.Capitalize | frontend/src/components/AnalyticsChart.tsx:44 | same length; the first character is upper-cased and the rest unchanged |
| AnalyticsChartView.CapitalizeInjective | frontend/src/components/AnalyticsChart.tsx:43-46 | names that do not start with a capital stay distinct |
| AnalyticsChartView.Distribution | frontend/src/components/AnalyticsChart.tsx:43-46 | one slice per content type, capitalised, with its count |
| AnalyticsChartView.Bars | frontend/src/components/AnalyticsChart.tsx:49-53 | one bar per top share with its name, views and code |
| AnalyticsChartView.Transform | frontend/src/components/AnalyticsChart.tsx:55-63 | the latest (at most seven) days under their weekday labels, one capitalised slice per content type, one bar per top share; the totals copied |
| AnalyticsChartView.AnalyticsChart.constructor | frontend/src/components/AnalyticsChart.tsx:20-24 | loading, no data, no error, a 7-day range |
| AnalyticsChartView.AnalyticsChart.FetchAnalytics | frontend/src/components/AnalyticsChart.tsx:26-69 | success stores the transformed data; failure stores the message; loading always ends |
| AnalyticsChartView.AnalyticsChart.SetTimeRange | frontend/src/components/AnalyticsChart.tsx:24-73 | choosing a range refetches, and the result does not depend on the range |

## Left out

- I/O, the web framework and the browser are not modelled:
  - Flask routing, request parsing, JSON encoding, logging;
  - CORS and Swagger set-up;
  - the health and debug endpoints;
  - the authentication endpoints and pages.
  The endpoints are modelled as functions of their decoded inputs.
- The Supabase SDK, storage, the network, the clock, `random` and `Date` are not modelled;
  their results are parameters.
- Object-URL creation is not modelled; the new URL is a parameter.
- React effects, re-rendering, cancellation flags and toasts are not modelled; only each
  toast's title is kept.
- Floating point is not modelled:
  - the KB/MB text of `formatSize` keeps the size it is computed from;
  - `formatFileSize` and `toLocaleString` are left out;
  - `avg_views` is the exact quotient, without the two-decimal rounding.
- Date formatting is not modelled:
  - `views_by_date` keys are day numbers, not `strftime` text;
  - the chart's weekday label is a parameter;
  - the parse and comparison of `created_at` is a parameter that says whether a row is
    recent or which error it raised; `RecentCheckAsWritten` builds it from the parsed time,
    with or without an offset, and shows that a time with an offset cannot be compared
    (see "## Findings").
- `localeCompare` is modelled as code-point order; Python's string order is the same.
- Regular expressions in the preview classifiers are modelled as lists of suffixes.
- Case mapping covers ASCII only. `strip` follows Python's whitespace set (`str.isspace`) and
  `trim` JavaScript's, each in full.
- Password protection, expiry and view limits are never enforced:
  - the backend stores no password;
  - `createShare` sends only the text and the file;
  - the retrieve panel imports `PasswordRequiredError` from the API client
    (frontend/src/components/Retrieve.tsx:8), but the client does not export it (its exports
    are at frontend/src/services/apiService.ts:5, 19 and 52), so as written the panel does
    not build. The `Retrieve` class models the panel as evidently intended: the error is an
    outcome the client could report, the client as written never reports it, and the
    password prompt is modelled but never reached through the API client
    (`RetrieveComponent.ApiLookup`).
- The share form's metadata and password fields are dropped before sending, so they are not
  modelled beyond `ShareComponent.MetadataNeverAttached`.
- The share form's preview effect (frontend/src/components/Share.tsx:88-103) is left out; it
  only creates and releases object URLs.
- ShareView's download handler (frontend/src/pages/ShareView.tsx:113-164) is left out beyond
  the locator it shares with the preview (`ShareViewPage.FileLocator`). Its revoke-on-unmount
  effects are left out too.
- The fallback path guessed by ShareView never matches the backend's storage path
  `<code>-<seconds>.<ext>`. The model shows that the guess reaches the proxy, not that the
  object exists.
- The unmount release of object URLs is not modelled. So is the fact that `handleRetrieve`
  clears `previewUrl` without releasing it: the model records that no release happens.
- `getMyShares` and `getMyAnalytics` are not part of the API client's source
  (frontend/src/services/apiService.ts). The components' loads are outcomes given as
  parameters, and the UserShares initial load is left out.
- ShareView reads a `views` field while the backend sends `view_count`; the view display is
  left out.
- The stats endpoint skips a view count that does not parse, while the analytics and activity
  endpoints fail on it. Both behaviours are modelled as written.
- `get_my_stats` when the data is not a list is left out.
- Exception texts of the SDK and Python are parameters or constants.
- Emoji are dropped from the summary lines; the activity icons are kept as text.
- A code-tab file's size is counted in characters, not encoded bytes.
- Codes are not upper-cased at creation, and lookups upper-case them; the model keeps both as
  written.
- `AnalyticsEndpoints.RecentCount` stops at the first `created_at` that does not parse, as
  Python's generator does. The count before the failure is not reported.
- `urllib.parse.urlsplit` is modelled up to the network location: the leading controls and
  spaces it strips, the tabs and line breaks it removes, the scheme, and its
  unbalanced-bracket error. Its further checks of a bracketed host (an IPv6 literal) and of a
  non-ASCII host under NFKC normalisation are not modelled; such hosts are compared as text.
- ShareComponent.CorrectedGuardSendsContent: does not promise that the backend keeps the
  text. `trim()` and `strip()` disagree on U+001C to U+001F and U+0085, which only Python
  counts as whitespace, so such text passes the guard and is stored as none
  (`ShareComponent.SeparatorTextDropped`). `CorrectedGuardKeepsText` states the promise
  for text without those characters.
- ShareOptionsPanel.MaxViewsInput: `parseInt` of input that is not a number gives `NaN`; the
  model's parsed value is always an integer.
- ShareOptionsPanel.SummaryLines: a limit of 0 makes React render a bare `0` inside the list;
  the model shows no line for it.
- Theme.Document.ApplyTheme: a stored theme name that is not a single class token (it holds
  whitespace) makes `classList.add` throw after the two classes were removed and before
  anything is stored; the model adds the name and stores it.
- AnalyticsEndpoints.TopRows: does not state the order among rows with equal view counts;
  Python's stable sort keeps query order, and so does `Sorting.Sort`, but no lemma says so.
  The same holds for `AnalyticsEndpoints.Feed` among equal timestamps.
- Members with no contract of their own are covered through their lemmas:
  - `SupabaseClient.RpcLookup`, through `RpcGetShareByCode` and `RpcLookupCaseInsensitive`;
  - `Application.StoragePath` and `Application.ProxyLocator`, through `ProxyLocatorRoundTrip`;
  - `Application.Netloc` and `Application.SplitRaises`, through `NetlocOfUrl`,
    `NetlocIgnoresLeadingControls`, `NetlocOfProxyLocator` and `OpenBracketHostFails`;
  - `Application.HasFile`, through `NamelessPartIgnored` and the create-share contracts;
  - `Application.SumParsedViews`, through `TotalViews` and its lemmas;
  - `ApiService.GetShareByCode`, through `RetrieveComponent.ApiLookup`;
  - `UserSharesPanel.NameOnlyKind`, through `NameOnlyAgrees`;
  - `ShareViewPage.TimeRemaining`, through `ExpiredExactly` and `UnderAnHour`;
  - `Config.NonEmpty`, through `NonEmptyShape`, `NonEmptyAppend` and the `CorsOrigins` lemmas;
  - the option inputs `PasswordInput`, `OneTimeViewSwitch` and `RequireAuthSwitch`,
    through `SummaryInitially`.
- ShareComponent.InferPreviewKind: its ensures covers the image-type and `other` cases only.
  The full priority order is stated by `PdfPriority`, `ImageNameWins` and
  `PreviewKindOfNothing`.
- RetrieveComponent.InferPreviewKind: its ensures covers the image type only. Its agreement
  with the share form's classifier is `PreviewKindsAgree`.
- Application.GetShare: its ensures covers client failure and the success status only. The
  lookup cases are stated by `GetShareWith`, `GetShareFoundByRpc` and
  `GetShareFallbackUnreachable`.

## Findings

| source | as written | input that shows it | evidently intended | confidence | as-written member | corrected member |
|---|---|---|---|---|---|---|
| backend/application.py:428-438 with backend/supabase_client.py:227-246 | `rpc_get_share_by_code` catches every exception and returns `(None, None)`, so `get_share` never sees an RPC error and its select fallback never runs | both RPC attempts raise (the function is not installed) while the `shares` table holds the code: the reply is 404 | report the failure so that `get_share` falls back to the table select | not executed | Application.GetShareFallbackUnreachable | Application.GetShareCorrectedFallsBack |
| frontend/src/components/NotificationCenter.tsx:71 | `markAsRead` lowers the unread counter even when the entry was already read | entries [unread "1", read "3"] with counter 1; `markAsRead("3")` leaves one unread entry and a counter of 0 | lower the counter by the number of unread entries marked | not executed | Notifications.MarkAsReadMiscounts | Notifications.NotificationCenter.MarkAsReadCorrected |
| frontend/src/components/Share.tsx:143-150 | the "Nothing to share" guard also tests the code buffer, which is not sent from the text tab | text tab, no file, empty text, the default code buffer: the request goes out as JSON `text: null` and a share with no content is created | test only what is about to be sent | not executed | ShareComponent.BlankTextShareSent | ShareComponent.CorrectedGuardSendsContent |
| backend/analytics_endpoints.py:48 with backend/analytics_endpoints.py:66-69 | "seven days ago" is computed from the offset-less `datetime.utcnow()`, while `created_at` is parsed after `Z` is rewritten to `+00:00`, giving a time with an offset; Python refuses to order the two | a user with one share created at `2024-05-01T10:00:00Z`: the comparison raises `TypeError`, and `get_my_analytics` answers 500 "Failed to fetch analytics: can't compare offset-naive and offset-aware datetimes" | compare instants, using an offset-aware "now" | not executed | AnalyticsEndpoints.OffsetTimestampFailsCount | AnalyticsEndpoints.CorrectedCountsRecent |
