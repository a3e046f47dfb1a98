/** The per-user analytics and activity feed (backend/analytics_endpoints.py). Python dicts
    are association lists in insertion order; dates are day numbers; the clock and the
    parse of `created_at` are parameters. */
module AnalyticsEndpoints {
  import opened Text
  import Sorting
  import SC = SupabaseClient
  import App = Application

  /** A column of a `shares` row as `row.get(name)` sees it: no such key, `None`, or text. */
  datatype Field = Missing | Null | Str(s: string)

  /** `row.get(name, default)`: the default only for a missing key; a stored `None` stays `None`. */
  function Get(f: Field, default: Option<string>): (r: Option<string>)
    ensures f.Missing? ==> r == default
    ensures f.Null? ==> r.None?
    ensures f.Str? ==> r == Some(f.s)
  {
    match f
    case Missing => default
    case Null => None
    case Str(s) => Some(s)
  }

  /** The columns of a `shares` row that the endpoints read. */
  datatype ShareRow = ShareRow(
    code: Field,
    contentType: Field,
    fileName: Field,
    viewCount: App.ViewCount,
    createdAt: Field,
    updatedAt: Field)

  // ---------------------------------------------------------------------------
  // Counting into a dict: `counts[k] = counts.get(k, 0) + 1`

  function Keys<K, V>(t: seq<(K, V)>): seq<K> {
    if t == [] then [] else [t[0].0] + Keys(t[1..])
  }

  predicate DistinctKeys<K(==), V>(t: seq<(K, V)>) {
    t == [] || (t[0].0 !in Keys(t[1..]) && DistinctKeys(t[1..]))
  }

  /** `counts.get(k, 0)`. */
  function CountIn<K(==)>(t: seq<(K, nat)>, k: K): nat {
    if t == [] then 0 else if t[0].0 == k then t[0].1 else CountIn(t[1..], k)
  }

  function SumCounts<K>(t: seq<(K, nat)>): nat {
    if t == [] then 0 else t[0].1 + SumCounts(t[1..])
  }

  /** `counts[k] = counts.get(k, 0) + 1`: an existing key keeps its place; a new one goes last. */
  function Bump<K(==)>(t: seq<(K, nat)>, k: K): (r: seq<(K, nat)>)
    ensures |r| == |t| || |r| == |t| + 1
  {
    if t == [] then [(k, 1)]
    else if t[0].0 == k then [(k, t[0].1 + 1)] + t[1..]
    else [t[0]] + Bump(t[1..], k)
  }

  /** How often `k` occurs in `keys`. */
  function CountOf<K(==)>(keys: seq<K>, k: K): nat {
    if keys == [] then 0
    else CountOf(keys[..|keys| - 1], k) + (if keys[|keys| - 1] == k then 1 else 0)
  }

  /** The dict the counting loop builds from `keys`, one key at a time. */
  function Tally<K(==)>(keys: seq<K>): seq<(K, nat)> {
    if keys == [] then [] else Bump(Tally(keys[..|keys| - 1]), keys[|keys| - 1])
  }

  lemma {:induction false} BumpKeys<K>(t: seq<(K, nat)>, k: K, k': K)
    ensures k' in Keys(Bump(t, k)) <==> k' in Keys(t) || k' == k
  {
    if t != [] && t[0].0 != k {
      BumpKeys(t[1..], k, k');
    }
  }

  lemma {:induction false} BumpDistinct<K>(t: seq<(K, nat)>, k: K)
    requires DistinctKeys(t)
    ensures DistinctKeys(Bump(t, k))
  {
    if t != [] && t[0].0 != k {
      BumpDistinct(t[1..], k);
      BumpKeys(t[1..], k, t[0].0);
      assert Bump(t, k)[1..] == Bump(t[1..], k);
    } else if t != [] {
      assert Bump(t, k)[1..] == t[1..];
    }
  }

  lemma {:induction false} BumpCount<K>(t: seq<(K, nat)>, k: K, k': K)
    ensures CountIn(Bump(t, k), k') == CountIn(t, k') + (if k' == k then 1 else 0)
    ensures SumCounts(Bump(t, k)) == SumCounts(t) + 1
  {
    if t == [] {
    } else if t[0].0 == k {
      assert Bump(t, k)[1..] == t[1..];
    } else {
      BumpCount(t[1..], k, k');
      assert Bump(t, k)[1..] == Bump(t[1..], k);
    }
  }

  /** In a dict with distinct keys every entry is what a lookup of its key returns. */
  lemma {:induction false} EntryIsLookup<K>(t: seq<(K, nat)>, j: nat)
    requires DistinctKeys(t) && j < |t|
    ensures t[j].1 == CountIn(t, t[j].0) && t[j].0 in Keys(t)
  {
    if j > 0 {
      EntryIsLookup(t[1..], j - 1);
      assert t[1..][j - 1] == t[j];
    }
  }

  lemma {:induction false} TallyShape<K>(keys: seq<K>)
    ensures DistinctKeys(Tally(keys))
    ensures SumCounts(Tally(keys)) == |keys|
  {
    if keys != [] {
      var init := keys[..|keys| - 1];
      var last := keys[|keys| - 1];
      TallyShape(init);
      BumpDistinct(Tally(init), last);
      BumpCount(Tally(init), last, last);
    }
  }

  lemma {:induction false} TallyKey<K>(keys: seq<K>, k: K)
    ensures k in Keys(Tally(keys)) <==> k in keys
    ensures CountIn(Tally(keys), k) == CountOf(keys, k)
  {
    if keys != [] {
      var init := keys[..|keys| - 1];
      var last := keys[|keys| - 1];
      TallyKey(init, k);
      BumpKeys(Tally(init), last, k);
      BumpCount(Tally(init), last, k);
      assert keys == init + [last];
    }
  }

  /** `row.get("content_type", "unknown")`. */
  function ContentKey(r: ShareRow): Option<string> {
    Get(r.contentType, Some("unknown"))
  }

  function ContentKeys(rows: seq<ShareRow>): (keys: seq<Option<string>>)
    ensures |keys| == |rows| && forall i :: 0 <= i < |rows| ==> keys[i] == ContentKey(rows[i])
  {
    seq(|rows|, i requires 0 <= i < |rows| => ContentKey(rows[i]))
  }

  /** The `content_types` loop: one entry per distinct content type, in first-seen order,
      holding how many rows carry it; the counts add up to the number of rows. */
  method ContentTypes(rows: seq<ShareRow>) returns (counts: seq<(Option<string>, nat)>)
    ensures counts == Tally(ContentKeys(rows))
    ensures DistinctKeys(counts)
    ensures forall k :: k in Keys(counts) <==> k in ContentKeys(rows)
    ensures forall j :: 0 <= j < |counts| ==> counts[j].1 == CountOf(ContentKeys(rows), counts[j].0)
    ensures SumCounts(counts) == |rows|
  {
    var keys := ContentKeys(rows);
    counts := [];
    var i := 0;
    while i < |rows|
      invariant 0 <= i <= |rows|
      invariant counts == Tally(keys[..i])
    {
      assert keys[..i + 1][..i] == keys[..i];
      counts := Bump(counts, keys[i]);
      i := i + 1;
    }
    assert keys[..|rows|] == keys;
    assert counts == Tally(keys);
    TallyShape(keys);
    forall k ensures k in Keys(counts) <==> k in keys {
      TallyKey(keys, k);
    }
    forall j | 0 <= j < |counts|
      ensures counts[j].1 == CountOf(keys, counts[j].0)
    {
      EntryIsLookup(counts, j);
      TallyKey(keys, counts[j].0);
    }
  }

  // ---------------------------------------------------------------------------
  // The 30-day view map

  /** The `views_by_date` loop: the 30 days ending today (as day numbers), newest first,
      each with 0 views. */
  method ViewsByDate(today: int) returns (byDate: seq<(int, nat)>)
    ensures |byDate| == 30
    ensures forall i :: 0 <= i < 30 ==> byDate[i] == (today - i, 0)
    ensures DistinctKeys(byDate)
  {
    byDate := [];
    for i := 0 to 30
      invariant |byDate| == i
      invariant forall j :: 0 <= j < i ==> byDate[j] == (today - j, 0)
    {
      byDate := byDate + [(today - i, 0)];
    }
    DaysDistinct(byDate, today);
  }

  lemma {:induction false} DaysDistinct(t: seq<(int, nat)>, first: int)
    requires forall j :: 0 <= j < |t| ==> t[j].0 == first - j
    ensures DistinctKeys(t)
    ensures forall d :: d in Keys(t) ==> d <= first
  {
    if t != [] {
      DaysDistinct(t[1..], first - 1);
    }
  }

  // ---------------------------------------------------------------------------
  // Top shares

  /** `int(row.get("view_count", 0))` for a row whose count parses. */
  function ViewsOf(r: ShareRow): int {
    match App.ParsedViews(r.viewCount)
    case Some(n) => n
    case None => 0
  }

  /** Every row's `view_count` parses. */
  predicate AllViewsParse(rows: seq<ShareRow>) {
    forall i :: 0 <= i < |rows| ==> App.ParsedViews(rows[i].viewCount).Some?
  }

  /** The text of the first exception `int(view_count)` raises over the rows, if any. */
  function FirstViewError(rows: seq<ShareRow>): (e: Option<string>)
    ensures e.None? <==> AllViewsParse(rows)
  {
    if rows == [] then None
    else if rows[0].viewCount.ViewBad? then Some(rows[0].viewCount.message)
    else
      var rest := FirstViewError(rows[1..]);
      assert AllViewsParse(rows) <==> AllViewsParse(rows[1..]) by {
        if AllViewsParse(rows[1..]) {
          forall i | 0 <= i < |rows| ensures App.ParsedViews(rows[i].viewCount).Some? {
            if i > 0 { assert rows[i] == rows[1..][i - 1]; }
          }
        }
      }
      rest
  }

  function ViewCounts(rows: seq<ShareRow>): (vs: seq<App.ViewCount>)
    ensures |vs| == |rows| && forall i :: 0 <= i < |rows| ==> vs[i] == rows[i].viewCount
  {
    seq(|rows|, i requires 0 <= i < |rows| => rows[i].viewCount)
  }

  /** Sorting key order for `reverse=True` on integers: larger first. */
  function MoreViews(a: int, b: int): bool {
    a >= b
  }

  lemma MoreViewsTotal()
    ensures Sorting.TotalPreorder(MoreViews)
  {
  }

  datatype TopShare = TopShare(code: Option<string>, views: int, kind: Option<string>, name: string)

  /** The summary of one top share: its code and content type (`None` when missing), its
      views, and its file name, or "Text Share" when it has none. */
  function ToTop(r: ShareRow): (t: TopShare)
    ensures t.code == (if r.code.Str? then Some(r.code.s) else None)
    ensures t.kind == (if r.contentType.Str? then Some(r.contentType.s) else None)
    ensures t.views == ViewsOf(r)
    ensures r.fileName.Str? && r.fileName.s != "" ==> t.name == r.fileName.s
    ensures !(r.fileName.Str? && r.fileName.s != "") ==> t.name == "Text Share"
  {
    TopShare(Get(r.code, None), ViewsOf(r), Get(r.contentType, None),
             OrElse(Get(r.fileName, None), "Text Share"))
  }

  /** Rows ordered by views, most first: a reordering of the rows whose head has the most. */
  lemma ByViews(rows: seq<ShareRow>)
    ensures var s := Sorting.Sort(rows, ViewsOf, MoreViews);
      && (forall i, j :: 0 <= i < j < |s| ==> ViewsOf(s[i]) >= ViewsOf(s[j]))
      && (forall i :: 0 <= i < |s| ==> s[i] in rows)
      && (forall r :: r in rows ==> ViewsOf(s[0]) >= ViewsOf(r))
  {
    var sorted := Sorting.Sort(rows, ViewsOf, MoreViews);
    MoreViewsTotal();
    Sorting.SortSorted(rows, ViewsOf, MoreViews);
    forall i | 0 <= i < |sorted| ensures sorted[i] in rows {
      assert sorted[i] in multiset(sorted);
    }
    forall r | r in rows ensures ViewsOf(sorted[0]) >= ViewsOf(r) {
      assert r in multiset(sorted);
      var k :| 0 <= k < |sorted| && sorted[k] == r;
      if k > 0 {
        assert MoreViews(ViewsOf(sorted[0]), ViewsOf(sorted[k]));
      }
    }
  }

  /** `sorted(data, key=views, reverse=True)[:5]`: at most five of the rows, most viewed
      first, and no row left out has more views than a row kept. */
  function TopRows(rows: seq<ShareRow>): (best: seq<ShareRow>)
    ensures |best| == if |rows| < 5 then |rows| else 5
    ensures multiset(best) <= multiset(rows)
    ensures forall i, j :: 0 <= i < j < |best| ==> ViewsOf(best[i]) >= ViewsOf(best[j])
    ensures forall r, i :: r in multiset(rows) - multiset(best) && 0 <= i < |best| ==> ViewsOf(best[i]) >= ViewsOf(r)
  {
    MoreViewsTotal();
    Sorting.TakeSortTop(rows, 5, ViewsOf, MoreViews);
    Sorting.Take(Sorting.Sort(rows, ViewsOf, MoreViews), 5)
  }

  /** The `top_shares` list: the top rows, each summarised, the first one with the most views. */
  function TopShares(rows: seq<ShareRow>): (top: seq<TopShare>)
    ensures |top| == |TopRows(rows)|
    ensures forall i :: 0 <= i < |top| ==> top[i] == ToTop(TopRows(rows)[i])
    ensures forall i, j :: 0 <= i < j < |top| ==> top[i].views >= top[j].views
    ensures forall r :: r in rows ==> top[0].views >= ViewsOf(r)
  {
    var best := TopRows(rows);
    TopRowFirst(rows);
    seq(|best|, i requires 0 <= i < |best| => ToTop(best[i]))
  }

  /** The first top row has the most views of all rows. */
  lemma TopRowFirst(rows: seq<ShareRow>)
    ensures forall r :: r in rows ==> ViewsOf(TopRows(rows)[0]) >= ViewsOf(r)
  {
    if rows != [] {
      ByViews(rows);
      assert TopRows(rows)[0] == Sorting.Sort(rows, ViewsOf, MoreViews)[0];
    }
  }

  // ---------------------------------------------------------------------------
  // Recent shares

  /** What parsing `created_at` (with `Z` read as `+00:00`) and comparing it with "seven days
      ago" gives: newer or not, or the text of the exception raised. */
  datatype RecentCheck = Newer(isNewer: bool) | BadTimestamp(message: string)

  datatype Counted = Count(n: nat) | CountFailed(message: string)

  /** The check of each row's `created_at`, in row order. */
  function Checks(rows: seq<ShareRow>, recent: Field -> RecentCheck): (cs: seq<RecentCheck>)
    ensures |cs| == |rows| && forall i :: 0 <= i < |rows| ==> cs[i] == recent(rows[i].createdAt)
  {
    seq(|rows|, i requires 0 <= i < |rows| => recent(rows[i].createdAt))
  }

  /** `sum(1 for row in data if created_at > seven_days_ago)`: a count when every
      timestamp parses, else the text of the first that raises. */
  function RecentCount(rows: seq<ShareRow>, recent: Field -> RecentCheck): (c: Counted)
    ensures c.Count? <==> forall i :: 0 <= i < |rows| ==> recent(rows[i].createdAt).Newer?
  {
    if rows == [] then Count(0)
    else match recent(rows[0].createdAt)
      case BadTimestamp(m) => CountFailed(m)
      case Newer(b) =>
        var rest := RecentCount(rows[1..], recent);
        AllNewerStep(rows, recent);
        match rest
        case CountFailed(m) => CountFailed(m)
        case Count(n) => Count(n + (if b then 1 else 0))
  }

  lemma AllNewerStep(rows: seq<ShareRow>, recent: Field -> RecentCheck)
    requires rows != [] && recent(rows[0].createdAt).Newer?
    ensures (forall i :: 0 <= i < |rows| ==> recent(rows[i].createdAt).Newer?) <==>
            (forall i :: 0 <= i < |rows[1..]| ==> recent(rows[1..][i].createdAt).Newer?)
  {
    forall i | 1 <= i < |rows| ensures rows[i] == rows[1..][i - 1] { }
  }

  /** The count is the number of rows judged newer than seven days ago. */
  lemma {:induction false} RecentCountCounts(rows: seq<ShareRow>, recent: Field -> RecentCheck)
    requires RecentCount(rows, recent).Count?
    ensures RecentCount(rows, recent).n == multiset(Checks(rows, recent))[Newer(true)]
    ensures RecentCount(rows, recent).n <= |rows|
  {
    if rows != [] {
      assert Checks(rows, recent) == [recent(rows[0].createdAt)] + Checks(rows[1..], recent);
      RecentCountCounts(rows[1..], recent);
    }
  }

  /** A failed count carries the message of the first timestamp that raises. */
  lemma {:induction false} RecentCountFirstFailure(rows: seq<ShareRow>, recent: Field -> RecentCheck)
    requires RecentCount(rows, recent).CountFailed?
    ensures exists i :: 0 <= i < |rows| && recent(rows[i].createdAt) == BadTimestamp(RecentCount(rows, recent).message)
                        && forall j :: 0 <= j < i ==> recent(rows[j].createdAt).Newer?
  {
    var m := RecentCount(rows, recent).message;
    if !recent(rows[0].createdAt).BadTimestamp? {
      RecentCountFirstFailure(rows[1..], recent);
      var i :| 0 <= i < |rows[1..]| && recent(rows[1..][i].createdAt) == BadTimestamp(m)
               && forall j :: 0 <= j < i ==> recent(rows[1..][j].createdAt).Newer?;
      assert rows[i + 1] == rows[1..][i];
      forall j | 0 <= j < i + 1 ensures recent(rows[j].createdAt).Newer? {
        if j > 0 { assert rows[j] == rows[1..][j - 1]; }
      }
    }
  }

  /** `datetime.fromisoformat` of a `created_at` after `Z` became `+00:00`: a time without an
      offset, a time with one (both in seconds, the latter converted to UTC), or the text of
      the exception raised for a missing, null or malformed value. */
  datatype ParsedTime = NaiveTime(seconds: int) | AwareTime(utcSeconds: int) | Unparsable(message: string)

  /** Python's `TypeError` text for ordering a time without an offset against one with. */
  const NaiveAwareError: string := "can't compare offset-naive and offset-aware datetimes"

  /** The check as written: "seven days ago" comes from the offset-less `datetime.utcnow()`,
      so only a `created_at` without an offset can be compared with it. */
  function RecentCheckAsWritten(p: ParsedTime, cutoff: int): (c: RecentCheck)
    ensures c.Newer? <==> p.NaiveTime?
    ensures p.AwareTime? ==> c == BadTimestamp(NaiveAwareError)
    ensures p.Unparsable? ==> c == BadTimestamp(p.message)
  {
    match p
    case NaiveTime(t) => Newer(t > cutoff)
    case AwareTime(_) => BadTimestamp(NaiveAwareError)
    case Unparsable(m) => BadTimestamp(m)
  }

  /** The check as evidently intended: both sides are instants, a time without an offset
      being read as UTC; only an unparsable value fails. */
  function RecentCheckCorrected(p: ParsedTime, cutoff: int): (c: RecentCheck)
    ensures c.Newer? <==> !p.Unparsable?
    ensures p.AwareTime? ==> c.isNewer == (p.utcSeconds > cutoff)
  {
    match p
    case NaiveTime(t) => Newer(t > cutoff)
    case AwareTime(t) => Newer(t > cutoff)
    case Unparsable(m) => BadTimestamp(m)
  }

  function AsWritten(parse: Field -> ParsedTime, cutoff: int): Field -> RecentCheck {
    f => RecentCheckAsWritten(parse(f), cutoff)
  }

  function Corrected(parse: Field -> ParsedTime, cutoff: int): Field -> RecentCheck {
    f => RecentCheckCorrected(parse(f), cutoff)
  }

  /** As written, one `created_at` with an offset (the `Z` the code itself rewrites into
      `+00:00` makes one) fails the whole count. */
  lemma OffsetTimestampFailsCount(rows: seq<ShareRow>, parse: Field -> ParsedTime, cutoff: int, i: nat)
    requires i < |rows| && parse(rows[i].createdAt).AwareTime?
    ensures RecentCount(rows, AsWritten(parse, cutoff)).CountFailed?
  {
    assert !AsWritten(parse, cutoff)(rows[i].createdAt).Newer?;
  }

  /** A concrete instance: one share created at `2024-05-01T10:00:00Z`. */
  lemma ZuluTimestampFailsCount(row: ShareRow, parse: Field -> ParsedTime, cutoff: int)
    requires row.createdAt == Str("2024-05-01T10:00:00Z")
    requires parse(Str("2024-05-01T10:00:00Z")) == AwareTime(1714557600)
    ensures RecentCount([row], AsWritten(parse, cutoff)) == CountFailed(NaiveAwareError)
  {
  }

  /** Corrected, every parsable `created_at` is compared, and the count is the number of
      rows newer than the cutoff. */
  lemma CorrectedCountsRecent(rows: seq<ShareRow>, parse: Field -> ParsedTime, cutoff: int)
    requires forall i :: 0 <= i < |rows| ==> !parse(rows[i].createdAt).Unparsable?
    ensures RecentCount(rows, Corrected(parse, cutoff)).Count?
    ensures RecentCount(rows, Corrected(parse, cutoff)).n == multiset(Checks(rows, Corrected(parse, cutoff)))[Newer(true)]
  {
    assert forall i :: 0 <= i < |rows| ==> Corrected(parse, cutoff)(rows[i].createdAt).Newer?;
    RecentCountCounts(rows, Corrected(parse, cutoff));
  }

  // ---------------------------------------------------------------------------
  // get_my_analytics

  datatype Analytics = Analytics(
    totalShares: nat,
    totalViews: int,
    avgViews: real,
    recentShares: nat,
    contentTypes: seq<(Option<string>, nat)>,
    viewsByDate: seq<(int, nat)>,
    topShares: seq<TopShare>)

  /** `get_my_analytics`. `today` is the current UTC day; `recent` judges each row's
      `created_at` against the clock. An unparsable view count or timestamp fails the whole
      request, unlike `get_my_stats`, which skips such counts. */
  method GetMyAnalytics(client: SC.ClientResult, header: string, getUser: string -> App.UserLookup,
                        query: SC.CallOutcome<seq<ShareRow>>, today: int, recent: Field -> RecentCheck)
    returns (reply: App.Reply<Analytics>)
    ensures !App.Authorize(client, header, getUser).Authorized? ==>
      reply == App.AuthFailureReply(App.Authorize(client, header, getUser))
    ensures App.Authorize(client, header, getUser).Authorized? && query.Returned? ==>
      (reply.Success? <==> AllViewsParse(query.value) && RecentCount(query.value, recent).Count?)
    ensures App.Authorize(client, header, getUser).Authorized? && query.Raised? ==>
      reply == App.Failure(500, "Failed to fetch analytics: " + query.message)
    ensures App.Authorize(client, header, getUser).Authorized? && query.Returned? && FirstViewError(query.value).Some? ==>
      reply == App.Failure(500, "Failed to fetch analytics: " + FirstViewError(query.value).value)
    ensures App.Authorize(client, header, getUser).Authorized? && query.Returned? && FirstViewError(query.value).None? &&
            RecentCount(query.value, recent).CountFailed? ==>
      reply == App.Failure(500, "Failed to fetch analytics: " + RecentCount(query.value, recent).message)
    ensures reply.Success? ==> query.Returned? && reply.status == 200
    ensures reply.Success? ==>
      var rows, a := query.value, reply.value;
      && a.totalShares == |rows|
      && a.totalViews == App.SumParsedViews(ViewCounts(rows))
      && (a.totalShares == 0 ==> a.avgViews == 0.0)
      && (a.totalShares > 0 ==> a.avgViews == a.totalViews as real / a.totalShares as real)
      && a.recentShares <= a.totalShares
      && a.recentShares == RecentCount(rows, recent).n == multiset(Checks(rows, recent))[Newer(true)]
      && a.contentTypes == Tally(ContentKeys(rows))
      && SumCounts(a.contentTypes) == a.totalShares
      && |a.viewsByDate| == 30
      && (forall i :: 0 <= i < 30 ==> a.viewsByDate[i] == (today - i, 0))
      && a.topShares == TopShares(rows)
  {
    var auth := App.Authorize(client, header, getUser);
    if !auth.Authorized? {
      return App.AuthFailureReply(auth);
    }
    if query.Raised? {
      return App.Failure(500, "Failed to fetch analytics: " + query.message);
    }
    var rows := query.value;
    var viewError := FirstViewError(rows);
    if viewError.Some? {
      return App.Failure(500, "Failed to fetch analytics: " + viewError.value);
    }
    var totalViews := App.TotalViews(ViewCounts(rows));
    var contentTypes := ContentTypes(rows);
    var byDate := ViewsByDate(today);
    var top := TopShares(rows);
    var recentCount := RecentCount(rows, recent);
    if recentCount.CountFailed? {
      return App.Failure(500, "Failed to fetch analytics: " + recentCount.message);
    }
    RecentCountCounts(rows, recent);
    var avg := if |rows| > 0 then totalViews as real / |rows| as real else 0.0;
    reply := App.Success(200, Analytics(|rows|, totalViews, avg, recentCount.n, contentTypes, byDate, top));
  }

  /** The gate comes before the query: without a Bearer header the reply is the same
      whatever the query would have returned. */
  method AnalyticsWithoutBearer(client: SC.ClientResult, header: string, getUser: string -> App.UserLookup,
                                q1: SC.CallOutcome<seq<ShareRow>>, q2: SC.CallOutcome<seq<ShareRow>>,
                                today: int, recent: Field -> RecentCheck)
    returns (r1: App.Reply<Analytics>, r2: App.Reply<Analytics>)
    requires client.error.None? && client.client.Some? && !StartsWith(header, "Bearer ")
    ensures r1 == r2 == App.Failure(401, "Missing or invalid Authorization header")
  {
    r1 := GetMyAnalytics(client, header, getUser, q1, today, recent);
    r2 := GetMyAnalytics(client, header, getUser, q2, today, recent);
  }

  // ---------------------------------------------------------------------------
  // get_my_activity

  datatype Activity = Activity(
    kind: string,
    action: string,
    item: Option<string>,
    code: Option<string>,
    timestamp: Option<string>,
    icon: string)

  /** `share.get("file_name") or share.get("code", "Unknown")`. */
  function ItemName(r: ShareRow): Option<string> {
    if Truthy(Get(r.fileName, None)) then Get(r.fileName, None) else Get(r.code, Some("Unknown"))
  }

  function Created(r: ShareRow): (a: Activity)
    ensures a.timestamp == Get(r.createdAt, None)
  {
    Activity("share_created", "Created share", ItemName(r), Get(r.code, None), Get(r.createdAt, None), "\U{1F4E4}")
  }

  /** The view entry: `updated_at`, falling back to `created_at`, as its time. */
  function Viewed(r: ShareRow, views: nat): (a: Activity)
    ensures a.timestamp == if Truthy(Get(r.updatedAt, None)) then Get(r.updatedAt, None) else Get(r.createdAt, None)
  {
    Activity("share_viewed", "Share viewed (" + Decimal(views) + " times)", ItemName(r), Get(r.code, None),
             if Truthy(Get(r.updatedAt, None)) then Get(r.updatedAt, None) else Get(r.createdAt, None),
             "\U{1F441}\U{FE0F}")
  }

  /** The entries one share contributes: its creation, and a view entry iff it has views. */
  function ShareActivities(r: ShareRow): (acts: seq<Activity>)
    ensures |acts| == if ViewsOf(r) > 0 then 2 else 1
    ensures acts[0] == Created(r)
    ensures ViewsOf(r) > 0 ==> acts[1] == Viewed(r, ViewsOf(r))
  {
    if ViewsOf(r) > 0 then [Created(r), Viewed(r, ViewsOf(r))] else [Created(r)]
  }

  /** The feed before sorting: each share's entries, shares in query order. */
  function Activities(rows: seq<ShareRow>): seq<Activity> {
    if rows == [] then [] else Activities(rows[..|rows| - 1]) + ShareActivities(rows[|rows| - 1])
  }

  /** The number of shares with at least one view. */
  function ViewedShares(rows: seq<ShareRow>): nat {
    if rows == [] then 0 else ViewedShares(rows[..|rows| - 1]) + (if ViewsOf(rows[|rows| - 1]) > 0 then 1 else 0)
  }

  /** One creation entry per share, one view entry per viewed share. */
  lemma {:induction false} ActivitiesCount(rows: seq<ShareRow>)
    ensures |Activities(rows)| == |rows| + ViewedShares(rows)
    ensures ViewedShares(rows) <= |rows|
  {
    if rows != [] {
      ActivitiesCount(rows[..|rows| - 1]);
    }
  }

  /** Python's `a <= b` on strings: code point by code point, a prefix first. */
  predicate LexLe(a: string, b: string) {
    a == [] || (b != [] && (a[0] < b[0] || (a[0] == b[0] && LexLe(a[1..], b[1..]))))
  }

  lemma {:induction false} LexLeTotal(a: string, b: string)
    ensures LexLe(a, b) || LexLe(b, a)
  {
    if a != [] && b != [] && a[0] == b[0] {
      LexLeTotal(a[1..], b[1..]);
    }
  }

  lemma {:induction false} LexLeTrans(a: string, b: string, c: string)
    requires LexLe(a, b) && LexLe(b, c)
    ensures LexLe(a, c)
  {
    if a != [] && b != [] && c != [] && a[0] == b[0] && b[0] == c[0] {
      LexLeTrans(a[1..], b[1..], c[1..]);
    }
  }

  lemma LexLeAntisymmetric(a: string, b: string)
    requires LexLe(a, b) && LexLe(b, a)
    ensures a == b
  {
    if a != [] && b != [] {
      LexLeAntisymmetric(a[1..], b[1..]);
      assert a == [a[0]] + a[1..] && b == [b[0]] + b[1..];
    }
  }

  /** The order of `sort(key=timestamp, reverse=True)`: the later timestamp first. */
  function Later(a: string, b: string): bool {
    LexLe(b, a)
  }

  lemma LaterTotal()
    ensures Sorting.TotalPreorder(Later)
  {
    forall a, b ensures Later(a, b) || Later(b, a) {
      LexLeTotal(a, b);
    }
    forall a, b, c | Later(a, b) && Later(b, c) ensures Later(a, c) {
      LexLeTrans(c, b, a);
    }
  }

  function TimestampKey(a: Activity): string {
    OrElse(a.timestamp, "")
  }

  /** Some entry has no timestamp (a stored `None`, which Python cannot compare with text). */
  predicate HasNullTimestamp(acts: seq<Activity>) {
    exists i :: 0 <= i < |acts| && acts[i].timestamp.None?
  }

  /** The first unparsable count is the first error in the rows: the loops stop there. */
  lemma {:induction false} FirstViewErrorAt(rows: seq<ShareRow>, i: nat)
    requires i < |rows| && AllViewsParse(rows[..i]) && rows[i].viewCount.ViewBad?
    ensures FirstViewError(rows) == Some(rows[i].viewCount.message)
  {
    if i > 0 {
      assert rows[..i][0] == rows[0];
      assert rows[1..][..i - 1] == rows[..i][1..];
      var pre := rows[1..][..i - 1];
      assert AllViewsParse(pre) by {
        forall k | 0 <= k < |pre| ensures App.ParsedViews(pre[k].viewCount).Some? {
          assert pre[k] == rows[..i][k + 1];
        }
      }
      FirstViewErrorAt(rows[1..], i - 1);
    }
  }

  /** One more share extends the feed by that share's entries. */
  lemma ActivitiesStep(rows: seq<ShareRow>, i: nat)
    requires i < |rows|
    ensures Activities(rows[..i + 1]) == Activities(rows[..i]) + ShareActivities(rows[i])
    ensures AllViewsParse(rows[..i]) && App.ParsedViews(rows[i].viewCount).Some? ==> AllViewsParse(rows[..i + 1])
  {
    assert rows[..i + 1][..i] == rows[..i];
  }

  /** The loop that builds the feed: each share's entries in query order, stopping with the
      text of the first `int(view_count)` that raises. */
  method CollectActivities(rows: seq<ShareRow>) returns (activities: seq<Activity>, error: Option<string>)
    ensures error == FirstViewError(rows)
    ensures error.None? ==> activities == Activities(rows)
  {
    activities := [];
    var i := 0;
    while i < |rows|
      invariant 0 <= i <= |rows|
      invariant AllViewsParse(rows[..i])
      invariant activities == Activities(rows[..i])
    {
      activities := activities + [Created(rows[i])];
      match App.ParsedViews(rows[i].viewCount) {
        case None =>
          FirstViewErrorAt(rows, i);
          return activities, Some(rows[i].viewCount.message);
        case Some(views) =>
          ActivitiesStep(rows, i);
          if views > 0 {
            activities := activities + [Viewed(rows[i], views)];
          }
      }
      i := i + 1;
    }
    assert rows[..|rows|] == rows;
    error := None;
  }

  /** `activities.sort(key=timestamp, reverse=True)` then `[:20]`: at most 20 entries taken
      from the feed, latest first, and no entry left out is later than one kept. */
  function Feed(acts: seq<Activity>): (feed: seq<Activity>)
    ensures |feed| == if |acts| < 20 then |acts| else 20
    ensures multiset(feed) <= multiset(acts)
    ensures Sorting.SortedBy(feed, TimestampKey, Later)
    ensures forall a, i :: a in multiset(acts) - multiset(feed) && 0 <= i < |feed| ==>
      Later(TimestampKey(feed[i]), TimestampKey(a))
  {
    LaterTotal();
    Sorting.TakeSortTop(acts, 20, TimestampKey, Later);
    Sorting.Take(Sorting.Sort(acts, TimestampKey, Later), 20)
  }

  /** Every entry of the feed comes from the activities. */
  lemma FeedFromActivities(acts: seq<Activity>)
    ensures forall i :: 0 <= i < |Feed(acts)| ==> Feed(acts)[i] in acts
  {
    var feed := Feed(acts);
    forall k | 0 <= k < |feed| ensures feed[k] in acts {
      assert feed[k] in multiset(feed);
    }
  }

  /** `get_my_activity`. `compareError` is the text of the `TypeError` Python raises when the
      sort compares a missing timestamp. */
  method GetMyActivity(client: SC.ClientResult, header: string, getUser: string -> App.UserLookup,
                       query: SC.CallOutcome<seq<ShareRow>>, compareError: string)
    returns (reply: App.Reply<seq<Activity>>)
    ensures !App.Authorize(client, header, getUser).Authorized? ==>
      reply == App.AuthFailureReply(App.Authorize(client, header, getUser))
    ensures App.Authorize(client, header, getUser).Authorized? && query.Returned? ==>
      (reply.Success? <==> AllViewsParse(query.value) &&
                           !(HasNullTimestamp(Activities(query.value)) && |Activities(query.value)| >= 2))
    ensures App.Authorize(client, header, getUser).Authorized? && query.Raised? ==>
      reply == App.Failure(500, "Failed to fetch activity: " + query.message)
    ensures App.Authorize(client, header, getUser).Authorized? && query.Returned? && FirstViewError(query.value).Some? ==>
      reply == App.Failure(500, "Failed to fetch activity: " + FirstViewError(query.value).value)
    ensures App.Authorize(client, header, getUser).Authorized? && query.Returned? && FirstViewError(query.value).None? &&
            HasNullTimestamp(Activities(query.value)) && |Activities(query.value)| >= 2 ==>
      reply == App.Failure(500, "Failed to fetch activity: " + compareError)
    ensures reply.Success? ==> query.Returned? && reply.status == 200 && reply.value == Feed(Activities(query.value))
  {
    var auth := App.Authorize(client, header, getUser);
    if !auth.Authorized? {
      return App.AuthFailureReply(auth);
    }
    if query.Raised? {
      return App.Failure(500, "Failed to fetch activity: " + query.message);
    }
    var activities, error := CollectActivities(query.value);
    if error.Some? {
      return App.Failure(500, "Failed to fetch activity: " + error.value);
    }
    if HasNullTimestamp(activities) && |activities| >= 2 {
      return App.Failure(500, "Failed to fetch activity: " + compareError);
    }
    reply := App.Success(200, Feed(activities));
  }
}
