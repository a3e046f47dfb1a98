/** The analytics charts (frontend/src/components/AnalyticsChart.tsx): how the analytics
    reply is reshaped for the charts, and the loading and error state around the fetch. Date
    keys are compared character by character, and the weekday label a date is shown with is a
    parameter. */
module AnalyticsChartView {
  import opened Text
  import opened Sorting
  import AE = AnalyticsEndpoints
  import Api = ApiService

  /** The fields of a `top_shares` entry the chart reads. */
  datatype TopShareEntry = TopShareEntry(name: string, views: int, code: string)

  /** `AnalyticsData` as the client receives it; JSON object entries keep their order. */
  datatype AnalyticsData = AnalyticsData(
    totalShares: int,
    totalViews: int,
    avgViews: real,
    recentShares: int,
    contentTypes: seq<(string, int)>,
    viewsByDate: seq<(string, int)>,
    topShares: seq<TopShareEntry>)

  datatype Point = Point(date: string, views: int)
  datatype Slice = Slice(name: string, value: int)
  datatype Bar = Bar(name: string, views: int, code: string)

  datatype ChartData = ChartData(
    viewsOverTime: seq<Point>,
    topShares: seq<Bar>,
    contentTypeDistribution: seq<Slice>,
    totalViews: int,
    totalShares: int,
    avgViewsPerShare: real,
    recentShares: int)

  datatype TimeRange = Week | Month | Quarter

  // ---------------------------------------------------------------------------
  // Views over time

  function DateKey(e: (string, int)): string {
    e.0
  }

  /** `a[0].localeCompare(b[0]) <= 0` on date keys. */
  predicate DateBefore(a: string, b: string) {
    AE.LexLe(a, b)
  }

  lemma DateOrder()
    ensures TotalPreorder(DateBefore)
  {
    forall a, b ensures DateBefore(a, b) || DateBefore(b, a) {
      AE.LexLeTotal(a, b);
    }
    forall a, b, c | DateBefore(a, b) && DateBefore(b, c) ensures DateBefore(a, c) {
      AE.LexLeTrans(a, b, c);
    }
  }

  /** `.sort(by date).slice(-7)`: the last seven entries in ascending date order. */
  function LatestDays(entries: seq<(string, int)>): (r: seq<(string, int)>)
    ensures |r| == if |entries| < 7 then |entries| else 7
    ensures multiset(r) <= multiset(entries)
  {
    var s := Sort(entries, DateKey, DateBefore);
    var k := if |s| < 7 then |s| else 7;
    assert s == s[..|s| - k] + s[|s| - k..];
    s[|s| - k..]
  }

  /** A tail of a sorted sequence is sorted. */
  lemma SortedTail<T, K>(s: seq<T>, k: nat, key: T -> K, before: (K, K) -> bool)
    requires k <= |s| && SortedBy(s, key, before)
    ensures SortedBy(s[|s| - k..], key, before)
  {
  }

  /** What the tail of a sorted permutation of `entries` leaves out comes before all of it. */
  lemma TailAfterRest<T, K>(entries: seq<T>, s: seq<T>, k: nat, key: T -> K, before: (K, K) -> bool)
    requires k <= |s| && multiset(s) == multiset(entries) && SortedBy(s, key, before)
    ensures forall e, x :: e in multiset(entries) - multiset(s[|s| - k..]) && x in s[|s| - k..] ==>
      before(key(e), key(x))
  {
    assert s == s[..|s| - k] + s[|s| - k..];
    assert multiset(entries) - multiset(s[|s| - k..]) == multiset(s[..|s| - k]);
    forall e, x | e in multiset(entries) - multiset(s[|s| - k..]) && x in s[|s| - k..]
      ensures before(key(e), key(x))
    {
      var i :| 0 <= i < |s| - k && s[i] == e;
      var j :| 0 <= j < k && s[|s| - k..][j] == x;
      assert s[|s| - k + j] == x;
    }
  }

  /** The kept days are in ascending order, and no dropped day comes after a kept one. */
  lemma LatestDaysAreLatest(entries: seq<(string, int)>)
    ensures SortedBy(LatestDays(entries), DateKey, DateBefore)
    ensures forall e, x :: e in multiset(entries) - multiset(LatestDays(entries)) && x in LatestDays(entries) ==>
      DateBefore(DateKey(e), DateKey(x))
  {
    DateOrder();
    var s := Sort(entries, DateKey, DateBefore);
    SortSorted(entries, DateKey, DateBefore);
    var k := if |s| < 7 then |s| else 7;
    assert LatestDays(entries) == s[|s| - k..];
    SortedTail(s, k, DateKey, DateBefore);
    TailAfterRest(entries, s, k, DateKey, DateBefore);
  }

  /** Each kept day under its weekday label. */
  function ViewsOverTime(entries: seq<(string, int)>, weekday: string -> string): (pts: seq<Point>)
    ensures |pts| <= 7
    ensures |pts| == |LatestDays(entries)|
    ensures forall i :: 0 <= i < |pts| ==>
      pts[i] == Point(weekday(LatestDays(entries)[i].0), LatestDays(entries)[i].1)
  {
    var days := LatestDays(entries);
    seq(|days|, i requires 0 <= i < |days| => Point(weekday(days[i].0), days[i].1))
  }

  // ---------------------------------------------------------------------------
  // Content types and top shares

  /** `name.charAt(0).toUpperCase() + name.slice(1)`. */
  function Capitalize(name: string): (r: string)
    ensures |r| == |name|
    ensures name != "" ==> r[0] == UpperChar(name[0]) && r[1..] == name[1..]
  {
    if name == "" then "" else [UpperChar(name[0])] + name[1..]
  }

  /** Names that do not start with a capital letter stay distinct once capitalised, so the
      pie keeps one slice per content type. */
  lemma CapitalizeInjective(a: string, b: string)
    requires a != "" ==> !('A' <= a[0] <= 'Z')
    requires b != "" ==> !('A' <= b[0] <= 'Z')
    requires Capitalize(a) == Capitalize(b)
    ensures a == b
  {
    if a != "" {
      assert Capitalize(a)[0] == Capitalize(b)[0];
      assert a == [a[0]] + a[1..] && b == [b[0]] + b[1..];
    }
  }

  function Distribution(types: seq<(string, int)>): (r: seq<Slice>)
    ensures |r| == |types|
    ensures forall i :: 0 <= i < |r| ==> r[i] == Slice(Capitalize(types[i].0), types[i].1)
  {
    seq(|types|, i requires 0 <= i < |types| => Slice(Capitalize(types[i].0), types[i].1))
  }

  function Bars(top: seq<TopShareEntry>): (r: seq<Bar>)
    ensures |r| == |top|
    ensures forall i :: 0 <= i < |r| ==> r[i] == Bar(top[i].name, top[i].views, top[i].code)
  {
    seq(|top|, i requires 0 <= i < |top| => Bar(top[i].name, top[i].views, top[i].code))
  }

  /** The whole transform: the latest days under their weekday labels, one capitalised
      slice per content type, one bar per top share; the totals, average and recent count
      are copied unchanged. */
  function Transform(data: AnalyticsData, weekday: string -> string): (c: ChartData)
    ensures |c.viewsOverTime| <= 7 && |c.viewsOverTime| <= |data.viewsByDate|
    ensures c.viewsOverTime == ViewsOverTime(data.viewsByDate, weekday)
    ensures c.contentTypeDistribution == Distribution(data.contentTypes)
    ensures c.topShares == Bars(data.topShares)
    ensures |c.contentTypeDistribution| == |data.contentTypes| && |c.topShares| == |data.topShares|
    ensures c.totalViews == data.totalViews && c.totalShares == data.totalShares
    ensures c.avgViewsPerShare == data.avgViews && c.recentShares == data.recentShares
  {
    ChartData(ViewsOverTime(data.viewsByDate, weekday), Bars(data.topShares), Distribution(data.contentTypes),
              data.totalViews, data.totalShares, data.avgViews, data.recentShares)
  }

  /** The charts' state. */
  class AnalyticsChart {
    var analytics: Option<ChartData>
    var loading: bool
    var error: Option<string>
    var timeRange: TimeRange

    constructor()
      ensures analytics.None? && loading && error.None? && timeRange == Week
    {
      analytics, loading, error, timeRange := None, true, None, Week;
    }

    /** `fetchAnalytics`: the error is cleared, then set to the failure's message, or the
        transformed data is stored. Loading ends on every path. */
    method FetchAnalytics(outcome: Api.Outcome<AnalyticsData>, weekday: string -> string)
      modifies this
      ensures !loading && timeRange == old(timeRange)
      ensures outcome.Ok? ==> analytics == Some(Transform(outcome.value, weekday)) && error.None?
      ensures outcome.Err? ==> analytics == old(analytics) && error == Some(outcome.message)
    {
      loading := true;
      error := None;
      match outcome {
        case Ok(data) =>
          analytics := Some(Transform(data, weekday));
        case Err(message) =>
          error := Some(message);
      }
      loading := false;
    }

    /** Choosing a range refetches, and the charts come out the same for every range. */
    method SetTimeRange(r: TimeRange, outcome: Api.Outcome<AnalyticsData>, weekday: string -> string)
      modifies this
      ensures timeRange == r && !loading
      ensures outcome.Ok? ==> analytics == Some(Transform(outcome.value, weekday))
      ensures outcome.Err? ==> analytics == old(analytics) && error == Some(outcome.message)
    {
      timeRange := r;
      FetchAnalytics(outcome, weekday);
    }
  }
}
