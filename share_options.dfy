/** The advanced share options panel (frontend/src/components/AdvancedShareOptions.tsx): a
    record of options, updated by merging partial records into it, and the summary box. */
module ShareOptionsPanel {
  import opened Text

  /** `ShareOptions`: the optional fields may be absent (`undefined`). */
  datatype ShareOptions = ShareOptions(
    password: Option<string>,
    expiryTime: Option<string>,
    maxViews: Option<int>,
    oneTimeView: bool,
    requireAuth: bool)

  /** One field of a `Partial<ShareOptions>`: not mentioned, or given a value (which, for an
      optional field, may be `undefined`). */
  datatype Update<T> = Keep | Put(value: T)

  datatype Partial = Partial(
    password: Update<Option<string>>,
    expiryTime: Update<Option<string>>,
    maxViews: Update<Option<int>>,
    oneTimeView: Update<bool>,
    requireAuth: Update<bool>)

  const Initial: ShareOptions := ShareOptions(None, None, None, false, false)

  const NoChange: Partial := Partial(Keep, Keep, Keep, Keep, Keep)

  function Apply<T>(u: Update<T>, current: T): T {
    if u.Put? then u.value else current
  }

  /** `{ ...options, ...newOptions }`: the fields the partial mentions are overwritten, the
      others are kept. */
  function Merge(o: ShareOptions, p: Partial): (r: ShareOptions)
    ensures p.password.Put? ==> r.password == p.password.value
    ensures p.password.Keep? ==> r.password == o.password
    ensures p.expiryTime.Put? ==> r.expiryTime == p.expiryTime.value
    ensures p.expiryTime.Keep? ==> r.expiryTime == o.expiryTime
    ensures p.maxViews.Put? ==> r.maxViews == p.maxViews.value
    ensures p.maxViews.Keep? ==> r.maxViews == o.maxViews
    ensures p.oneTimeView.Put? ==> r.oneTimeView == p.oneTimeView.value
    ensures p.oneTimeView.Keep? ==> r.oneTimeView == o.oneTimeView
    ensures p.requireAuth.Put? ==> r.requireAuth == p.requireAuth.value
    ensures p.requireAuth.Keep? ==> r.requireAuth == o.requireAuth
  {
    ShareOptions(Apply(p.password, o.password), Apply(p.expiryTime, o.expiryTime), Apply(p.maxViews, o.maxViews),
                 Apply(p.oneTimeView, o.oneTimeView), Apply(p.requireAuth, o.requireAuth))
  }

  /** Two partials spread one after the other: the later one wins where both speak. */
  function Then(p: Partial, q: Partial): Partial {
    Partial(if q.password.Put? then q.password else p.password,
            if q.expiryTime.Put? then q.expiryTime else p.expiryTime,
            if q.maxViews.Put? then q.maxViews else p.maxViews,
            if q.oneTimeView.Put? then q.oneTimeView else p.oneTimeView,
            if q.requireAuth.Put? then q.requireAuth else p.requireAuth)
  }

  /** Applying the same partial twice is applying it once. */
  lemma MergeIdempotent(o: ShareOptions, p: Partial)
    ensures Merge(Merge(o, p), p) == Merge(o, p)
  {
  }

  /** Successive updates compose into one. */
  lemma MergeThen(o: ShareOptions, p: Partial, q: Partial)
    ensures Merge(Merge(o, p), q) == Merge(o, Then(p, q))
  {
  }

  /** An empty partial changes nothing. */
  lemma MergeNoChange(o: ShareOptions)
    ensures Merge(o, NoChange) == o
  {
  }

  // ---------------------------------------------------------------------------
  // Inputs

  /** The password box: the typed text, stored as given. */
  function PasswordInput(text: string): Partial {
    NoChange.(password := Put(Some(text)))
  }

  /** The expiry select: `never` is stored as absent, any other choice verbatim. */
  function ExpiryChoice(value: string): (p: Partial)
    ensures p.expiryTime.Put? && (p.expiryTime.value.None? <==> value == "never")
  {
    NoChange.(expiryTime := Put(if value == "never" then None else Some(value)))
  }

  /** The value the expiry select shows: `options.expiryTime || 'never'`. */
  function ExpiryShown(o: ShareOptions): string {
    OrElse(o.expiryTime, "never")
  }

  /** Choosing an expiry and reading the select back gives the choice, from any options. */
  lemma ExpiryRoundTrip(o: ShareOptions, value: string)
    requires value != ""
    ensures ExpiryShown(Merge(o, ExpiryChoice(value))) == value
  {
  }

  /** The max-views box: empty input is absent, otherwise `parseInt` of it (`parsed`). */
  function MaxViewsInput(text: string, parsed: int): (p: Partial)
    ensures p.maxViews.Put? && (p.maxViews.value.None? <==> text == "")
  {
    NoChange.(maxViews := Put(if text != "" then Some(parsed) else None))
  }

  /** A switch: the flag it controls, set to the switch's state. */
  function OneTimeViewSwitch(checked: bool): Partial {
    NoChange.(oneTimeView := Put(checked))
  }

  function RequireAuthSwitch(checked: bool): Partial {
    NoChange.(requireAuth := Put(checked))
  }

  // ---------------------------------------------------------------------------
  // Summary

  /** The condition the summary box is shown under: any protection is truthy. */
  predicate ShowSummary(o: ShareOptions) {
    Truthy(o.password) || Truthy(o.expiryTime) || LimitShown(o)
    || o.oneTimeView || o.requireAuth
  }

  /** An integer as a template literal prints it. */
  function IntText(n: int): string {
    if n < 0 then "-" + Decimal(-n) else Decimal(n)
  }

  /** A max-views limit the summary mentions: present and not zero. */
  predicate LimitShown(o: ShareOptions) {
    o.maxViews.Some? && o.maxViews.value != 0
  }

  /** Which protections are active, in display order: password, expiry, view limit,
      one-time view, sign-in. */
  function Flags(o: ShareOptions): (f: seq<bool>)
    ensures |f| == 5
  {
    [Truthy(o.password), Truthy(o.expiryTime), LimitShown(o), o.oneTimeView, o.requireAuth]
  }

  /** Protection `k` of the summary is active. */
  predicate Active(o: ShareOptions, k: nat) {
    k < 5 && Flags(o)[k]
  }

  /** What each protection's flag stands for. */
  lemma ActiveMeaning(o: ShareOptions)
    ensures Active(o, 0) <==> Truthy(o.password)
    ensures Active(o, 1) <==> Truthy(o.expiryTime)
    ensures Active(o, 2) <==> LimitShown(o)
    ensures Active(o, 3) <==> o.oneTimeView
    ensures Active(o, 4) <==> o.requireAuth
  {
  }

  /** A summary line's place in the display order, read from its first character. */
  function LineRank(line: string): nat {
    if line == [] then 5
    else if line[0] == 'P' then 0
    else if line[0] == 'E' then 1
    else if line[0] == 'L' then 2
    else if line[0] == 'S' then 3
    else if line[0] == 'A' then 4
    else 5
  }

  /** The line shown for protection `k` when it is active (without its leading emoji). */
  function LineText(o: ShareOptions, k: nat): (line: string)
    ensures k < 5 ==> LineRank(line) == k
  {
    if k == 0 then "Password protected"
    else if k == 1 then "Expires in " + OrElse(o.expiryTime, "")
    else if k == 2 then "Limited to " + IntText(if o.maxViews.Some? then o.maxViews.value else 0) + " views"
    else if k == 3 then "Self-destructs after first view"
    else "Authentication required"
  }

  /** The positions from `k` on whose flag is set, in order. */
  function SetFrom(flags: seq<bool>, k: nat): (ks: seq<nat>)
    requires k <= |flags|
    ensures |ks| <= |flags| - k
    ensures forall i :: 0 <= i < |ks| ==> k <= ks[i] < |flags| && flags[ks[i]]
    ensures forall i, j :: 0 <= i < j < |ks| ==> ks[i] < ks[j]
    ensures forall m :: k <= m < |flags| && flags[m] ==> m in ks
    decreases |flags| - k
  {
    if k == |flags| then []
    else (if flags[k] then [k] else []) + SetFrom(flags, k + 1)
  }

  /** The active protections, in display order. */
  function ActiveProtections(o: ShareOptions): (ks: seq<nat>)
    ensures |ks| <= 5
    ensures forall i :: 0 <= i < |ks| ==> ks[i] < 5 && Active(o, ks[i])
    ensures forall i, j :: 0 <= i < j < |ks| ==> ks[i] < ks[j]
    ensures forall m :: 0 <= m < 5 && Active(o, m) ==> m in ks
  {
    SetFrom(Flags(o), 0)
  }

  /** The lines the summary lists, one per active protection, in display order (without
      their leading emoji): every active protection's line is there, and every line shown
      belongs to an active protection. */
  function SummaryLines(o: ShareOptions): (lines: seq<string>)
    ensures |lines| == |ActiveProtections(o)| <= 5
    ensures forall i :: 0 <= i < |lines| ==> lines[i] == LineText(o, ActiveProtections(o)[i])
    ensures Truthy(o.password) <==> "Password protected" in lines
    ensures Truthy(o.expiryTime) ==> "Expires in " + o.expiryTime.value in lines
    ensures LimitShown(o) ==> "Limited to " + IntText(o.maxViews.value) + " views" in lines
    ensures o.oneTimeView <==> "Self-destructs after first view" in lines
    ensures o.requireAuth <==> "Authentication required" in lines
  {
    var ks := ActiveProtections(o);
    var lines := seq(|ks|, i requires 0 <= i < |ks| => LineText(o, ks[i]));
    LinesOfActive(o, ks, lines);
    ActiveMeaning(o);
    lines
  }

  /** Lines drawn one per active protection, covering them all, hold each protection's text
      exactly when it is active. */
  lemma LinesOfActive(o: ShareOptions, ks: seq<nat>, lines: seq<string>)
    requires forall i :: 0 <= i < |ks| ==> ks[i] < 5 && Active(o, ks[i])
    requires forall m :: 0 <= m < 5 && Active(o, m) ==> m in ks
    requires |lines| == |ks| && forall i :: 0 <= i < |ks| ==> lines[i] == LineText(o, ks[i])
    ensures forall k :: 0 <= k < 5 ==> (Active(o, k) <==> LineText(o, k) in lines)
  {
    forall k | 0 <= k < 5 ensures Active(o, k) <==> LineText(o, k) in lines {
      if Active(o, k) {
        var i :| 0 <= i < |ks| && ks[i] == k;
        assert lines[i] == LineText(o, k);
      }
      if LineText(o, k) in lines {
        var i :| 0 <= i < |lines| && lines[i] == LineText(o, k);
        assert LineRank(lines[i]) == ks[i] == k;
      }
    }
  }

  /** The box is shown exactly when it has a line to show. */
  lemma SummaryShownIffLines(o: ShareOptions)
    ensures ShowSummary(o) <==> SummaryLines(o) != []
  {
    var lines := SummaryLines(o);
    var ks := ActiveProtections(o);
    ActiveMeaning(o);
    if lines != [] {
      assert Active(o, ks[0]);
    }
  }

  /** Nothing is shown for the initial options; turning one switch on shows the box. */
  lemma SummaryInitially()
    ensures !ShowSummary(Initial)
    ensures ShowSummary(Merge(Initial, OneTimeViewSwitch(true)))
    ensures ShowSummary(Merge(Initial, RequireAuthSwitch(true)))
  {
  }

  /** The panel's state. `notified` records the values passed to `onOptionsChange`. */
  class AdvancedShareOptions {
    var options: ShareOptions
    var showPassword: bool
    var notified: seq<ShareOptions>

    constructor()
      ensures options == Initial && !showPassword && notified == []
    {
      options, showPassword, notified := Initial, false, [];
    }

    /** `updateOptions`: the merged record is stored and is the value the callback gets. */
    method UpdateOptions(p: Partial)
      modifies this
      ensures options == Merge(old(options), p)
      ensures notified == old(notified) + [options]
      ensures showPassword == old(showPassword)
    {
      var updated := Merge(options, p);
      options := updated;
      notified := notified + [updated];
    }

    /** The password switch shows or hides the password box; the options are untouched. */
    method SetShowPassword(checked: bool)
      modifies this
      ensures showPassword == checked && options == old(options) && notified == old(notified)
    {
      showPassword := checked;
    }
  }
}
