/** The EcoTrack community feed page (`client/pages/Feed.tsx`): relative
    times, the statistics banner, the filter buttons and the load-more and
    empty-state conditions. */
module FeedPage {
  import opened Wrappers
  import opened Text
  import Clock
  import Api
  import FeedContext

  /** The feed's `getTimeAgo` label, in the short "h ago" / "d ago" form. */
  function TimeAgoLabel(now: int, createdAt: int): (s: string)
    ensures s == "Just now" <==> now - createdAt < Clock.HourMs
    ensures Clock.AgeOf(now - createdAt).HoursAgo? ==>
      s == NatToDecimal(Clock.AgeOf(now - createdAt).hours) + "h ago"
    ensures Clock.AgeOf(now - createdAt).DaysAgo? ==>
      s == NatToDecimal(Clock.AgeOf(now - createdAt).days) + "d ago"
  {
    match Clock.AgeOf(now - createdAt)
    case JustNow => "Just now"
    case HoursAgo(h) =>
      var t := NatToDecimal(h) + "h ago";
      assert t[0] == NatToDecimal(h)[0] != "Just now"[0];
      t
    case DaysAgo(d) =>
      var t := NatToDecimal(d) + "d ago";
      assert t[0] == NatToDecimal(d)[0] != "Just now"[0];
      t
  }

  lemma ShortUnitsDiffer(x: string, y: string)
    ensures x + "h ago" != y + "d ago"
  {
    var a := x + "h ago";
    var b := y + "d ago";
    assert a[|a| - 5] == 'h';
    assert b[|b| - 5] == 'd';
  }

  /** Two activities get the same label exactly when their ages fall in the
      same bucket. */
  lemma {:induction false} TimeAgoLabelInjective(now: int, t1: int, t2: int)
    ensures TimeAgoLabel(now, t1) == TimeAgoLabel(now, t2) <==> Clock.AgeOf(now - t1) == Clock.AgeOf(now - t2)
  {
    var a1 := Clock.AgeOf(now - t1);
    var a2 := Clock.AgeOf(now - t2);
    if a1.HoursAgo? && a2.DaysAgo? {
      ShortUnitsDiffer(NatToDecimal(a1.hours), NatToDecimal(a2.days));
    }
    if a1.DaysAgo? && a2.HoursAgo? {
      ShortUnitsDiffer(NatToDecimal(a2.hours), NatToDecimal(a1.days));
    }
    if TimeAgoLabel(now, t1) == TimeAgoLabel(now, t2) {
      if a1.HoursAgo? && a2.HoursAgo? {
        SuffixCancel(NatToDecimal(a1.hours), NatToDecimal(a2.hours), "h ago");
        NatToDecimalInjective(a1.hours, a2.hours);
      } else if a1.DaysAgo? && a2.DaysAgo? {
        SuffixCancel(NatToDecimal(a1.days), NatToDecimal(a2.days), "d ago");
        NatToDecimalInjective(a1.days, a2.days);
      }
    }
  }

  /** How a banner figure is shown: the number itself, or in thousands with
      a "k" (the one-decimal rounding is not modelled). */
  datatype StatDisplay = Plain(n: int) | Thousands(n: int)

  /** `stats?.x || 0`: a missing or zero figure shows as 0, any other
      figure as itself. */
  function PlainStat(v: Option<int>): (shown: int)
    ensures v.Some? && v.value != 0 ==> shown == v.value
    ensures shown == 0 <==> v.None? || v.value == 0
  {
    if v.Some? && v.value != 0 then v.value else 0
  }

  /** The photo and point figures: 0 when missing or zero, the "k" form from
      1000 on, and the raw number below that. */
  function ScaledStat(v: Option<int>): (d: StatDisplay)
    ensures d == Plain(0) <==> v.None? || v.value == 0
    ensures d.Thousands? <==> v.Some? && v.value >= 1000
    ensures d.Thousands? ==> d.n == v.value
    ensures d.Plain? && d.n != 0 ==> v == Some(d.n) && d.n < 1000
  {
    if v.Some? && v.value != 0 then
      (if v.value >= 1000 then Thousands(v.value) else Plain(v.value))
    else Plain(0)
  }

  /** The four banner figures: areas, photos, verification rate, points. */
  datatype Banner = Banner(areas: int, photos: StatDisplay, rate: int, points: StatDisplay)

  /** The banner: all zeros without statistics; otherwise the areas and
      the rate as they are, the photos and points in their scaled form. */
  function BannerFor(stats: Option<FeedContext.FeedStats>): (b: Banner)
    ensures stats.None? ==> b == Banner(0, Plain(0), 0, Plain(0))
    ensures stats.Some? ==> b.areas == stats.value.areasCleaned && b.rate == stats.value.verificationRate
    ensures stats.Some? ==> b.photos == ScaledStat(Some(stats.value.photosShared))
    ensures stats.Some? ==> b.points == ScaledStat(Some(stats.value.pointsEarned))
  {
    match stats
    case None => Banner(PlainStat(None), ScaledStat(None), PlainStat(None), ScaledStat(None))
    case Some(s) =>
      Banner(PlainStat(Some(s.areasCleaned)), ScaledStat(Some(s.photosShared)),
             PlainStat(Some(s.verificationRate)), ScaledStat(Some(s.pointsEarned)))
  }

  /** The fallback statistics of a failed load show the same banner as no
      statistics at all. */
  lemma ZeroStatsShowAsMissing()
    ensures BannerFor(Some(FeedContext.ZeroStats)) == BannerFor(None)
  {
  }

  /** "Load More" is rendered only while the store has more. */
  predicate LoadMoreVisible(hasMore: bool) { hasMore }

  /** ... and is disabled while a load is in progress. */
  predicate LoadMoreDisabled(loading: bool) { loading }

  /** The empty state: no activities and nothing loading. */
  predicate EmptyStateVisible(activities: seq<FeedContext.CleanupActivity>, loading: bool) {
    |activities| == 0 && !loading
  }

  /** The page's local filter and the buttons it highlights. */
  class FeedView {
    var filter: Api.FeedFilter

    constructor ()
      ensures filter == Api.All
    {
      filter := Api.All;
    }

    /** The highlighted button names the filter the store loads with. */
    predicate InSync(feed: FeedContext.FeedStore)
      reads this, feed
    {
      filter == feed.currentFilter
    }

    /** `handleFilterChange`: the same filter goes to the page and to the
        store, which restarts pagination. */
    method HandleFilterChange(newFilter: Api.FeedFilter, feed: FeedContext.FeedStore)
      modifies this, feed
      ensures filter == newFilter && InSync(feed)
      ensures feed.currentPage == 1 && feed.hasMore
      ensures feed.activities == old(feed.activities) && feed.stats == old(feed.stats) && feed.loading == old(feed.loading)
    {
      filter := newFilter;
      feed.FilterActivities(newFilter);
    }
  }

  /** The page and a fresh store agree on the filter, and every filter click
      keeps them in agreement. After the clicks the last one is highlighted
      (or "all" when there were none), and the store is back at page 1 with
      more to load and still nothing on screen. */
  method FilterClicksStayInSync(clicks: seq<Api.FeedFilter>)
    returns (synced: bool, highlighted: Api.FeedFilter, page: nat, more: bool, shown: seq<FeedContext.CleanupActivity>)
    ensures synced
    ensures highlighted == if |clicks| == 0 then Api.All else clicks[|clicks| - 1]
    ensures page == 1 && more && shown == []
  {
    var view := new FeedView();
    var feed := new FeedContext.FeedStore();
    var i := 0;
    while i < |clicks|
      invariant 0 <= i <= |clicks|
      invariant view.InSync(feed)
      invariant view.filter == if i == 0 then Api.All else clicks[i - 1]
      invariant feed.currentPage == 1 && feed.hasMore && feed.activities == []
    {
      view.HandleFilterChange(clicks[i], feed);
      i := i + 1;
    }
    synced := view.InSync(feed);
    highlighted, page, more, shown := view.filter, feed.currentPage, feed.hasMore, feed.activities;
  }

  /** A click on "Load More" goes to the store's `loadMoreActivities`: it
      issues a request exactly when the button is rendered and enabled, for
      the store's current page. A failed load leaves the empty state on
      screen; a successful one shows it only when both the old list and the
      new page are empty. */
  method LoadMoreClick(feed: FeedContext.FeedStore, outcome: Outcome<FeedContext.FeedPage>)
    returns (query: Option<FeedContext.FeedQuery>)
    requires feed.Valid()
    modifies feed
    ensures query.Some? <==> LoadMoreVisible(old(feed.hasMore)) && !LoadMoreDisabled(old(feed.loading))
    ensures feed.Valid()
    ensures query.Some? ==> query.value == FeedContext.FeedQuery(old(feed.currentPage), FeedContext.PageSize, old(feed.currentFilter))
    ensures query.Some? ==> !feed.loading
    ensures query.Some? && outcome.Ok? ==>
      feed.activities == old(feed.activities) + outcome.value.activities
      && feed.currentPage == old(feed.currentPage) + 1 && feed.hasMore == outcome.value.hasMore
    ensures query.Some? && outcome.Err? ==>
      feed.activities == [] && feed.currentPage == old(feed.currentPage) && feed.hasMore == old(feed.hasMore)
    ensures query.None? ==>
      feed.activities == old(feed.activities) && feed.currentPage == old(feed.currentPage)
      && feed.hasMore == old(feed.hasMore) && feed.loading == old(feed.loading)
    ensures feed.stats == old(feed.stats) && feed.currentFilter == old(feed.currentFilter)
    ensures query.Some? && outcome.Err? ==> EmptyStateVisible(feed.activities, feed.loading)
    ensures query.Some? && outcome.Ok? ==>
      (EmptyStateVisible(feed.activities, feed.loading) <==> old(feed.activities) == [] && outcome.value.activities == [])
  {
    query := feed.LoadMoreActivities(outcome);
  }
}
