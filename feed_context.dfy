/** The EcoTrack cleanup feed store (`client/contexts/feed-context.tsx`): the
    loaded activities, the community statistics and the pagination cursor.
    Every server call is one step whose settled outcome is a parameter; the
    effect that reloads after a filter change is the caller's next step. */
module FeedContext {
  import opened Wrappers
  import opened Seqs
  import Api

  datatype ActivityLocation = ActivityLocation(latitude: real, longitude: real, address: string)

  /** One verified cleanup as the server returns it. */
  datatype CleanupActivity = CleanupActivity(
    id: string,
    userId: string,
    userName: string,
    userAvatar: Option<string>,
    wasteReportId: Option<string>,
    wasteType: string,
    location: ActivityLocation,
    description: string,
    beforeImage: Option<string>,
    afterImage: Option<string>,
    verificationImage: string,
    verified: bool,
    pointsEarned: int,
    likes: int,
    comments: int,
    cleanedAt: string,
    createdAt: string)

  /** Community totals. Every figure is an integer here; a fractional
      verification rate is not modelled. */
  datatype FeedStats = FeedStats(areasCleaned: int, photosShared: int, verificationRate: int, pointsEarned: int)

  /** The fallback shown when the statistics cannot be loaded. */
  const ZeroStats := FeedStats(0, 0, 0, 0)

  /** What `createCleanupActivity` sends. */
  datatype CleanupDraft = CleanupDraft(
    wasteReportId: Option<string>,
    wasteType: string,
    latitude: real,
    longitude: real,
    address: string,
    description: string,
    beforeImage: Option<string>,
    afterImage: Option<string>,
    verificationImage: string)

  /** One page of the activity listing: the activities and the server's
      `pagination.hasMore`. */
  datatype FeedPage = FeedPage(activities: seq<CleanupActivity>, hasMore: bool)

  /** The server's answer to a created activity. */
  datatype ActivityCreated = ActivityCreated(activity: CleanupActivity, pointsEarned: int)

  /** `{ success, pointsEarned? }`. */
  datatype CreateResult = CreateResult(success: bool, pointsEarned: Option<int>)

  /** The page query `loadFeedData` issues: page, the fixed limit 10 and the
      current filter. */
  datatype FeedQuery = FeedQuery(page: nat, limit: nat, filter: Api.FeedFilter)

  const PageSize: nat := 10

  /** The activity list after a like: only the `likes` field of the activities
      with the id changes. */
  function WithLikes(activities: seq<CleanupActivity>, id: string, likes: int): (r: seq<CleanupActivity>)
    ensures |r| == |activities|
    ensures forall i :: 0 <= i < |r| ==> r[i].(likes := activities[i].likes) == activities[i]
    ensures forall i :: 0 <= i < |r| ==> r[i].likes == (if activities[i].id == id then likes else activities[i].likes)
  {
    MapWhere(activities, (a: CleanupActivity) => a.id == id, (a: CleanupActivity) => a.(likes := likes))
  }

  class FeedStore {
    var activities: seq<CleanupActivity>
    var stats: Option<FeedStats>
    var loading: bool
    var hasMore: bool
    var currentPage: nat
    var currentFilter: Api.FeedFilter

    /** The cursor names a real page. */
    ghost predicate Valid()
      reads this
    {
      currentPage >= 1
    }

    constructor ()
      ensures Valid()
      ensures activities == [] && stats == None && !loading && hasMore
      ensures currentPage == 1 && currentFilter == Api.All
    {
      activities := [];
      stats := None;
      loading := false;
      hasMore := true;
      currentPage := 1;
      currentFilter := Api.All;
    }

    /** `loadFeedData(reset)`. A reset load asks for page 1 and replaces the
        list, any other load asks for the current page and appends; either way
        the cursor ends one past the requested page and `hasMore` is the
        server's. A failed load empties the list and leaves the cursor and
        `hasMore` alone. */
    method LoadFeedData(reset: bool, outcome: Outcome<FeedPage>) returns (query: FeedQuery)
      requires Valid()
      modifies this
      ensures Valid()
      ensures query == FeedQuery(if reset then 1 else old(currentPage), PageSize, old(currentFilter))
      ensures !loading
      ensures stats == old(stats) && currentFilter == old(currentFilter)
      ensures outcome.Ok? ==> activities == (if reset then [] else old(activities)) + outcome.value.activities
      ensures outcome.Ok? ==> currentPage == query.page + 1 && hasMore == outcome.value.hasMore
      ensures outcome.Err? ==> activities == [] && currentPage == old(currentPage) && hasMore == old(hasMore)
    {
      loading := true;
      var page := if reset then 1 else currentPage;
      query := FeedQuery(page, PageSize, currentFilter);
      match outcome {
        case Ok(response) =>
          if reset {
            activities := response.activities;
            currentPage := 1;
          } else {
            activities := activities + response.activities;
          }
          hasMore := response.hasMore;
          currentPage := page + 1;
        case Err(_) =>
          activities := [];
      }
      loading := false;
    }

    /** `loadFeedStats`: the server's statistics, or all zeros on failure. */
    method LoadFeedStats(outcome: Outcome<FeedStats>)
      modifies this
      ensures stats == Some(if outcome.Ok? then outcome.value else ZeroStats)
      ensures activities == old(activities) && loading == old(loading) && hasMore == old(hasMore)
      ensures currentPage == old(currentPage) && currentFilter == old(currentFilter)
    {
      match outcome
      case Ok(s) => stats := Some(s);
      case Err(_) => stats := Some(ZeroStats);
    }

    /** `createCleanupActivity`: on success the server's activity goes to the
        front and the statistics are reloaded (with `statsOutcome`); on
        failure nothing changes. */
    method CreateCleanupActivity(draft: CleanupDraft, outcome: Outcome<ActivityCreated>, statsOutcome: Outcome<FeedStats>)
      returns (result: CreateResult)
      modifies this
      ensures result.success == outcome.Ok?
      ensures outcome.Ok? ==> activities == [outcome.value.activity] + old(activities)
      ensures outcome.Ok? ==> result.pointsEarned == Some(outcome.value.pointsEarned)
      ensures outcome.Ok? ==> stats == Some(if statsOutcome.Ok? then statsOutcome.value else ZeroStats)
      ensures outcome.Err? ==> activities == old(activities) && stats == old(stats) && result.pointsEarned == None
      ensures loading == old(loading) && hasMore == old(hasMore)
      ensures currentPage == old(currentPage) && currentFilter == old(currentFilter)
    {
      match outcome {
        case Ok(created) =>
          activities := [created.activity] + activities;
          LoadFeedStats(statsOutcome);
          result := CreateResult(true, Some(created.pointsEarned));
        case Err(_) =>
          result := CreateResult(false, None);
      }
    }

    /** `loadMoreActivities`: nothing happens when there is nothing more or a
        load is in progress; otherwise it is a non-reset load. */
    method LoadMoreActivities(outcome: Outcome<FeedPage>) returns (query: Option<FeedQuery>)
      requires Valid()
      modifies this
      ensures Valid()
      ensures !old(hasMore) || old(loading) ==>
        query == None && activities == old(activities) && currentPage == old(currentPage)
        && hasMore == old(hasMore) && loading == old(loading)
      ensures old(hasMore) && !old(loading) ==>
        query == Some(FeedQuery(old(currentPage), PageSize, currentFilter)) && !loading
      ensures old(hasMore) && !old(loading) && outcome.Ok? ==>
        activities == old(activities) + outcome.value.activities && currentPage == old(currentPage) + 1
        && hasMore == outcome.value.hasMore
      ensures old(hasMore) && !old(loading) && outcome.Err? ==>
        activities == [] && currentPage == old(currentPage) && hasMore
      ensures stats == old(stats) && currentFilter == old(currentFilter)
    {
      if !hasMore || loading {
        return None;
      }
      var q := LoadFeedData(false, outcome);
      query := Some(q);
    }

    /** `likeActivity`: the server's like count replaces the `likes` of the
        activities with the id; a failure changes nothing. */
    method LikeActivity(id: string, outcome: Outcome<int>)
      modifies this
      ensures outcome.Ok? ==> activities == WithLikes(old(activities), id, outcome.value)
      ensures outcome.Err? ==> activities == old(activities)
      ensures stats == old(stats) && loading == old(loading) && hasMore == old(hasMore)
      ensures currentPage == old(currentPage) && currentFilter == old(currentFilter)
    {
      if outcome.Ok? {
        activities := WithLikes(activities, id, outcome.value);
      }
    }

    /** `refreshFeed`: a reset load followed by a statistics load. */
    method RefreshFeed(dataOutcome: Outcome<FeedPage>, statsOutcome: Outcome<FeedStats>) returns (query: FeedQuery)
      requires Valid()
      modifies this
      ensures Valid()
      ensures query == FeedQuery(1, PageSize, old(currentFilter))
      ensures dataOutcome.Ok? ==> activities == dataOutcome.value.activities && currentPage == 2
      ensures dataOutcome.Ok? ==> hasMore == dataOutcome.value.hasMore
      ensures dataOutcome.Err? ==> activities == [] && currentPage == old(currentPage) && hasMore == old(hasMore)
      ensures stats == Some(if statsOutcome.Ok? then statsOutcome.value else ZeroStats)
      ensures !loading && currentFilter == old(currentFilter)
    {
      query := LoadFeedData(true, dataOutcome);
      LoadFeedStats(statsOutcome);
    }

    /** `filterActivities`: a new filter restarts pagination. The list itself
        is untouched until the reload that the filter change triggers. */
    method FilterActivities(filter: Api.FeedFilter)
      modifies this
      ensures Valid()
      ensures currentFilter == filter && currentPage == 1 && hasMore
      ensures activities == old(activities) && stats == old(stats) && loading == old(loading)
    {
      currentFilter := filter;
      currentPage := 1;
      hasMore := true;
    }
  }

  /** A like on an id no activity has leaves the list as it was. */
  lemma LikeOnMissingIdChangesNothing(activities: seq<CleanupActivity>, id: string, likes: int)
    requires forall i :: 0 <= i < |activities| ==> activities[i].id != id
    ensures WithLikes(activities, id, likes) == activities
  {
    var r := WithLikes(activities, id, likes);
    forall i | 0 <= i < |r| ensures r[i] == activities[i] {
      assert r[i].(likes := activities[i].likes) == activities[i];
    }
  }

  /** Paging through the feed: after a reset load and `k` successful
      load-more steps, the cursor stands at `k + 2` and the list is the
      concatenation of the pages in order. */
  method PagingScenario(filter: Api.FeedFilter, first: FeedPage, more: seq<FeedPage>)
    returns (pages: seq<nat>, shown: seq<CleanupActivity>, cursor: nat)
    requires forall i :: 0 <= i < |more| ==> more[i].hasMore
    requires first.hasMore
    ensures |pages| == |more| + 1 && pages[0] == 1
    ensures forall i :: 0 <= i < |pages| ==> pages[i] == i + 1
    ensures cursor == |more| + 2
    ensures shown == first.activities + Concat(more)
  {
    var store := new FeedStore();
    store.FilterActivities(filter);
    var q := store.LoadFeedData(true, Ok(first));
    pages := [q.page];
    var k := 0;
    while k < |more|
      invariant 0 <= k <= |more|
      invariant store.Valid() && store.hasMore && !store.loading
      invariant store.currentPage == k + 2
      invariant |pages| == k + 1
      invariant forall i :: 0 <= i < |pages| ==> pages[i] == i + 1
      invariant store.activities == first.activities + Concat(more[..k])
    {
      var next := store.LoadMoreActivities(Ok(more[k]));
      pages := pages + [next.value.page];
      ConcatSnoc(more, k);
      k := k + 1;
    }
    assert more[..k] == more;
    shown := store.activities;
    cursor := store.currentPage;
  }

  /** Choosing the filter that is already active: the store restarts
      pagination, but the reload effect only runs when the filter value
      changes, so the list is not reloaded. The next "Load More" then asks
      for page 1 again and appends it to the pages already shown. */
  method SameFilterThenLoadMore(first: FeedPage, second: FeedPage, again: FeedPage)
    returns (queries: seq<FeedQuery>, shown: seq<CleanupActivity>)
    requires first.hasMore && second.hasMore
    ensures queries == [FeedQuery(1, PageSize, Api.All), FeedQuery(2, PageSize, Api.All), FeedQuery(1, PageSize, Api.All)]
    ensures shown == first.activities + second.activities + again.activities
  {
    var store := new FeedStore();
    var q1 := store.LoadFeedData(true, Ok(first));
    var q2 := store.LoadMoreActivities(Ok(second));
    store.FilterActivities(store.currentFilter);
    var q3 := store.LoadMoreActivities(Ok(again));
    queries := [q1, q2.value, q3.value];
    shown := store.activities;
  }

  /** All activities of a list of pages, in order. */
  function Concat(pages: seq<FeedPage>): seq<CleanupActivity> {
    if pages == [] then [] else Concat(pages[..|pages| - 1]) + pages[|pages| - 1].activities
  }

  lemma ConcatSnoc(pages: seq<FeedPage>, k: nat)
    requires k < |pages|
    ensures Concat(pages[..k + 1]) == Concat(pages[..k]) + pages[k].activities
  {
    assert pages[..k + 1][..k] == pages[..k];
  }
}
