/** The EcoTrack map page (`client/pages/Map.tsx`): which reports are listed
    for the chosen status and search text, the report whose location the map
    centres on, relative-time labels, badge colours and status counts. */
module MapPage {
  import opened Wrappers
  import opened Seqs
  import opened Text
  import Clock
  import opened WasteReportsContext

  /** The status filter value that matches every report. */
  const AllStatuses: string := "all"

  /** Completed reports stay on the map for one day. */
  const CompletedVisibleMs: int := 24 * 60 * 60 * 1000

  /** A completed report whose completion lies more than a day before `now`
      is hidden. */
  predicate IsStale(r: WasteReport, now: int) {
    r.status == "completed" && r.completedAt.Some? && now - r.completedAt.value > CompletedVisibleMs
  }

  predicate MatchesStatus(r: WasteReport, selectedStatus: string) {
    selectedStatus == AllStatuses || r.status == selectedStatus
  }

  /** The search is a case-insensitive substring test on the waste type, the
      address and the description. */
  predicate MatchesSearch(r: WasteReport, query: string) {
    query == ""
    || Includes(ToLower(r.wasteType), ToLower(query))
    || Includes(ToLower(r.location.address), ToLower(query))
    || Includes(ToLower(r.description), ToLower(query))
  }

  predicate IsListed(r: WasteReport, selectedStatus: string, query: string, now: int) {
    !IsStale(r, now) && MatchesStatus(r, selectedStatus) && MatchesSearch(r, query)
  }

  /** `filteredReports`: the reports passing all three tests, in their
      original order. */
  function FilteredReports(reports: seq<WasteReport>, selectedStatus: string, query: string, now: int): (r: seq<WasteReport>)
    ensures IsSubsequence(r, reports)
    ensures forall i :: 0 <= i < |r| ==> IsListed(r[i], selectedStatus, query, now)
    ensures forall i :: 0 <= i < |reports| && IsListed(reports[i], selectedStatus, query, now) ==> reports[i] in r
    ensures forall i :: 0 <= i < |reports| ==>
      multiset(r)[reports[i]] == if IsListed(reports[i], selectedStatus, query, now) then multiset(reports)[reports[i]] else 0
  {
    Filter(reports, (x: WasteReport) => IsListed(x, selectedStatus, query, now))
  }

  /** A stale completed report is never listed, whatever the filters say. */
  lemma StaleNeverListed(reports: seq<WasteReport>, selectedStatus: string, query: string, now: int, x: WasteReport)
    requires IsStale(x, now)
    ensures x !in FilteredReports(reports, selectedStatus, query, now)
  {
  }

  /** With status "all" and an empty search, a report is listed exactly when
      it is not stale. */
  lemma DefaultFiltersHideOnlyStale(reports: seq<WasteReport>, now: int)
    ensures forall i :: 0 <= i < |reports| ==>
      (reports[i] in FilteredReports(reports, AllStatuses, "", now) <==> !IsStale(reports[i], now))
  {
    forall i | 0 <= i < |reports| && IsStale(reports[i], now)
      ensures reports[i] !in FilteredReports(reports, AllStatuses, "", now)
    {
      StaleNeverListed(reports, AllStatuses, "", now, reports[i]);
    }
  }

  /** The search ignores the case of the query. */
  lemma SearchIgnoresQueryCase(r: WasteReport, query: string)
    ensures MatchesSearch(r, ToLower(query)) == MatchesSearch(r, query)
  {
    ToLowerIdempotent(query);
    assert |ToLower(query)| == |query|;
  }

  /** A coordinate pair for the map to centre on. */
  datatype LatLng = LatLng(lat: real, lng: real)

  /** `selectedReport`: the first listed report with the selected id. */
  function SelectedReport(filtered: seq<WasteReport>, selectedId: Option<string>): (r: Option<WasteReport>)
    ensures r.Some? <==> selectedId.Some? && exists i :: 0 <= i < |filtered| && filtered[i].id == selectedId.value
    ensures r.Some? ==> r.value in filtered && r.value.id == selectedId.value
    ensures r.Some? ==> exists i :: (0 <= i < |filtered| && filtered[i] == r.value
      && forall j :: 0 <= j < i ==> filtered[j].id != selectedId.value)
  {
    Find(filtered, (x: WasteReport) => Some(x.id) == selectedId)
  }

  /** `selectedLocation`: defined exactly when the selected id is among the
      listed reports, and then the coordinates of the selected report. */
  function SelectedLocation(filtered: seq<WasteReport>, selectedId: Option<string>): (l: Option<LatLng>)
    ensures l.Some? <==> selectedId.Some? && exists i :: 0 <= i < |filtered| && filtered[i].id == selectedId.value
    ensures l.Some? ==> (SelectedReport(filtered, selectedId).Some?
      && l.value.lat == SelectedReport(filtered, selectedId).value.location.latitude
      && l.value.lng == SelectedReport(filtered, selectedId).value.location.longitude)
  {
    match SelectedReport(filtered, selectedId)
    case None => None
    case Some(r) => Some(LatLng(r.location.latitude, r.location.longitude))
  }

  /** A selection hidden by the filters gives no location. */
  lemma HiddenSelectionHasNoLocation(reports: seq<WasteReport>, selectedStatus: string, query: string, now: int, x: WasteReport)
    requires x in reports && !IsListed(x, selectedStatus, query, now)
    requires forall i :: 0 <= i < |reports| && reports[i].id == x.id ==> reports[i] == x
    ensures SelectedLocation(FilteredReports(reports, selectedStatus, query, now), Some(x.id)).None?
  {
    var f := FilteredReports(reports, selectedStatus, query, now);
    forall i | 0 <= i < |f| ensures f[i].id != x.id {
      assert IsListed(f[i], selectedStatus, query, now);
      assert f[i] in reports;
    }
  }

  /** The Map page's `getTimeAgo` label. */
  function TimeAgoLabel(now: int, reportedAt: int): (s: string)
    ensures s == "Just now" <==> now - reportedAt < Clock.HourMs
    ensures Clock.AgeOf(now - reportedAt).HoursAgo? ==>
      s == NatToDecimal(Clock.AgeOf(now - reportedAt).hours) + " hours ago"
    ensures Clock.AgeOf(now - reportedAt).DaysAgo? ==>
      s == NatToDecimal(Clock.AgeOf(now - reportedAt).days) + " days ago"
  {
    match Clock.AgeOf(now - reportedAt)
    case JustNow => "Just now"
    case HoursAgo(h) =>
      var t := NatToDecimal(h) + " hours ago";
      assert t[0] == NatToDecimal(h)[0] != "Just now"[0];
      t
    case DaysAgo(d) =>
      var t := NatToDecimal(d) + " days ago";
      assert t[0] == NatToDecimal(d)[0] != "Just now"[0];
      t
  }

  /** Two reports get the same label exactly when their ages fall in the
      same bucket. */
  lemma {:induction false} TimeAgoLabelInjective(now: int, t1: int, t2: int)
    ensures TimeAgoLabel(now, t1) == TimeAgoLabel(now, t2) <==> Clock.AgeOf(now - t1) == Clock.AgeOf(now - t2)
  {
    var a1 := Clock.AgeOf(now - t1);
    var a2 := Clock.AgeOf(now - t2);
    var s1 := TimeAgoLabel(now, t1);
    var s2 := TimeAgoLabel(now, t2);
    if a1.HoursAgo? && a2.DaysAgo? {
      HoursDaysDiffer(NatToDecimal(a1.hours), NatToDecimal(a2.days));
    }
    if a1.DaysAgo? && a2.HoursAgo? {
      HoursDaysDiffer(NatToDecimal(a2.hours), NatToDecimal(a1.days));
    }
    if s1 == s2 {
      if a1.HoursAgo? && a2.HoursAgo? {
        SuffixCancel(NatToDecimal(a1.hours), NatToDecimal(a2.hours), " hours ago");
        NatToDecimalInjective(a1.hours, a2.hours);
      } else if a1.DaysAgo? && a2.DaysAgo? {
        SuffixCancel(NatToDecimal(a1.days), NatToDecimal(a2.days), " days ago");
        NatToDecimalInjective(a1.days, a2.days);
      }
    }
  }

  lemma HoursDaysDiffer(x: string, y: string)
    ensures x + " hours ago" != y + " days ago"
  {
    var a := x + " hours ago";
    var b := y + " days ago";
    assert a[|a| - 6] == 'r';
    assert b[|b| - 6] == 'y';
  }

  /** Badge colours. */
  datatype Tone = Yellow | Blue | Green | Orange | Red | Gray

  predicate IsKnownStatus(status: string) {
    status == "pending" || status == "in_progress" || status == "completed"
  }

  predicate IsKnownSeverity(severity: string) {
    severity == "low" || severity == "medium" || severity == "high" || severity == "critical"
  }

  /** `getStatusColor` (and the matching `getStatusIcon`). */
  function StatusTone(status: string): (t: Tone)
    ensures t == Red <==> !IsKnownStatus(status)
  {
    match status
    case "pending" => Yellow
    case "in_progress" => Blue
    case "completed" => Green
    case _ => Red
  }

  /** `getSeverityColor`. */
  function SeverityTone(severity: string): (t: Tone)
    ensures t == Gray <==> !IsKnownSeverity(severity)
  {
    match severity
    case "low" => Green
    case "medium" => Yellow
    case "high" => Orange
    case "critical" => Red
    case _ => Gray
  }

  /** Red marks exactly the statuses the page does not know, and the known
      statuses get pairwise different colours. */
  lemma StatusToneIff(status: string, other: string)
    ensures StatusTone(status) == Red <==> !IsKnownStatus(status)
    ensures IsKnownStatus(status) && IsKnownStatus(other) ==> (StatusTone(status) == StatusTone(other) <==> status == other)
  {
  }

  /** Gray marks exactly the severities the page does not know, and the known
      severities get pairwise different colours. */
  lemma SeverityToneIff(severity: string, other: string)
    ensures SeverityTone(severity) == Gray <==> !IsKnownSeverity(severity)
    ensures IsKnownSeverity(severity) && IsKnownSeverity(other) ==> (SeverityTone(severity) == SeverityTone(other) <==> severity == other)
  {
  }

  /** The number of reports with a status, over all reports. */
  function StatusCount(reports: seq<WasteReport>, status: string): (n: nat)
    ensures n == |set i | 0 <= i < |reports| && reports[i].status == status|
    ensures n <= |reports|
  {
    var p := (r: WasteReport) => r.status == status;
    FilterCount(reports, p);
    assert MatchingIndices(reports, p) == set i | 0 <= i < |reports| && reports[i].status == status;
    |Filter(reports, p)|
  }

  predicate IsHighPriority(r: WasteReport) {
    r.severity == "high" || r.severity == "critical"
  }

  /** The "High Priority" figure: reports of severity high or critical. */
  function HighPriorityCount(reports: seq<WasteReport>): (n: nat)
    ensures n == |set i | 0 <= i < |reports| && IsHighPriority(reports[i])|
    ensures n <= |reports|
  {
    FilterCount(reports, IsHighPriority);
    assert MatchingIndices(reports, IsHighPriority) == set i | 0 <= i < |reports| && IsHighPriority(reports[i]);
    |Filter(reports, IsHighPriority)|
  }

  /** The three status buttons together never count more reports than the
      "All" button, and exactly as many when every status is a known one. */
  lemma {:induction false} StatusCountsBounded(reports: seq<WasteReport>)
    ensures StatusCount(reports, "pending") + StatusCount(reports, "in_progress") + StatusCount(reports, "completed") <= |reports|
    ensures (forall i :: 0 <= i < |reports| ==> IsKnownStatus(reports[i].status)) ==>
      StatusCount(reports, "pending") + StatusCount(reports, "in_progress") + StatusCount(reports, "completed") == |reports|
  {
    if reports != [] {
      StatusCountsBounded(reports[1..]);
      assert forall i :: 0 <= i < |reports[1..]| ==> reports[1..][i] == reports[i + 1];
      StatusCountHead(reports, "pending");
      StatusCountHead(reports, "in_progress");
      StatusCountHead(reports, "completed");
    }
  }

  /** A status count, split at the first report. */
  lemma StatusCountHead(reports: seq<WasteReport>, status: string)
    requires reports != []
    ensures StatusCount(reports, status) == (if reports[0].status == status then 1 else 0) + StatusCount(reports[1..], status)
  {
    FilterHead(reports, (r: WasteReport) => r.status == status);
  }
}
