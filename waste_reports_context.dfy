/** The EcoTrack report store (`client/contexts/waste-reports-context.tsx`):
    the cached list of waste reports, loaded on mount, extended by report
    creation and patched by status updates. Each server call is one step
    whose settled outcome is a parameter. */
module WasteReportsContext {
  import opened Wrappers
  import opened Seqs

  /** Coordinates are carried through unchanged; no arithmetic is done on
      them. */
  datatype ReportLocation = ReportLocation(latitude: real, longitude: real, address: string)

  /** A waste report. Times are milliseconds since the epoch; `severity` and
      `status` are the strings the server sends (the client's colour maps
      handle values outside the documented ones). */
  datatype WasteReport = WasteReport(
    id: string,
    userId: string,
    userName: string,
    location: ReportLocation,
    wasteType: string,
    severity: string,
    description: string,
    images: seq<string>,
    status: string,
    reportedAt: int,
    contactName: string,
    contactPhone: Option<string>,
    completedAt: Option<int>)

  /** What `addReport` sends: a report without id, time and status. */
  datatype ReportDraft = ReportDraft(
    userId: string,
    userName: string,
    location: ReportLocation,
    wasteType: string,
    severity: string,
    description: string,
    images: seq<string>,
    contactName: string,
    contactPhone: Option<string>)

  /** The server's answer to report creation. */
  datatype ReportCreated = ReportCreated(report: WasteReport, pointsEarned: int)

  /** `{ success, pointsEarned? }`. */
  datatype AddResult = AddResult(success: bool, pointsEarned: Option<int>)

  /** `reports.map(r => r.id === id ? updated : r)`. */
  function ReplaceById(reports: seq<WasteReport>, id: string, updated: WasteReport): (r: seq<WasteReport>)
    ensures |r| == |reports|
    ensures forall i :: 0 <= i < |r| ==> r[i] == if reports[i].id == id then updated else reports[i]
  {
    MapWhere(reports, (r: WasteReport) => r.id == id, (_: WasteReport) => updated)
  }

  /** Applying the same server answer twice leaves the list as applying it
      once, provided the answer keeps the report's id. */
  lemma ReplaceByIdIdempotent(reports: seq<WasteReport>, id: string, updated: WasteReport)
    requires updated.id == id
    ensures ReplaceById(ReplaceById(reports, id, updated), id, updated) == ReplaceById(reports, id, updated)
  {
    var once := ReplaceById(reports, id, updated);
    var twice := ReplaceById(once, id, updated);
    assert |twice| == |once|;
    forall i | 0 <= i < |once| ensures twice[i] == once[i] {
      if reports[i].id == id {
        assert once[i] == updated;
      }
    }
  }

  /** `reports.filter(r => r.userId === userId)`. */
  function ReportsOf(reports: seq<WasteReport>, userId: string): seq<WasteReport> {
    Filter(reports, (r: WasteReport) => r.userId == userId)
  }

  class WasteReportsStore {
    var reports: seq<WasteReport>

    constructor ()
      ensures reports == []
    {
      reports := [];
    }

    /** The mount load: the server's list replaces the cache; a failure
        leaves it empty rather than stale. */
    method LoadReports(outcome: Outcome<seq<WasteReport>>)
      modifies this
      ensures outcome.Ok? ==> reports == outcome.value
      ensures outcome.Err? ==> reports == []
    {
      match outcome
      case Ok(list) => reports := list;
      case Err(_) => reports := [];
    }

    /** `addReport`: the draft is sent; on success the server's report is
        appended and its points are returned, on failure nothing changes. */
    method AddReport(draft: ReportDraft, outcome: Outcome<ReportCreated>) returns (result: AddResult)
      modifies this
      ensures result.success == outcome.Ok?
      ensures outcome.Ok? ==> reports == old(reports) + [outcome.value.report]
      ensures outcome.Ok? ==> result.pointsEarned == Some(outcome.value.pointsEarned)
      ensures outcome.Err? ==> reports == old(reports) && result.pointsEarned == None
    {
      match outcome
      case Ok(created) =>
        reports := reports + [created.report];
        result := AddResult(true, Some(created.pointsEarned));
      case Err(_) =>
        result := AddResult(false, None);
    }

    /** `updateReportStatus`: on success every report with the id is replaced
        by the server's report, all others stay in place; on failure nothing
        changes. */
    method UpdateReportStatus(id: string, status: string, outcome: Outcome<WasteReport>) returns (ok: bool)
      modifies this
      ensures ok == outcome.Ok?
      ensures |reports| == |old(reports)|
      ensures ok ==> reports == ReplaceById(old(reports), id, outcome.value)
      ensures forall i :: 0 <= i < |reports| && old(reports)[i].id != id ==> reports[i] == old(reports)[i]
      ensures forall i :: 0 <= i < |reports| && old(reports)[i].id == id ==>
        reports[i] == (if ok then outcome.value else old(reports)[i])
    {
      match outcome
      case Ok(updated) =>
        reports := ReplaceById(reports, id, updated);
        ok := true;
      case Err(_) =>
        ok := false;
    }

    /** `getUserReports`: exactly this user's reports, in cache order. */
    function GetUserReports(userId: string): (r: seq<WasteReport>)
      reads this
      ensures IsSubsequence(r, reports)
      ensures forall i :: 0 <= i < |r| ==> r[i].userId == userId
      ensures forall i :: 0 <= i < |reports| && reports[i].userId == userId ==> reports[i] in r
      ensures forall i :: 0 <= i < |reports| ==>
        multiset(r)[reports[i]] == if reports[i].userId == userId then multiset(reports)[reports[i]] else 0
    {
      ReportsOf(reports, userId)
    }
  }

  /** A successful submission grows the list by exactly one report, the
      server's, with earlier reports unchanged. */
  method SubmissionGrowsListByOne(initial: seq<WasteReport>, draft: ReportDraft, created: ReportCreated)
    returns (before: nat, after: nat, last: WasteReport, success: bool)
    ensures success && after == before + 1 && last == created.report
  {
    var store := new WasteReportsStore();
    store.LoadReports(Ok(initial));
    before := |store.reports|;
    var result := store.AddReport(draft, Ok(created));
    success := result.success;
    after := |store.reports|;
    last := store.reports[after - 1];
  }
}
