/** The EcoTrack map component (`client/components/GoogleMap.tsx`): marker
    colour, the info window's status icon and action, the initial zoom and
    the "Mark as Cleaned" hand-off to the verification dialog. */
module GoogleMap {
  import opened Wrappers
  import opened Seqs
  import opened WasteReportsContext
  import MapPage

  /** Marker fill colours. */
  const Green: string := "#10B981"
  const Red: string := "#EF4444"
  const Yellow: string := "#F59E0B"
  const Blue: string := "#3B82F6"

  /** `getMarkerIcon`'s colour: a high or critical severity wins over the
      status; otherwise the status picks yellow, blue or green, and any other
      status keeps the green default. */
  function MarkerColor(status: string, severity: string): (c: string)
    ensures c == Red <==> severity == "high" || severity == "critical"
    ensures c == Green || c == Red || c == Yellow || c == Blue
  {
    if severity == "high" || severity == "critical" then Red
    else if status == "pending" then Yellow
    else if status == "in_progress" then Blue
    else Green
  }

  /** A marker is red exactly when its report counts as high priority on the
      map page, and otherwise the status alone decides the colour. */
  lemma MarkerColorPriority(r: WasteReport)
    ensures MarkerColor(r.status, r.severity) == Red <==> MapPage.IsHighPriority(r)
    ensures !MapPage.IsHighPriority(r) ==>
      (MarkerColor(r.status, r.severity) == Yellow <==> r.status == "pending")
      && (MarkerColor(r.status, r.severity) == Blue <==> r.status == "in_progress")
      && (MarkerColor(r.status, r.severity) == Green <==> r.status != "pending" && r.status != "in_progress")
  {
  }

  /** The status mark in the info window. */
  datatype StatusIcon = Check | Cycle | Hourglass

  function InfoStatusIcon(status: string): (i: StatusIcon)
    ensures i == Check <==> status == "completed"
    ensures i == Cycle <==> status == "in_progress"
  {
    if status == "completed" then Check
    else if status == "in_progress" then Cycle
    else Hourglass
  }

  /** The action under the info window's text. */
  datatype InfoAction = MarkAsCleanedButton | CleanedBadge | NoAction

  function InfoActionFor(loggedIn: bool, status: string): (a: InfoAction)
    ensures a == CleanedBadge <==> status == "completed"
  {
    if loggedIn && status != "completed" then MarkAsCleanedButton
    else if status == "completed" then CleanedBadge
    else NoAction
  }

  /** The icon matches the map page's badge colour for the three known
      statuses, and every unknown status waits under the hourglass. */
  lemma InfoStatusIconAgreesWithBadge(status: string)
    ensures InfoStatusIcon(status) == Check <==> MapPage.StatusTone(status) == MapPage.Green
    ensures InfoStatusIcon(status) == Cycle <==> MapPage.StatusTone(status) == MapPage.Blue
    ensures InfoStatusIcon(status) == Hourglass <==> status != "completed" && status != "in_progress"
  {
  }

  /** A signed-in user can mark any report that is not completed; a completed
      report shows the badge to everyone; a visitor sees no action on an open
      report. */
  lemma InfoActionCases(loggedIn: bool, status: string)
    ensures InfoActionFor(loggedIn, status) == MarkAsCleanedButton <==> loggedIn && status != "completed"
    ensures InfoActionFor(loggedIn, status) == CleanedBadge <==> status == "completed"
    ensures InfoActionFor(loggedIn, status) == NoAction <==> !loggedIn && status != "completed"
  {
  }

  const DefaultZoom: int := 12
  const ReportsZoom: int := 10

  /** The zoom the map opens with: 10 when there are reports to show,
      otherwise the `zoom` prop, itself 12 when not given. */
  function InitialZoom(reportCount: nat, zoom: Option<int>): (z: int)
    ensures reportCount > 0 ==> z == ReportsZoom
    ensures reportCount == 0 && zoom.Some? ==> z == zoom.value
    ensures reportCount == 0 && zoom.None? ==> z == DefaultZoom
  {
    if reportCount > 0 then ReportsZoom else zoom.GetOr(DefaultZoom)
  }

  /** The component's selection state for the verification dialog. */
  class MapMarkers {
    var selectedReport: Option<WasteReport>
    var isVerificationModalOpen: bool

    constructor ()
      ensures selectedReport == None && !isVerificationModalOpen
    {
      selectedReport := None;
      isVerificationModalOpen := false;
    }

    /** `handleMarkAsCleanedClick`: the first report with the id is selected
        and the dialog opens; an id no report has changes nothing. */
    method MarkAsCleanedClick(reports: seq<WasteReport>, reportId: string)
      modifies this
      ensures (exists i :: 0 <= i < |reports| && reports[i].id == reportId) ==>
        isVerificationModalOpen && selectedReport.Some?
        && selectedReport.value in reports && selectedReport.value.id == reportId
      ensures (exists i :: 0 <= i < |reports| && reports[i].id == reportId) ==>
        exists i :: (0 <= i < |reports| && Some(reports[i]) == selectedReport
          && forall j :: 0 <= j < i ==> reports[j].id != reportId)
      ensures (forall i :: 0 <= i < |reports| ==> reports[i].id != reportId) ==>
        isVerificationModalOpen == old(isVerificationModalOpen) && selectedReport == old(selectedReport)
    {
      var found := Find(reports, (r: WasteReport) => r.id == reportId);
      if found.Some? {
        selectedReport := found;
        isVerificationModalOpen := true;
      }
    }

    /** The dialog's `onClose`: the dialog closes, the selection stays. */
    method CloseVerification()
      modifies this
      ensures !isVerificationModalOpen && selectedReport == old(selectedReport)
    {
      isVerificationModalOpen := false;
    }
  }
}
