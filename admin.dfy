// The report table of src/pages/Admin.jsx: the status and priority badge
// classes, the search-and-status filter, the dashboard's first rows, and the
// status change and delete handlers that keep the selected report in step.

module Admin {
  import opened JsArray
  import opened JsString

  datatype Report = Report(
    id: int,
    title: string,
    category: string,
    location: string,
    status: string,
    date: string,
    reporter: string,
    priority: string)

  /** The five reports the panel starts with. */
  const SampleReports: seq<Report> := [
    Report(1, "Pothole on Main Street", "Infrastructure", "123 Main St", "Pending", "2025-05-15", "John Doe", "High"),
    Report(2, "Broken Street Light", "Utilities", "456 Oak Ave", "In Progress", "2025-05-14", "Jane Smith", "Medium"),
    Report(3, "Graffiti on Public Building", "Vandalism", "789 Pine Rd", "Resolved", "2025-05-10", "Alex Johnson", "Low"),
    Report(4, "Fallen Tree Blocking Sidewalk", "Environment", "321 Elm St", "Pending", "2025-05-16", "Sam Wilson", "High"),
    Report(5, "Illegal Dumping", "Waste", "654 Maple Dr", "In Progress", "2025-05-13", "Taylor Brown", "Medium")
  ]

  // ---------------------------------------------------------------------------
  // Badge classes

  const Gray := "bg-gray-100 text-gray-800"

  predicate IsKnownStatus(status: string)
  {
    status == "Pending" || status == "In Progress" || status == "Resolved"
  }

  predicate IsKnownPriority(priority: string)
  {
    priority == "High" || priority == "Medium" || priority == "Low"
  }

  /** `getStatusColor`: a class per known status, gray for anything else. */
  function StatusColor(status: string): (r: string)
    ensures r == Gray <==> !IsKnownStatus(status)
  {
    match status
    case "Pending" => "bg-yellow-100 text-yellow-800"
    case "In Progress" => "bg-blue-100 text-blue-800"
    case "Resolved" => "bg-green-100 text-green-800"
    case _ => Gray
  }

  /** `getPriorityColor`: a class per known priority, gray for anything else. */
  function PriorityColor(priority: string): (r: string)
    ensures r == Gray <==> !IsKnownPriority(priority)
  {
    match priority
    case "High" => "bg-red-100 text-red-800"
    case "Medium" => "bg-orange-100 text-orange-800"
    case "Low" => "bg-green-100 text-green-800"
    case _ => Gray
  }

  /** Different known statuses get different badges, and so do different known priorities. */
  lemma ColorsTellKnownValuesApart(s1: string, s2: string, p1: string, p2: string)
    ensures IsKnownStatus(s1) && IsKnownStatus(s2) && StatusColor(s1) == StatusColor(s2) ==> s1 == s2
    ensures IsKnownPriority(p1) && IsKnownPriority(p2) && PriorityColor(p1) == PriorityColor(p2) ==> p1 == p2
  {
  }

  // ---------------------------------------------------------------------------
  // filteredReports

  /** The search box matches title, location or reporter, ignoring case. */
  predicate MatchesSearch(r: Report, searchTerm: string)
  {
    var term := ToLower(searchTerm);
    Includes(ToLower(r.title), term) || Includes(ToLower(r.location), term)
    || Includes(ToLower(r.reporter), term)
  }

  /** The status drop-down: `'All'` or exactly the report's status. */
  predicate MatchesStatus(r: Report, statusFilter: string)
  {
    statusFilter == "All" || r.status == statusFilter
  }

  function Matches(searchTerm: string, statusFilter: string): Report -> bool
  {
    (r: Report) => MatchesSearch(r, searchTerm) && MatchesStatus(r, statusFilter)
  }

  /** `filteredReports`. */
  function FilteredReports(reports: seq<Report>, searchTerm: string, statusFilter: string): (r: seq<Report>)
    ensures forall i :: 0 <= i < |r| ==>
      r[i] in reports && MatchesSearch(r[i], searchTerm) && MatchesStatus(r[i], statusFilter)
    ensures forall j ::
      0 <= j < |reports| && MatchesSearch(reports[j], searchTerm) && MatchesStatus(reports[j], statusFilter)
      ==> reports[j] in r
  {
    Filter(reports, Matches(searchTerm, statusFilter))
  }

  /** The filtered table lists reports in their stored order, a report being kept exactly when it matches. */
  lemma FilteredReportsInOrder(reports: seq<Report>, searchTerm: string, statusFilter: string)
    ensures IsSubsequence(FilteredReports(reports, searchTerm, statusFilter), reports)
  {
    FilterIsSubsequence(reports, Matches(searchTerm, statusFilter));
  }

  /** With an empty search and status `'All'` the table shows every report. */
  lemma EmptySearchShowsAll(reports: seq<Report>)
    ensures FilteredReports(reports, "", "All") == reports
  {
    forall i | 0 <= i < |reports| ensures Matches("", "All")(reports[i]) {
      assert ToLower("") == "";
      assert Includes(ToLower(reports[i].title), "");
    }
    FilterKeepsAll(reports, Matches("", "All"));
  }

  /** Typing the search term in upper or lower case gives the same table. */
  lemma SearchIgnoresCase(reports: seq<Report>, searchTerm: string, statusFilter: string)
    ensures FilteredReports(reports, ToLower(searchTerm), statusFilter)
         == FilteredReports(reports, searchTerm, statusFilter)
  {
    ToLowerIdempotent(searchTerm);
    FilterExtensional(reports, Matches(ToLower(searchTerm), statusFilter), Matches(searchTerm, statusFilter));
  }

  /** A report whose title contains the search term, in any case, is listed under `'All'`. */
  lemma TitleHitIsListed(reports: seq<Report>, searchTerm: string, j: nat, at: nat)
    requires j < |reports|
    requires OccursAt(ToLower(reports[j].title), ToLower(searchTerm), at)
    ensures reports[j] in FilteredReports(reports, searchTerm, "All")
  {
    IncludesIffOccurs(ToLower(reports[j].title), ToLower(searchTerm));
  }

  // ---------------------------------------------------------------------------
  // Dashboard

  /** The dashboard's recent-reports table: `reports.slice(0, 5)`. */
  function RecentReports(reports: seq<Report>): (r: seq<Report>)
    ensures |r| <= 5 && r <= reports
    ensures |reports| <= 5 ==> r == reports
    ensures 5 <= |reports| ==> |r| == 5
  {
    Take(reports, 5)
  }

  // ---------------------------------------------------------------------------
  // Status change and delete

  function ReportLacksId(id: int): Report -> bool
  {
    (r: Report) => r.id != id
  }

  /** `reports.map(r => r.id === id ? { ...r, status } : r)`. */
  function WithStatus(reports: seq<Report>, id: int, status: string): (r: seq<Report>)
    ensures |r| == |reports|
  {
    seq(|reports|, i requires 0 <= i < |reports| =>
      if reports[i].id == id then reports[i].(status := status) else reports[i])
  }

  /** Changing a status and then deleting that id leaves what deleting alone leaves. */
  lemma {:induction false} StatusChangeThenDelete(reports: seq<Report>, id: int, status: string)
    ensures Filter(WithStatus(reports, id, status), ReportLacksId(id)) == Filter(reports, ReportLacksId(id))
    decreases |reports|
  {
    if |reports| > 0 {
      assert WithStatus(reports, id, status)[1..] == WithStatus(reports[1..], id, status);
      StatusChangeThenDelete(reports[1..], id, status);
    }
  }

  /** After a status change the reports with that id all show under that status. */
  lemma StatusChangeShowsUnderNewStatus(reports: seq<Report>, id: int, status: string, searchTerm: string, j: nat)
    requires j < |reports| && reports[j].id == id && MatchesSearch(reports[j], searchTerm)
    ensures reports[j].(status := status) in FilteredReports(WithStatus(reports, id, status), searchTerm, status)
  {
    var changed := WithStatus(reports, id, status);
    assert changed[j] == reports[j].(status := status);
  }

  class CityReporterAdminPanel {
    var activeTab: string
    var reports: seq<Report>
    var searchTerm: string
    var statusFilter: string
    var selectedReport: Option<Report>

    constructor ()
      ensures activeTab == "dashboard" && reports == SampleReports
      ensures searchTerm == "" && statusFilter == "All" && selectedReport == None
    {
      activeTab := "dashboard";
      reports := SampleReports;
      searchTerm := "";
      statusFilter := "All";
      selectedReport := None;
    }

    /**
     * `handleStatusChange`: every report with the id takes the new status and
     * keeps its other fields; the others and the order stay; a selected report
     * with the id takes the status too.
     */
    method HandleStatusChange(reportId: int, newStatus: string)
      modifies this
      ensures reports == WithStatus(old(reports), reportId, newStatus)
      ensures forall i :: 0 <= i < |reports| ==>
        reports[i] == if old(reports)[i].id == reportId then old(reports)[i].(status := newStatus) else old(reports)[i]
      ensures selectedReport ==
        if old(selectedReport).Some? && old(selectedReport).value.id == reportId
        then Some(old(selectedReport).value.(status := newStatus))
        else old(selectedReport)
      ensures searchTerm == old(searchTerm) && statusFilter == old(statusFilter) && activeTab == old(activeTab)
    {
      reports := WithStatus(reports, reportId, newStatus);
      if selectedReport.Some? && selectedReport.value.id == reportId {
        selectedReport := Some(selectedReport.value.(status := newStatus));
      }
    }

    /**
     * `handleDeleteReport`: every report with the id goes, the others keep
     * their order; the selection is cleared exactly when it had that id.
     */
    method HandleDeleteReport(reportId: int)
      modifies this
      ensures reports == Filter(old(reports), ReportLacksId(reportId))
      ensures forall i :: 0 <= i < |reports| ==> reports[i].id != reportId
      ensures IsSubsequence(reports, old(reports))
      ensures selectedReport ==
        if old(selectedReport).Some? && old(selectedReport).value.id == reportId then None
        else old(selectedReport)
      ensures searchTerm == old(searchTerm) && statusFilter == old(statusFilter) && activeTab == old(activeTab)
    {
      FilterIsSubsequence(reports, ReportLacksId(reportId));
      reports := Filter(reports, ReportLacksId(reportId));
      if selectedReport.Some? && selectedReport.value.id == reportId {
        selectedReport := None;
      }
    }
  }
}
