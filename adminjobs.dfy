/**
 * The administrator's job list (`AdminJobs`): one server page of jobs, the
 * total count, and the counter of realtime jobs not yet loaded; the
 * numbered window past five pages.
 */
module AdminJobs {
  import opened Common
  import opened Text
  import PageWindow
  import Pagination

  const WindowThreshold: int := 5
  const NotAvailable: string := "N/A"
  const JustPostedCategory: string := "M\U{1EDB}i \U{111}\U{103}ng"

  /** A job row; `isActive` is 1 for a shown job. */
  datatype AdminJob = AdminJob(jobId: string, title: string, companyName: string, categoryName: string, isActive: int)

  /** The payload of a realtime `receivenewjob` event. */
  datatype NewJob = NewJob(jobId: string, title: string, companyName: string, nestedCompanyName: string, isActive: int)

  datatype ListState = ListState(jobs: seq<AdminJob>, totalCount: int, newJobsCount: int)

  function MapNewJob(n: NewJob): (j: AdminJob)
    ensures j.jobId == n.jobId && j.title == n.title && j.isActive == n.isActive
    ensures j.companyName != ""
    ensures j.categoryName == JustPostedCategory
  {
    AdminJob(n.jobId, n.title, Or(Or(n.companyName, n.nestedCompanyName), NotAvailable), JustPostedCategory, n.isActive)
  }

  /**
   * A realtime job: on page 1 with no search it is put first, the page cut
   * back to its size, and the total raised; otherwise only the counter of
   * unseen jobs rises.
   */
  function ReceiveNewJob(s: ListState, n: NewJob, currentPage: int, searchTerm: string, pageSize: int): (r: ListState)
    requires pageSize > 0
    ensures currentPage == 1 && searchTerm == "" ==>
      r.totalCount == s.totalCount + 1 && r.newJobsCount == s.newJobsCount &&
      |r.jobs| == Min(|s.jobs| + 1, pageSize) && r.jobs[0] == MapNewJob(n) &&
      r.jobs[1..] == s.jobs[..|r.jobs| - 1]
    ensures !(currentPage == 1 && searchTerm == "") ==>
      r == s.(newJobsCount := s.newJobsCount + 1)
  {
    if currentPage == 1 && searchTerm == "" then
      s.(jobs := JsSlice([MapNewJob(n)] + s.jobs, 0, pageSize), totalCount := s.totalCount + 1)
    else
      s.(newJobsCount := s.newJobsCount + 1)
  }

  function SetStatus(jobId: string, newStatus: int): AdminJob -> AdminJob
  {
    (j: AdminJob) => if j.jobId == jobId then j.(isActive := newStatus) else j
  }

  /** After a successful toggle only the matching rows take the returned status. */
  function Toggled(jobs: seq<AdminJob>, jobId: string, newStatus: int): (r: seq<AdminJob>)
    ensures |r| == |jobs|
    ensures forall i :: 0 <= i < |jobs| ==>
      r[i] == if jobs[i].jobId == jobId then jobs[i].(isActive := newStatus) else jobs[i]
  {
    Map(jobs, SetStatus(jobId, newStatus))
  }

  function NotJob(jobId: string): AdminJob -> bool
  {
    (j: AdminJob) => j.jobId != jobId
  }

  /** After a successful delete the row goes and the total drops by one, whether or not the row was on this page. */
  function Deleted(s: ListState, jobId: string): (r: ListState)
    ensures forall j :: j in r.jobs <==> j in s.jobs && j.jobId != jobId
    ensures r.totalCount == s.totalCount - 1 && r.newJobsCount == s.newJobsCount
  {
    s.(jobs := Filter(s.jobs, NotJob(jobId)), totalCount := s.totalCount - 1)
  }

  /** Toggling twice with the two statuses in turn leaves the rows as the second toggle says. */
  lemma ToggleTwice(jobs: seq<AdminJob>, jobId: string, first: int, second: int)
    ensures Toggled(Toggled(jobs, jobId, first), jobId, second) == Toggled(jobs, jobId, second)
  {
  }

  /** A realtime job on the first page, with a page not yet full, only grows it. */
  lemma ReceiveIntoShortPage(s: ListState, n: NewJob, pageSize: int)
    requires pageSize > 0 && |s.jobs| < pageSize
    ensures ReceiveNewJob(s, n, 1, "", pageSize).jobs == [MapNewJob(n)] + s.jobs
  {
  }

  /** The numbered buttons for a total of `totalCount` jobs. */
  function Buttons(totalCount: int, pageSize: int, currentPage: int): seq<int>
    requires pageSize > 0
  {
    PageWindow.Window(Pagination.TotalPages(totalCount, pageSize), currentPage, WindowThreshold)
  }

  /** Up to five pages every page has a button; past five, only the ends and the current page's neighbours. */
  lemma ButtonsShown(totalCount: int, pageSize: int, currentPage: int, p: int)
    requires pageSize > 0
    ensures var tp := Pagination.TotalPages(totalCount, pageSize);
      p in Buttons(totalCount, pageSize, currentPage) <==>
        1 <= p <= tp && (tp <= WindowThreshold || p == 1 || p == tp || currentPage - 1 <= p <= currentPage + 1)
  {
  }

  /** Next is disabled on the last page and while loading. */
  predicate NextDisabled(currentPage: int, totalCount: int, pageSize: int, loading: bool)
    requires pageSize > 0
  {
    currentPage == Pagination.TotalPages(totalCount, pageSize) || loading
  }

  predicate PreviousDisabled(currentPage: int, loading: bool)
  {
    currentPage == 1 || loading
  }

  /** The switcher and its range text appear only when there is a job. */
  predicate ShowsPagination(totalCount: int)
  {
    totalCount > 0
  }
}
