/**
 * The employer's job-management page (`manage-jobs`): the whole list of the
 * employer's jobs is held in memory and paginated on the client, ten to a
 * page; realtime `JobUpdated` and `JobDeleted` events and a successful
 * delete edit that list.
 *
 * A job arrives as JSON whose keys may be camel-case or Pascal-case; a
 * missing, null or empty value is "" here.
 */
module ManageJobs {
  import opened Common
  import opened Text

  const ItemsPerPage: nat := 10
  const AnonymousCompany: string := "C\U{F4}ng ty \U{1EA9}n danh"
  const UnknownLocation: string := "Kh\U{F4}ng r\U{F5}"

  datatype JobDto = JobDto(
    jobId: string, pascalJobId: string,
    jobGuid: string, pascalJobGuid: string,
    title: string, pascalTitle: string,
    /** `companyName`, `CompanyName`, `company.name`, `Company.Name`. */
    companyNames: seq<string>,
    /** `companyLocation`, `CompanyLocation`, `company.address`, `Company.Address`. */
    companyLocations: seq<string>,
    description: string, pascalDescription: string,
    hiringStatus: string, pascalHiringStatus: string,
    postedByUserId: string, pascalPostedByUserId: string)

  datatype ManagedJob = ManagedJob(
    id: string,
    guid: string,
    jobId: string,
    title: string,
    company: string,
    location: string,
    description: string,
    /** "active" or "inactive". */
    status: string,
    postedByUserId: string)

  /** `a || b || ... || fallback`. */
  function FirstNonEmpty(values: seq<string>, fallback: string): (r: string)
    ensures r == fallback || r in values
    ensures r == fallback || r != ""
    ensures (forall i :: 0 <= i < |values| ==> values[i] == "") ==> r == fallback
  {
    if values == [] then fallback else Or(values[0], FirstNonEmpty(values[1..], fallback))
  }

  function IncomingId(d: JobDto): string
  {
    Or(d.jobId, d.pascalJobId)
  }

  /** The list entry a payload is mapped to. */
  function MapJob(d: JobDto): (j: ManagedJob)
    ensures j.id == j.jobId == IncomingId(d)
    ensures j.status == "active" <==> d.hiringStatus == "OPEN" || d.pascalHiringStatus == "OPEN"
    ensures j.status == "active" || j.status == "inactive"
    ensures j.company != "" && j.location != ""
  {
    ManagedJob(
      IncomingId(d),
      Or(d.jobGuid, d.pascalJobGuid),
      IncomingId(d),
      Or(d.title, d.pascalTitle),
      FirstNonEmpty(d.companyNames, AnonymousCompany),
      FirstNonEmpty(d.companyLocations, UnknownLocation),
      Or(d.description, d.pascalDescription),
      if d.hiringStatus == "OPEN" || d.pascalHiringStatus == "OPEN" then "active" else "inactive",
      Or(d.postedByUserId, d.pascalPostedByUserId))
  }

  function HasJobId(jobId: string): ManagedJob -> bool
  {
    (j: ManagedJob) => j.jobId == jobId
  }

  /**
   * The `JobUpdated` reducer as written: a known job is replaced where it
   * stands; an unknown one is put first on page 1, and then the last entry
   * is dropped once there are more than ten.
   */
  function JobUpdated(prev: seq<ManagedJob>, d: JobDto, currentPage: int): (r: seq<ManagedJob>)
    ensures var k := FindIndex(prev, HasJobId(IncomingId(d)));
      k >= 0 ==> |r| == |prev| && r[k] == MapJob(d) && forall i :: 0 <= i < |prev| && i != k ==> r[i] == prev[i]
    ensures FindIndex(prev, HasJobId(IncomingId(d))) < 0 && currentPage != 1 ==> r == prev
    ensures FindIndex(prev, HasJobId(IncomingId(d))) < 0 && currentPage == 1 ==>
      |r| == (if |prev| < ItemsPerPage then |prev| + 1 else |prev|) &&
      r[0] == MapJob(d) && r[1..] == prev[..|r| - 1]
  {
    var k := FindIndex(prev, HasJobId(IncomingId(d)));
    if k >= 0 then prev[k := MapJob(d)]
    else if currentPage == 1 then
      var grown := [MapJob(d)] + prev;
      if |grown| > ItemsPerPage then grown[..|grown| - 1] else grown
    else prev
  }

  /** The reducer's steps: copy the list, then assign an index, or put the job first and pop. */
  method ApplyJobUpdated(prev: seq<ManagedJob>, d: JobDto, currentPage: int) returns (newJobs: seq<ManagedJob>)
    ensures newJobs == JobUpdated(prev, d, currentPage)
  {
    var incomingId := IncomingId(d);
    var jobIndex := FindIndex(prev, HasJobId(incomingId));
    var updatedJob := MapJob(d);
    newJobs := prev;
    if jobIndex != -1 {
      newJobs := newJobs[jobIndex := updatedJob];
    } else if currentPage == 1 {
      newJobs := [updatedJob] + newJobs;
      if |newJobs| > ItemsPerPage {
        newJobs := newJobs[..|newJobs| - 1];
      }
    }
  }

  /**
   * Since the list holds every job and not just one page, dropping the last
   * entry loses a job the employer still has: with ten jobs listed, a new one
   * on page 1 pushes out the tenth.
   */
  lemma JobUpdatedLosesAJob(prev: seq<ManagedJob>, d: JobDto)
    requires |prev| >= ItemsPerPage
    requires forall i :: 0 <= i < |prev| ==> prev[i].jobId != IncomingId(d)
    requires forall i :: 0 <= i < |prev| - 1 ==> prev[i] != prev[|prev| - 1]
    ensures prev[|prev| - 1] !in JobUpdated(prev, d, 1)
    ensures |JobUpdated(prev, d, 1)| == |prev|
  {
  }

  /** The reducer as evidently intended: an unknown job on page 1 is put first and nothing is dropped. */
  function JobUpdatedCorrected(prev: seq<ManagedJob>, d: JobDto, currentPage: int): (r: seq<ManagedJob>)
    ensures var k := FindIndex(prev, HasJobId(IncomingId(d)));
      k >= 0 ==> |r| == |prev| && r[k] == MapJob(d) && forall i :: 0 <= i < |prev| && i != k ==> r[i] == prev[i]
    ensures FindIndex(prev, HasJobId(IncomingId(d))) < 0 && currentPage != 1 ==> r == prev
    ensures FindIndex(prev, HasJobId(IncomingId(d))) < 0 && currentPage == 1 ==> r == [MapJob(d)] + prev
  {
    var k := FindIndex(prev, HasJobId(IncomingId(d)));
    if k >= 0 then prev[k := MapJob(d)]
    else if currentPage == 1 then [MapJob(d)] + prev
    else prev
  }

  /** The corrected reducer keeps every job of another id, and gains the incoming job when listed. */
  lemma JobUpdatedCorrectedKeepsJobs(prev: seq<ManagedJob>, d: JobDto, currentPage: int, j: ManagedJob)
    requires j in prev && j.jobId != IncomingId(d)
    ensures j in JobUpdatedCorrected(prev, d, currentPage)
  {
    var r := JobUpdatedCorrected(prev, d, currentPage);
    var i :| 0 <= i < |prev| && prev[i] == j;
    var k := FindIndex(prev, HasJobId(IncomingId(d)));
    if k >= 0 {
      assert i != k;
      assert r[i] == j;
    } else if currentPage == 1 {
      assert r[i + 1] == j;
    }
  }

  /** For lists shorter than a page the two reducers agree. */
  lemma JobUpdatedAgreesOnShortLists(prev: seq<ManagedJob>, d: JobDto, currentPage: int)
    requires |prev| < ItemsPerPage
    ensures JobUpdated(prev, d, currentPage) == JobUpdatedCorrected(prev, d, currentPage)
  {
  }

  function NotJob(jobId: string): ManagedJob -> bool
  {
    (j: ManagedJob) => j.jobId != jobId
  }

  /** `JobDeleted`, and the local removal after a successful delete: every entry with that id goes. */
  function JobDeleted(prev: seq<ManagedJob>, jobId: string): (r: seq<ManagedJob>)
    ensures forall j :: j in r <==> j in prev && j.jobId != jobId
    ensures |r| == CountIf(prev, NotJob(jobId))
  {
    CountIfIsFilterLength(prev, NotJob(jobId));
    Filter(prev, NotJob(jobId))
  }

  /** A list without that id is left as it was. */
  lemma JobDeletedAbsent(prev: seq<ManagedJob>, jobId: string)
    requires forall i :: 0 <= i < |prev| ==> prev[i].jobId != jobId
    ensures JobDeleted(prev, jobId) == prev
  {
    FilterAll(prev, NotJob(jobId));
  }

  /** The delete confirmation: the list changes only when the request succeeded. */
  function AfterDelete(prev: seq<ManagedJob>, id: string, succeeded: bool): (r: seq<ManagedJob>)
    ensures !succeeded ==> r == prev
    ensures succeeded ==> forall j :: j in r <==> j in prev && j.jobId != id
  {
    if succeeded then JobDeleted(prev, id) else prev
  }

  /** `jobs.slice((page - 1) * 10, page * 10)`. */
  function CurrentJobs(jobs: seq<ManagedJob>, currentPage: int): seq<ManagedJob>
  {
    JsSlice(jobs, currentPage * ItemsPerPage - ItemsPerPage, currentPage * ItemsPerPage)
  }

  /** On a page from 1 on, the shown jobs are that page's jobs of the list, in order. */
  lemma CurrentJobsIsPage(jobs: seq<ManagedJob>, currentPage: int)
    requires currentPage >= 1
    ensures CurrentJobs(jobs, currentPage) == PageOf(jobs, currentPage, ItemsPerPage)
    ensures forall i :: 0 <= i < |CurrentJobs(jobs, currentPage)| ==>
      CurrentJobs(jobs, currentPage)[i] == jobs[(currentPage - 1) * ItemsPerPage + i]
  {
    var lo := currentPage * ItemsPerPage - ItemsPerPage;
    assert lo == Offset(currentPage, ItemsPerPage) >= 0;
    PageOfAt(jobs, currentPage, ItemsPerPage);
    var r := CurrentJobs(jobs, currentPage);
    var p := PageOf(jobs, currentPage, ItemsPerPage);
    assert |r| == |p|;
    forall i | 0 <= i < |r|
      ensures r[i] == p[i]
    {
    }
  }

  /** Page 0 (a `page=0` query) shows nothing. */
  lemma CurrentJobsPageZero(jobs: seq<ManagedJob>)
    ensures CurrentJobs(jobs, 0) == []
  {
  }

  /** The page switcher appears only when the list is longer than one page. */
  predicate ShowsPagination(jobs: seq<ManagedJob>)
  {
    |jobs| > ItemsPerPage
  }
}
