/**
 * The job-application lifecycle: the applications table and its repository
 * queries, the in-place "mark as viewed" updates, applying to a job and the
 * employer's status changes, which keep a job's `PositionsFilled` in step
 * with its accepted applications.
 *
 * The table rows are values; the store that holds them is a class whose
 * fields are the four tables the lifecycle touches (jobs, applications,
 * resumes and the notifications it saves) and `saves`, the number of
 * `SaveChangesAsync` calls made so far. The candidate profiles, which come
 * from the profile store, are parameters. The clock reading is the parameter
 * `now`, and new identifiers are parameters too.
 */
module Applications {
  import opened Common
  import opened Text
  import ApplicationStatuses
  import opened Profiles
  import Notifications

  datatype Job = Job(
    jobId: Id, jobGuid: Id, title: string, postedByUserId: Id,
    employerProfileId: Option<Id>, companyId: Option<Id>,
    description: Option<string>, positionsFilled: Option<int>)

  datatype Application = Application(
    applicationId: Id, jobId: Id, candidateId: Id, resumeId: Id,
    status: string, appliedAt: int, updatedAt: Option<int>,
    isViewedByEmployer: bool, employerViewedAt: Option<int>)

  datatype Resume = Resume(
    resumeId: Id, candidateId: Id, title: string, content: string,
    isPublic: int, createdAt: int)

  // ---------------------------------------------------------------------
  // Lookups the repositories perform

  /** The job an application's `Job` navigation property loads. */
  function JobById(jobs: seq<Job>, jobId: Id): (r: Option<Job>)
    ensures r.None? <==> forall k :: 0 <= k < |jobs| ==> jobs[k].jobId != jobId
    ensures r.Some? ==> r.value in jobs && r.value.jobId == jobId
  {
    First(jobs, (j: Job) => j.jobId == jobId)
  }

  function JobByGuid(jobs: seq<Job>, jobGuid: Id): (r: Option<Job>)
    ensures r.None? <==> forall k :: 0 <= k < |jobs| ==> jobs[k].jobGuid != jobGuid
    ensures r.Some? ==> r.value in jobs && r.value.jobGuid == jobGuid
  {
    First(jobs, (j: Job) => j.jobGuid == jobGuid)
  }

  /** `a.Job != null && a.Job.EmployerProfileId == employerId`. */
  predicate OwnedBy(jobs: seq<Job>, a: Application, employerId: Id)
  {
    var j := JobById(jobs, a.jobId);
    j.Some? && j.value.employerProfileId == Some(employerId)
  }

  /** `HasApplicationAsync`. */
  predicate HasApplication(applications: seq<Application>, jobId: Id, candidateId: Id)
  {
    First(applications, (a: Application) => a.jobId == jobId && a.candidateId == candidateId).Some?
  }

  /** Some stored application has exactly this job and this candidate. */
  lemma HasApplicationIff(applications: seq<Application>, jobId: Id, candidateId: Id)
    ensures HasApplication(applications, jobId, candidateId) <==>
      exists i :: 0 <= i < |applications| &&
        applications[i].jobId == jobId && applications[i].candidateId == candidateId
  {
  }

  /** The candidate's newest resume (`OrderByDescending(CreatedAt).FirstOrDefault()`). */
  function LatestResume(resumes: seq<Resume>, candidateId: Id): Option<Resume>
  {
    var own := Filter(resumes, (r: Resume) => r.candidateId == candidateId);
    var sorted := SortDesc(own, (r: Resume) => Key(r.createdAt, 0));
    if sorted == [] then None else Some(sorted[0])
  }

  /** The newest resume belongs to the candidate and none of theirs is newer. */
  lemma LatestResumeIsNewest(resumes: seq<Resume>, candidateId: Id)
    ensures LatestResume(resumes, candidateId).None? <==>
      forall k :: 0 <= k < |resumes| ==> resumes[k].candidateId != candidateId
    ensures LatestResume(resumes, candidateId).Some? ==>
      var r := LatestResume(resumes, candidateId).value;
      r in resumes && r.candidateId == candidateId &&
      forall k :: 0 <= k < |resumes| && resumes[k].candidateId == candidateId ==>
        resumes[k].createdAt <= r.createdAt
  {
    var own := Filter(resumes, (r: Resume) => r.candidateId == candidateId);
    if own != [] {
      HeadOfSort(own, (r: Resume) => Key(r.createdAt, 0));
      forall k | 0 <= k < |resumes| && resumes[k].candidateId == candidateId
        ensures resumes[k] in own
      {
      }
    } else {
      forall k | 0 <= k < |resumes|
        ensures resumes[k].candidateId != candidateId
      {
        assert resumes[k] !in own;
      }
    }
  }

  // ---------------------------------------------------------------------
  // Counts and the recent list

  function ApplicationCount(applications: seq<Application>, jobId: Id): nat
  {
    CountIf(applications, (a: Application) => a.jobId == jobId)
  }

  function UnreadCount(applications: seq<Application>, jobId: Id): nat
  {
    CountIf(applications, (a: Application) => a.jobId == jobId && !a.isViewedByEmployer)
  }

  /** A job never has more unread applications than applications. */
  lemma UnreadAtMostTotal(applications: seq<Application>, jobId: Id)
    ensures UnreadCount(applications, jobId) <= ApplicationCount(applications, jobId)
  {
    CountIfMono(applications,
      (a: Application) => a.jobId == jobId && !a.isViewedByEmployer,
      (a: Application) => a.jobId == jobId);
  }

  datatype JobCount = JobCount(jobId: Id, title: string, totalCount: nat, unreadCount: nat)

  /** `GetApplicationCountsWithUnreadByEmployerIdAsync`: one entry per job of the employer. */
  function CountsWithUnread(jobs: seq<Job>, applications: seq<Application>, employerId: Id): seq<JobCount>
  {
    Map(Filter(jobs, (j: Job) => j.employerProfileId == Some(employerId)),
      (j: Job) => JobCount(j.jobId, j.title, ApplicationCount(applications, j.jobId),
                           UnreadCount(applications, j.jobId)))
  }

  /** Every entry of the per-job summary has unread <= total, and there is one per owned job. */
  lemma CountsWithUnreadBounded(jobs: seq<Job>, applications: seq<Application>, employerId: Id)
    ensures |CountsWithUnread(jobs, applications, employerId)| ==
      CountIf(jobs, (j: Job) => j.employerProfileId == Some(employerId))
    ensures forall k :: 0 <= k < |CountsWithUnread(jobs, applications, employerId)| ==>
      CountsWithUnread(jobs, applications, employerId)[k].unreadCount <=
      CountsWithUnread(jobs, applications, employerId)[k].totalCount
  {
    CountIfIsFilterLength(jobs, (j: Job) => j.employerProfileId == Some(employerId));
    var r := CountsWithUnread(jobs, applications, employerId);
    forall k | 0 <= k < |r|
      ensures r[k].unreadCount <= r[k].totalCount
    {
      UnreadAtMostTotal(applications, r[k].jobId);
    }
  }

  /** `GetTotalUnreadApplicationsByEmployerIdAsync`. */
  function TotalUnread(jobs: seq<Job>, applications: seq<Application>, employerId: Id): nat
  {
    CountIf(applications, (a: Application) => OwnedBy(jobs, a, employerId) && !a.isViewedByEmployer)
  }

  function RecentKey(a: Application): Key
  {
    Key(a.appliedAt, a.applicationId)
  }

  /** `GetRecentApplicationsByEmployerIdAsync(employerId, take)`. */
  function Recent(jobs: seq<Job>, applications: seq<Application>, employerId: Id, take: int): (r: seq<Application>)
    ensures |r| <= |applications| && (take >= 0 ==> |r| <= take)
    ensures forall k :: 0 <= k < |r| ==> r[k] in applications && OwnedBy(jobs, r[k], employerId)
  {
    var owned := (a: Application) => OwnedBy(jobs, a, employerId);
    TopOfFilter(applications, owned, RecentKey, take);
    Take(SortDesc(Filter(applications, owned), RecentKey), take)
  }

  /** The recent list is newest first (then by id), and it is a prefix of all owned ones so ordered. */
  lemma RecentIsNewestFirst(jobs: seq<Job>, applications: seq<Application>, employerId: Id, take: int)
    ensures SortedDesc(Recent(jobs, applications, employerId, take), RecentKey)
    ensures var all := SortDesc(Filter(applications, (a: Application) => OwnedBy(jobs, a, employerId)), RecentKey);
      Recent(jobs, applications, employerId, take) == all[..|Recent(jobs, applications, employerId, take)|]
  {
    var own := Filter(applications, (a: Application) => OwnedBy(jobs, a, employerId));
    SortDescSorted(own, RecentKey);
  }

  // ---------------------------------------------------------------------
  // Marking applications viewed

  /**
   * The rows a mark-as-viewed call selects: unviewed applications of the
   * employer's jobs, restricted to one job when `jobId` is given.
   */
  predicate Pending(jobs: seq<Job>, a: Application, employerId: Id, jobId: Option<Id>)
  {
    (jobId.None? || a.jobId == jobId.value) && OwnedBy(jobs, a, employerId) && !a.isViewedByEmployer
  }

  function PendingCount(jobs: seq<Job>, applications: seq<Application>, employerId: Id, jobId: Option<Id>): nat
  {
    CountIf(applications, (a: Application) => Pending(jobs, a, employerId, jobId))
  }

  /** Across all jobs, the pending rows are exactly the employer's unread ones. */
  lemma PendingAllIsTotalUnread(jobs: seq<Job>, applications: seq<Application>, employerId: Id)
    ensures PendingCount(jobs, applications, employerId, None) == TotalUnread(jobs, applications, employerId)
  {
    CountIfSame(applications,
      (a: Application) => Pending(jobs, a, employerId, None),
      (a: Application) => OwnedBy(jobs, a, employerId) && !a.isViewedByEmployer);
  }

  /** A job's pending rows for its owner are its unread applications. */
  lemma PendingByJobIsUnread(jobs: seq<Job>, applications: seq<Application>, employerId: Id, jobId: Id)
    requires JobById(jobs, jobId).Some? && JobById(jobs, jobId).value.employerProfileId == Some(employerId)
    ensures PendingCount(jobs, applications, employerId, Some(jobId)) == UnreadCount(applications, jobId)
  {
    CountIfSame(applications,
      (a: Application) => Pending(jobs, a, employerId, Some(jobId)),
      (a: Application) => a.jobId == jobId && !a.isViewedByEmployer);
  }

  function MarkedViewed(a: Application, now: int): Application
  {
    a.(isViewedByEmployer := true, employerViewedAt := Some(now))
  }

  /** Counting one more row adds one exactly when that row is pending. */
  lemma PendingCountStep(jobs: seq<Job>, s: seq<Application>, i: int, employerId: Id, jobId: Option<Id>)
    requires 0 <= i < |s|
    ensures PendingCount(jobs, s[..i + 1], employerId, jobId) ==
      PendingCount(jobs, s[..i], employerId, jobId) + (if Pending(jobs, s[i], employerId, jobId) then 1 else 0)
  {
    assert s[..i + 1] == s[..i] + [s[i]];
    CountIfAppend(s[..i], s[i], (a: Application) => Pending(jobs, a, employerId, jobId));
  }

  /** Once every pending row is marked viewed, none is pending. */
  lemma MarkedNonePending(jobs: seq<Job>, before: seq<Application>, after: seq<Application>,
                          employerId: Id, jobId: Option<Id>, now: int)
    requires |after| == |before|
    requires forall k :: 0 <= k < |after| ==>
      after[k] == if Pending(jobs, before[k], employerId, jobId) then MarkedViewed(before[k], now) else before[k]
    ensures PendingCount(jobs, after, employerId, jobId) == 0
  {
    CountIfZero(after, (a: Application) => Pending(jobs, a, employerId, jobId));
  }

  // ---------------------------------------------------------------------
  // Status changes

  /** `PositionsFilled` after a change from `oldStatus` to the upper-cased `newStatus`. */
  function PositionsAfter(oldStatus: string, newStatus: string, filled: Option<int>): Option<int>
  {
    if newStatus == ApplicationStatuses.Accepted && oldStatus != ApplicationStatuses.Accepted then
      Some(OrElse(filled, 0) + 1)
    else if oldStatus == ApplicationStatuses.Accepted && newStatus != ApplicationStatuses.Accepted then
      Some(Max(0, OrElse(filled, 0) - 1))
    else filled
  }

  /** Whether the change touches the job at all (`UpdateJobAsync` is called). */
  predicate ChangesPositions(oldStatus: string, newStatus: string)
  {
    (newStatus == ApplicationStatuses.Accepted) != (oldStatus == ApplicationStatuses.Accepted)
  }

  /** Into ACCEPTED adds one; out of it removes one, never below 0; otherwise nothing moves. */
  lemma PositionsAfterSteps(oldStatus: string, newStatus: string, filled: Option<int>)
    ensures newStatus == "ACCEPTED" && oldStatus != "ACCEPTED" ==>
      OrElse(PositionsAfter(oldStatus, newStatus, filled), 0) == OrElse(filled, 0) + 1
    ensures oldStatus == "ACCEPTED" && newStatus != "ACCEPTED" ==>
      OrElse(PositionsAfter(oldStatus, newStatus, filled), 0) == Max(0, OrElse(filled, 0) - 1) >= 0
    ensures !ChangesPositions(oldStatus, newStatus) ==> PositionsAfter(oldStatus, newStatus, filled) == filled
  {
  }

  /** The application after an accepted status change by its employer. */
  function StatusChanged(a: Application, newStatus: string, now: int): (r: Application)
  {
    a.(status := Upper(newStatus), updatedAt := Some(now), isViewedByEmployer := true,
       employerViewedAt := if a.isViewedByEmployer then a.employerViewedAt else Some(now))
  }

  /** A status change marks the row viewed but keeps the first viewing time. */
  lemma StatusChangedViewing(a: Application, newStatus: string, now: int)
    ensures StatusChanged(a, newStatus, now).isViewedByEmployer
    ensures StatusChanged(a, newStatus, now).updatedAt == Some(now)
    ensures a.isViewedByEmployer ==> StatusChanged(a, newStatus, now).employerViewedAt == a.employerViewedAt
    ensures !a.isViewedByEmployer ==> StatusChanged(a, newStatus, now).employerViewedAt == Some(now)
    ensures StatusChanged(a, newStatus, now).applicationId == a.applicationId &&
      StatusChanged(a, newStatus, now).jobId == a.jobId &&
      StatusChanged(a, newStatus, now).candidateId == a.candidateId
  {
  }

  function AcceptedCount(applications: seq<Application>, jobId: Id): nat
  {
    CountIf(applications, (a: Application) => a.jobId == jobId && a.status == ApplicationStatuses.Accepted)
  }

  /**
   * If a job's `PositionsFilled` equals its number of accepted applications,
   * it still does after any status change of one of them.
   */
  lemma PositionsTrackAccepted(applications: seq<Application>, i: int, newStatus: string, now: int, filled: Option<int>)
    requires 0 <= i < |applications|
    requires OrElse(filled, 0) == AcceptedCount(applications, applications[i].jobId)
    ensures OrElse(PositionsAfter(applications[i].status, Upper(newStatus), filled), 0) ==
      AcceptedCount(applications[i := StatusChanged(applications[i], newStatus, now)], applications[i].jobId)
  {
    var a := applications[i];
    var p := (x: Application) => x.jobId == a.jobId && x.status == ApplicationStatuses.Accepted;
    CountIfUpdate(applications, i, StatusChanged(a, newStatus, now), p);
  }

  /** No two applications share a job and a candidate. */
  predicate NoDuplicates(applications: seq<Application>)
  {
    forall i, j :: 0 <= i < j < |applications| ==>
      !(applications[i].jobId == applications[j].jobId &&
        applications[i].candidateId == applications[j].candidateId)
  }

  // ---------------------------------------------------------------------
  // Applying

  datatype ApplyRefusal = JobNotFound | OwnJob | NoCandidateProfile | AlreadyApplied

  /** The refusals of `ApplyToJobAsync`, in the order it tests them. */
  function ApplyGuard(jobs: seq<Job>, applications: seq<Application>, jobGuid: Id, userId: Id,
                      profile: Option<CandidateProfile>): Option<ApplyRefusal>
  {
    var job := JobByGuid(jobs, jobGuid);
    if job.None? then Some(JobNotFound)
    else if job.value.postedByUserId == userId then Some(OwnJob)
    else if profile.None? then Some(NoCandidateProfile)
    else if HasApplication(applications, job.value.jobId, profile.value.candidateId) then Some(AlreadyApplied)
    else None
  }

  /** Applying is allowed exactly for an existing job of someone else, by a candidate who has not applied. */
  lemma ApplyGuardAllows(jobs: seq<Job>, applications: seq<Application>, jobGuid: Id, userId: Id,
                         profile: Option<CandidateProfile>)
    ensures ApplyGuard(jobs, applications, jobGuid, userId, profile).None? <==>
      JobByGuid(jobs, jobGuid).Some? && JobByGuid(jobs, jobGuid).value.postedByUserId != userId &&
      profile.Some? &&
      forall i :: 0 <= i < |applications| ==>
        !(applications[i].jobId == JobByGuid(jobs, jobGuid).value.jobId &&
          applications[i].candidateId == profile.value.candidateId)
  {
    var job := JobByGuid(jobs, jobGuid);
    if job.Some? && profile.Some? {
      HasApplicationIff(applications, job.value.jobId, profile.value.candidateId);
    }
  }

  /** Earlier refusals win: a missing job hides everything else, one's own job hides the profile checks. */
  lemma ApplyRefusalPrecedence(jobs: seq<Job>, applications: seq<Application>, jobGuid: Id, userId: Id,
                               profile: Option<CandidateProfile>)
    ensures JobByGuid(jobs, jobGuid).None? ==>
      ApplyGuard(jobs, applications, jobGuid, userId, profile) == Some(JobNotFound)
    ensures JobByGuid(jobs, jobGuid).Some? && JobByGuid(jobs, jobGuid).value.postedByUserId == userId ==>
      ApplyGuard(jobs, applications, jobGuid, userId, profile) == Some(OwnJob)
    ensures ApplyGuard(jobs, applications, jobGuid, userId, profile) == Some(AlreadyApplied) ==>
      profile.Some? && HasApplication(applications, JobByGuid(jobs, jobGuid).value.jobId, profile.value.candidateId)
  {
  }

  datatype ApplyResponse = ApplyResponse(message: string, messageType: string, applicationId: Option<Id>)

  function RefusalResponse(r: ApplyRefusal): ApplyResponse
  {
    match r
    case JobNotFound => ApplyResponse("Không tìm thấy công việc", "error", None)
    case OwnJob => ApplyResponse("Bạn không thể ứng tuyển vào công việc do chính bạn đăng", "error", None)
    case NoCandidateProfile =>
      ApplyResponse("Bạn cần tạo hồ sơ ứng viên trước khi ứng tuyển. Vui lòng hoàn thiện hồ sơ của bạn.", "info", None)
    case AlreadyApplied => ApplyResponse("Bạn đã ứng tuyển vào công việc này rồi", "warning", None)
  }

  const AppliedMessage: string := "Ứng tuyển thành công! Hồ sơ của bạn đã được gửi đến nhà tuyển dụng."

  /** String interpolation of a nullable value: null becomes "". */
  function Shown(o: Option<string>): string
  {
    OrElse(o, "")
  }

  /** The default resume created for a candidate who has none. */
  function DefaultResume(profile: CandidateProfile, resumeId: Id, now: int): Resume
  {
    Resume(resumeId, profile.candidateId,
      "CV của " + Shown(profile.fullName),
      "Hồ sơ ứng viên: " + Shown(profile.fullName) + "\n" +
      "Kinh nghiệm: " + (if profile.experienceYears.Some? then IntToString(profile.experienceYears.value) else "") + " năm\n" +
      "Kỹ năng: " + Shown(profile.skills) + "\n" +
      "Học vấn: " + Shown(profile.educationLevel),
      0, now)
  }

  /** Appending an application for a fresh (job, candidate) pair keeps the table free of duplicates. */
  lemma AppendKeepsNoDuplicates(applications: seq<Application>, a: Application)
    requires NoDuplicates(applications)
    requires !HasApplication(applications, a.jobId, a.candidateId)
    ensures NoDuplicates(applications + [a])
  {
    HasApplicationIff(applications, a.jobId, a.candidateId);
    var s := applications + [a];
    forall i, j | 0 <= i < j < |s|
      ensures !(s[i].jobId == s[j].jobId && s[i].candidateId == s[j].candidateId)
    {
      if j == |applications| {
        assert s[i] == applications[i];
      } else {
        assert s[i] == applications[i] && s[j] == applications[j];
      }
    }
  }

  // ---------------------------------------------------------------------
  // Candidate history

  /**
   * The avatar: the path of the first primary image; when that is absent or
   * has no path, the path of the first image; nothing for no images.
   */
  function AvatarPath(images: Option<seq<ProfileImage>>): (r: Option<string>)
    ensures images.None? || images.value == [] ==> r.None?
    ensures r.Some? ==> exists k :: 0 <= k < |images.value| && images.value[k].filePath == r
  {
    if images.None? || images.value == [] then None
    else
      var primary := First(images.value, (i: ProfileImage) => i.isPrimary == Some(true));
      if primary.Some? && primary.value.filePath.Some? then
        primary.value.filePath
      else images.value[0].filePath
  }

  /** A primary image with a path wins; without a primary image the first image is the avatar. */
  lemma AvatarPrefersPrimary(images: seq<ProfileImage>)
    requires images != []
    ensures var p := First(images, (i: ProfileImage) => i.isPrimary == Some(true));
      (p.Some? && p.value.filePath.Some? ==> AvatarPath(Some(images)) == p.value.filePath) &&
      ((forall k :: 0 <= k < |images| ==> images[k].isPrimary != Some(true)) ==>
        AvatarPath(Some(images)) == images[0].filePath)
  {
  }

  predicate InPortfolio(i: ProfileImage)
  {
    i.isPrimary != Some(true) && i.filePath.Some? && i.filePath.value != ""
  }

  /** The portfolio: paths of the non-primary images that have a non-empty path. */
  function PortfolioPaths(images: Option<seq<ProfileImage>>): (r: Option<seq<string>>)
    ensures r.None? <==> images.None? || images.value == []
    ensures r.Some? ==> |r.value| == CountIf(images.value, InPortfolio)
    ensures r.Some? ==> forall k :: 0 <= k < |r.value| ==>
      (r.value[k] != "" &&
       exists m :: 0 <= m < |images.value| && InPortfolio(images.value[m]) && images.value[m].filePath == Some(r.value[k]))
  {
    if images.None? || images.value == [] then None
    else
      var kept := Filter(images.value, InPortfolio);
      CountIfIsFilterLength(images.value, InPortfolio);
      var paths := Map(kept, (i: ProfileImage) => OrElse(i.filePath, ""));
      assert forall k :: 0 <= k < |paths| ==> kept[k] in images.value && InPortfolio(kept[k]);
      Some(paths)
  }

  /** `Description?.Length > 200 ? Description.Substring(0, 200) + "..." : Description`. */
  function Excerpt(d: Option<string>): Option<string>
  {
    if d.Some? && |d.value| > 200 then Some(d.value[..200] + "...") else d
  }

  /** An excerpt keeps short texts whole and cuts long ones to 200 characters plus an ellipsis. */
  lemma ExcerptBounded(d: Option<string>)
    ensures Excerpt(d).None? <==> d.None?
    ensures d.Some? && |d.value| <= 200 ==> Excerpt(d) == d
    ensures d.Some? && |d.value| > 200 ==>
      |Excerpt(d).value| == 203 && Excerpt(d).value[..200] == d.value[..200] &&
      Excerpt(d).value[200..] == "..."
  {
  }


  /** What the history reads from the profile store. */
  datatype ProfileLookup = ProfileLookup(
    companies: map<Id, Company>,
    employers: map<Id, EmployerProfile>,
    employerImages: map<Id, seq<ProfileImage>>)

  datatype HistoryEntry = HistoryEntry(
    applicationId: Id, status: string, jobId: Id, jobTitle: string,
    jobDescription: Option<string>, companyName: Option<string>, location: Option<string>,
    employerName: Option<string>, employerAvatarPath: Option<string>)

  /** The history entry of an application whose job is `job`. */
  function Entry(a: Application, job: Job, store: ProfileLookup): HistoryEntry
  {
    var company := if job.companyId.Some? && job.companyId.value in store.companies
      then Some(store.companies[job.companyId.value]) else None;
    var employer := if job.employerProfileId.Some? && job.employerProfileId.value in store.employers
      then Some(store.employers[job.employerProfileId.value]) else None;
    var avatar := if employer.None? then None
      else if employer.value.employerId in store.employerImages
      then AvatarPath(Some(store.employerImages[employer.value.employerId]))
      else None;
    HistoryEntry(a.applicationId, a.status, job.jobId, job.title, Excerpt(job.description),
      if company.Some? then company.value.name else None,
      if company.Some? then company.value.address else None,
      if employer.Some? then employer.value.displayName else None,
      avatar)
  }

  function OfCandidate(candidateId: Id): Application -> bool
  {
    (a: Application) => a.candidateId == candidateId
  }

  function AppliedKey(a: Application): Key
  {
    Key(a.appliedAt, 0)
  }

  /** The candidate's applications, newest first (`GetApplicationsByCandidateIdAsync`). */
  function ByCandidate(applications: seq<Application>, candidateId: Id): seq<Application>
  {
    SortDesc(Filter(applications, OfCandidate(candidateId)), AppliedKey)
  }

  predicate HasJob(jobs: seq<Job>, a: Application)
  {
    JobById(jobs, a.jobId).Some?
  }

  /** One entry per application of `apps` whose job exists, in the order of `apps`. */
  function Entries(jobs: seq<Job>, apps: seq<Application>, store: ProfileLookup): seq<HistoryEntry>
  {
    if apps == [] then []
    else
      (if HasJob(jobs, apps[0]) then [Entry(apps[0], JobById(jobs, apps[0].jobId).value, store)] else []) +
      Entries(jobs, apps[1..], store)
  }

  /** There are no more entries than rows. */
  lemma {:induction false} EntriesFewer(jobs: seq<Job>, apps: seq<Application>, store: ProfileLookup)
    ensures |Entries(jobs, apps, store)| <= |apps|
  {
    if apps != [] {
      EntriesFewer(jobs, apps[1..], store);
    }
  }

  /** Entry `k` comes from the row `i` of `apps`, which has a job. */
  lemma {:induction false} EntryOrigin(jobs: seq<Job>, apps: seq<Application>, store: ProfileLookup, k: nat)
    returns (i: nat)
    requires k < |Entries(jobs, apps, store)|
    ensures i < |apps| && HasJob(jobs, apps[i])
    ensures apps[i].applicationId == Entries(jobs, apps, store)[k].applicationId
  {
    var h := if HasJob(jobs, apps[0]) then 1 else 0;
    if k < h {
      i := 0;
    } else {
      var rest := Entries(jobs, apps[1..], store);
      assert Entries(jobs, apps, store)[k] == rest[k - h];
      var j := EntryOrigin(jobs, apps[1..], store, k - h);
      i := j + 1;
      assert apps[i] == apps[1..][j];
    }
  }

  /** The history: one entry per application of the candidate whose job still exists, newest first. */
  function History(jobs: seq<Job>, applications: seq<Application>, profile: Option<CandidateProfile>,
                   store: ProfileLookup): seq<HistoryEntry>
  {
    if profile.None? then []
    else Entries(jobs, ByCandidate(applications, profile.value.candidateId), store)
  }

  /** Every row of `ByCandidate` is one of the candidate's applications, and there are no more rows than those. */
  lemma ByCandidateOwn(applications: seq<Application>, candidateId: Id)
    ensures |ByCandidate(applications, candidateId)| == CountIf(applications, OfCandidate(candidateId))
    ensures forall a :: a in ByCandidate(applications, candidateId) ==>
      a in applications && a.candidateId == candidateId
  {
    var own := Filter(applications, OfCandidate(candidateId));
    CountIfIsFilterLength(applications, OfCandidate(candidateId));
    forall a | a in ByCandidate(applications, candidateId)
      ensures a in applications && a.candidateId == candidateId
    {
      SortDescMembers(own, AppliedKey, a);
    }
  }

  /** The history has no more entries than the candidate has applications. */
  lemma HistoryFewer(jobs: seq<Job>, applications: seq<Application>, profile: CandidateProfile,
                     store: ProfileLookup)
    ensures |History(jobs, applications, Some(profile), store)| <=
      CountIf(applications, OfCandidate(profile.candidateId))
  {
    ByCandidateOwn(applications, profile.candidateId);
    EntriesFewer(jobs, ByCandidate(applications, profile.candidateId), store);
  }

  /** Each history entry is one of the candidate's own applications, and its job exists. */
  lemma HistoryRowOwn(jobs: seq<Job>, applications: seq<Application>, profile: CandidateProfile,
                      store: ProfileLookup, k: nat)
    requires k < |History(jobs, applications, Some(profile), store)|
    ensures exists i :: (0 <= i < |applications| &&
      applications[i].candidateId == profile.candidateId &&
      applications[i].applicationId == History(jobs, applications, Some(profile), store)[k].applicationId &&
      HasJob(jobs, applications[i]))
  {
    var sorted := ByCandidate(applications, profile.candidateId);
    ByCandidateOwn(applications, profile.candidateId);
    var j := EntryOrigin(jobs, sorted, store, k);
    OwnRow(jobs, applications, sorted[j], profile.candidateId);
  }

  lemma OwnRow(jobs: seq<Job>, applications: seq<Application>, a: Application, candidateId: Id)
    requires a in applications && a.candidateId == candidateId && HasJob(jobs, a)
    ensures exists i :: (0 <= i < |applications| && applications[i].candidateId == candidateId &&
      applications[i].applicationId == a.applicationId && HasJob(jobs, applications[i]))
  {
    var i :| 0 <= i < |applications| && applications[i] == a;
    assert applications[i].applicationId == a.applicationId;
  }

  // ---------------------------------------------------------------------
  // The notification rows the lifecycle saves

  /**
   * The row `NotifyEmployerNewApplicationAsync` saves for the job's poster,
   * or none when the job has no poster or no employer profile, which it
   * checks first.
   */
  function NewApplicationNotification(job: Job, c: CandidateProfile, applicationId: Id,
                                      notificationId: Id, now: int): (r: Option<Notifications.Notification>)
    ensures r.None? <==> job.postedByUserId == EmptyId || job.employerProfileId.None?
    ensures r.Some? ==>
      r.value.userId == job.postedByUserId && r.value.kind == "NewApplication" && r.value.isRead == 0 &&
      r.value.relatedJobId == Some(job.jobId) && r.value.relatedApplicationId == Some(applicationId) &&
      r.value.createdAt == now
  {
    if job.postedByUserId == EmptyId || job.employerProfileId.None? then None
    else Some(Notifications.Notification(notificationId, job.postedByUserId, "NewApplication",
      "Ứng viên mới",
      OrElse(c.fullName, "Ứng viên") + " đã ứng tuyển vào vị trí " + job.title,
      0, Some(job.jobId), Some(applicationId), now))
  }

  /** The statuses the notification label translates. */
  const LabelledStatuses: seq<string> := [ApplicationStatuses.Reviewed, ApplicationStatuses.Interviewing,
                                          ApplicationStatuses.Accepted, ApplicationStatuses.Rejected]

  /**
   * The label of the notification for a status change. It is chosen from
   * the status as the employer typed it, not from its upper-case form, so
   * only an upper-case status gets a Vietnamese label.
   */
  function StatusLabel(newStatus: string): (r: string)
    ensures newStatus == ApplicationStatuses.Reviewed ==> r == "Đã xem"
    ensures newStatus == ApplicationStatuses.Interviewing ==> r == "Mời phỏng vấn"
    ensures newStatus == ApplicationStatuses.Accepted ==> r == "Chấp nhận"
    ensures newStatus == ApplicationStatuses.Rejected ==> r == "Từ chối"
    ensures newStatus !in LabelledStatuses ==> r == newStatus
  {
    if newStatus == ApplicationStatuses.Reviewed then "Đã xem"
    else if newStatus == ApplicationStatuses.Interviewing then "Mời phỏng vấn"
    else if newStatus == ApplicationStatuses.Accepted then "Chấp nhận"
    else if newStatus == ApplicationStatuses.Rejected then "Từ chối"
    else newStatus
  }

  /**
   * A status accepted in lower case is stored upper-cased, but its
   * notification shows it as typed: "reviewed" is stored as REVIEWED and
   * labelled "reviewed", where REVIEWED itself is labelled "Đã xem".
   */
  lemma LowerCaseStatusLabelledAsTyped()
    ensures ApplicationStatuses.IsValidStatus("reviewed")
    ensures Upper("reviewed") == ApplicationStatuses.Reviewed
    ensures StatusLabel("reviewed") == "reviewed"
    ensures StatusLabel(Upper("reviewed")) == "Đã xem"
  {
    ApplicationStatuses.ValidIffUpperListed("reviewed");
    assert Upper("reviewed") == "REVIEWED";
    assert "reviewed" != ApplicationStatuses.Reviewed;
  }

  /**
   * The row `NotifyCandidateStatusChangeAsync` saves for the candidate whose
   * application changed, or none when no candidate profile has the
   * application's candidate id.
   */
  function StatusNotification(candidates: map<Id, CandidateProfile>, a: Application, job: Job,
                              newStatus: string, notificationId: Id, now: int): (r: Option<Notifications.Notification>)
    ensures r.None? <==> a.candidateId !in candidates
    ensures r.Some? ==>
      r.value.userId == candidates[a.candidateId].userId && r.value.kind == "ApplicationStatus" &&
      r.value.isRead == 0 && r.value.relatedJobId == Some(job.jobId) &&
      r.value.relatedApplicationId == Some(a.applicationId) && r.value.createdAt == now
  {
    if a.candidateId !in candidates then None
    else Some(Notifications.Notification(notificationId, candidates[a.candidateId].userId, "ApplicationStatus",
      "Cập nhật trạng thái hồ sơ",
      "Hồ sơ ứng tuyển " + job.title + " của bạn đã được cập nhật thành: " + StatusLabel(newStatus),
      0, Some(job.jobId), Some(a.applicationId), now))
  }

  /** The saved rows, as a sequence to append: one row, or none when it is skipped. */
  function Row(n: Option<Notifications.Notification>): (r: seq<Notifications.Notification>)
    ensures |r| <= 1 && (r == [] <==> n.None?) && (n.Some? ==> r == [n.value])
  {
    if n.Some? then [n.value] else []
  }

  // ---------------------------------------------------------------------
  // The store

  datatype StatusRefusal = InvalidStatus | ApplicationNotFound | NotOwner

  /** The refusals of `UpdateApplicationStatusAsync`, in the order it tests them. */
  function StatusGuard(jobs: seq<Job>, applications: seq<Application>, employerId: Id,
                       applicationId: Id, newStatus: string): Option<StatusRefusal>
  {
    var i := FindIndex(applications, (a: Application) => a.applicationId == applicationId);
    if !ApplicationStatuses.IsValidStatus(newStatus) then Some(InvalidStatus)
    else if i < 0 then Some(ApplicationNotFound)
    else
      var job := JobById(jobs, applications[i].jobId);
      if job.None? || job.value.employerProfileId != Some(employerId) then Some(NotOwner)
      else None
  }

  datatype StatusUpdateResult = StatusUpdateResult(
    success: bool, message: string, newStatus: string, updatedAt: Option<int>)

  function StatusRefusalResult(r: StatusRefusal): StatusUpdateResult
  {
    match r
    case InvalidStatus => StatusUpdateResult(false,
      "Trạng thái không hợp lệ. Các trạng thái hợp lệ: " + Join(", ", ApplicationStatuses.ValidStatuses), "", None)
    case ApplicationNotFound => StatusUpdateResult(false, "Không tìm thấy hồ sơ ứng tuyển", "", None)
    case NotOwner => StatusUpdateResult(false, "Bạn không có quyền cập nhật hồ sơ này", "", None)
  }

  const StatusUpdatedMessage: string := "Cập nhật trạng thái thành công"

  class ApplicationStore {
    var jobs: seq<Job>
    var applications: seq<Application>
    var resumes: seq<Resume>
    var notifications: seq<Notifications.Notification>
    var saves: nat

    constructor (jobs0: seq<Job>, applications0: seq<Application>, resumes0: seq<Resume>,
                 notifications0: seq<Notifications.Notification>)
      ensures jobs == jobs0 && applications == applications0 && resumes == resumes0
      ensures notifications == notifications0 && saves == 0
    {
      jobs, applications, resumes, notifications, saves := jobs0, applications0, resumes0, notifications0, 0;
    }

    /**
     * `CreateNotificationAsync` of the notification service: the row is
     * added and saved by that service's own unit of work, so `saves`, which
     * counts the lifecycle's saves, does not change.
     */
    method CreateNotification(n: Notifications.Notification)
      modifies this
      ensures notifications == old(notifications) + [n]
      ensures jobs == old(jobs) && applications == old(applications) && resumes == old(resumes)
      ensures saves == old(saves)
    {
      notifications := notifications + [n];
    }

    /** `CreateApplicationAsync`: adds the row and saves. */
    method CreateApplication(a: Application)
      modifies this
      ensures applications == old(applications) + [a]
      ensures jobs == old(jobs) && resumes == old(resumes) && saves == old(saves) + 1
      ensures notifications == old(notifications)
    {
      applications := applications + [a];
      saves := saves + 1;
    }

    /** `CreateResumeAsync`. */
    method CreateResume(r: Resume)
      modifies this
      ensures resumes == old(resumes) + [r]
      ensures jobs == old(jobs) && applications == old(applications) && saves == old(saves) + 1
      ensures notifications == old(notifications)
    {
      resumes := resumes + [r];
      saves := saves + 1;
    }

    /**
     * `UpdateApplicationAsync`: stamps `UpdatedAt` and writes the row back
     * over the stored row with the same id.
     */
    method UpdateApplication(a: Application, now: int) returns (r: Application)
      requires exists i :: 0 <= i < |applications| && applications[i].applicationId == a.applicationId
      modifies this
      ensures r == a.(updatedAt := Some(now))
      ensures var i := FindIndex(old(applications), (x: Application) => x.applicationId == a.applicationId);
        0 <= i && applications == old(applications)[i := r]
      ensures jobs == old(jobs) && resumes == old(resumes) && saves == old(saves) + 1
      ensures notifications == old(notifications)
    {
      var i := FindIndex(applications, (x: Application) => x.applicationId == a.applicationId);
      r := a.(updatedAt := Some(now));
      applications := applications[i := r];
      saves := saves + 1;
    }

    /** The job's filled count after a status change, saved when it moves. */
    method AdjustPositions(k: int, oldStatus: string, upper: string)
      requires 0 <= k < |jobs|
      modifies this
      ensures jobs == old(jobs)[k := old(jobs)[k].(positionsFilled := PositionsAfter(oldStatus, upper, old(jobs)[k].positionsFilled))]
      ensures saves == old(saves) + (if ChangesPositions(oldStatus, upper) then 1 else 0)
      ensures applications == old(applications) && resumes == old(resumes) && notifications == old(notifications)
    {
      var job := jobs[k];
      if upper == ApplicationStatuses.Accepted && oldStatus != ApplicationStatuses.Accepted {
        jobs := jobs[k := job.(positionsFilled := Some(OrElse(job.positionsFilled, 0) + 1))];
        saves := saves + 1;
      } else if oldStatus == ApplicationStatuses.Accepted && upper != ApplicationStatuses.Accepted {
        jobs := jobs[k := job.(positionsFilled := Some(Max(0, OrElse(job.positionsFilled, 0) - 1)))];
        saves := saves + 1;
      } else {
        assert jobs[k := job] == jobs;
      }
    }

    /**
     * The loop shared by both mark-as-viewed calls: every pending row is
     * marked viewed at `now`; the count of marked rows is returned, and the
     * changes are saved only when there is at least one.
     */
    method MarkPending(employerId: Id, jobId: Option<Id>, now: int) returns (count: nat)
      modifies this
      ensures |applications| == |old(applications)|
      ensures forall i :: 0 <= i < |applications| ==>
        applications[i] == if Pending(jobs, old(applications)[i], employerId, jobId)
          then MarkedViewed(old(applications)[i], now) else old(applications)[i]
      ensures count == PendingCount(jobs, old(applications), employerId, jobId)
      ensures PendingCount(jobs, applications, employerId, jobId) == 0
      ensures jobs == old(jobs) && resumes == old(resumes) && notifications == old(notifications)
      ensures saves == old(saves) + (if count > 0 then 1 else 0)
    {
      var before := applications;
      count := 0;
      var i := 0;
      while i < |applications|
        invariant 0 <= i <= |applications| == |before|
        invariant forall k :: 0 <= k < i ==>
          applications[k] == if Pending(jobs, before[k], employerId, jobId) then MarkedViewed(before[k], now) else before[k]
        invariant forall k :: i <= k < |applications| ==> applications[k] == before[k]
        invariant count == PendingCount(jobs, before[..i], employerId, jobId)
        invariant jobs == old(jobs) && resumes == old(resumes) && notifications == old(notifications)
        invariant saves == old(saves)
      {
        PendingCountStep(jobs, before, i, employerId, jobId);
        if Pending(jobs, applications[i], employerId, jobId) {
          applications := applications[i := MarkedViewed(applications[i], now)];
          count := count + 1;
        }
        i := i + 1;
      }
      assert before[..i] == before;
      MarkedNonePending(jobs, before, applications, employerId, jobId, now);
      if count > 0 {
        saves := saves + 1;
      }
    }

    /** `MarkApplicationsAsViewedByJobAsync`. */
    method MarkApplicationsAsViewedByJob(employerId: Id, jobId: Id, now: int) returns (count: nat)
      modifies this
      ensures |applications| == |old(applications)|
      ensures forall i :: 0 <= i < |applications| ==>
        applications[i] == if Pending(jobs, old(applications)[i], employerId, Some(jobId))
          then MarkedViewed(old(applications)[i], now) else old(applications)[i]
      ensures count == PendingCount(jobs, old(applications), employerId, Some(jobId))
      ensures PendingCount(jobs, applications, employerId, Some(jobId)) == 0
      ensures jobs == old(jobs) && resumes == old(resumes) && notifications == old(notifications)
      ensures saves == old(saves) + (if count > 0 then 1 else 0)
    {
      count := MarkPending(employerId, Some(jobId), now);
    }

    /** `MarkAllApplicationsAsViewedAsync`: the count is the employer's unread total, which becomes 0. */
    method MarkAllApplicationsAsViewed(employerId: Id, now: int) returns (count: nat)
      modifies this
      ensures |applications| == |old(applications)|
      ensures forall i :: 0 <= i < |applications| ==>
        applications[i] == if Pending(jobs, old(applications)[i], employerId, None)
          then MarkedViewed(old(applications)[i], now) else old(applications)[i]
      ensures count == TotalUnread(jobs, old(applications), employerId)
      ensures TotalUnread(jobs, applications, employerId) == 0
      ensures jobs == old(jobs) && resumes == old(resumes) && notifications == old(notifications)
      ensures saves == old(saves) + (if count > 0 then 1 else 0)
    {
      PendingAllIsTotalUnread(jobs, applications, employerId);
      count := MarkPending(employerId, None, now);
      PendingAllIsTotalUnread(jobs, applications, employerId);
    }

    /**
     * `ApplyToJobAsync`: the refusals in order, each changing nothing; then
     * the newest resume of the candidate, or a default one created for them,
     * the new application in state APPLIED referencing that resume, and the
     * poster's "NewApplication" notification unless the job has no poster or
     * no employer profile. That notification never goes to the applicant.
     */
    method ApplyToJob(jobGuid: Id, userId: Id, profile: Option<CandidateProfile>, now: int,
                      newResumeId: Id, newApplicationId: Id, newNotificationId: Id) returns (r: ApplyResponse)
      modifies this
      ensures var refusal := ApplyGuard(old(jobs), old(applications), jobGuid, userId, profile);
        refusal.Some? ==>
          r == RefusalResponse(refusal.value) && applications == old(applications) &&
          resumes == old(resumes) && notifications == old(notifications) && saves == old(saves)
      ensures ApplyGuard(old(jobs), old(applications), jobGuid, userId, profile).None? ==>
        var job := JobByGuid(old(jobs), jobGuid).value;
        var c := profile.value;
        var existing := LatestResume(old(resumes), c.candidateId);
        var resume := if existing.Some? then existing.value else DefaultResume(c, newResumeId, now);
        resumes == old(resumes) + (if existing.Some? then [] else [resume]) &&
        applications == old(applications) +
          [Application(newApplicationId, job.jobId, c.candidateId, resume.resumeId,
                       ApplicationStatuses.Applied, now, None, false, None)] &&
        notifications == old(notifications) +
          Row(NewApplicationNotification(job, c, newApplicationId, newNotificationId, now)) &&
        r == ApplyResponse(AppliedMessage, "success", Some(newApplicationId))
      ensures forall k :: |old(notifications)| <= k < |notifications| ==> notifications[k].userId != userId
      ensures jobs == old(jobs)
      ensures NoDuplicates(old(applications)) ==> NoDuplicates(applications)
    {
      var refusal := ApplyGuard(jobs, applications, jobGuid, userId, profile);
      if refusal.Some? {
        r := RefusalResponse(refusal.value);
        return;
      }
      var job := JobByGuid(jobs, jobGuid).value;
      var c := profile.value;
      var resume;
      var existing := LatestResume(resumes, c.candidateId);
      if existing.None? {
        resume := DefaultResume(c, newResumeId, now);
        CreateResume(resume);
      } else {
        resume := existing.value;
      }
      var a := Application(newApplicationId, job.jobId, c.candidateId, resume.resumeId,
                           ApplicationStatuses.Applied, now, None, false, None);
      if NoDuplicates(applications) {
        AppendKeepsNoDuplicates(applications, a);
      }
      CreateApplication(a);
      var n := NewApplicationNotification(job, c, newApplicationId, newNotificationId, now);
      if n.Some? {
        CreateNotification(n.value);
      }
      r := ApplyResponse(AppliedMessage, "success", Some(newApplicationId));
    }

    /**
     * `UpdateApplicationStatusAsync`: the refusals in order, each changing
     * nothing; otherwise the row gets the upper-cased status, is marked
     * viewed (keeping the first viewing time) and stamped, the job's
     * `PositionsFilled` follows a move into or out of ACCEPTED, and the
     * candidate's "ApplicationStatus" notification is saved unless no
     * candidate profile has the application's candidate id. `candidates` is
     * the profile store's `GetCandidateProfileByIdAsync`.
     */
    method UpdateApplicationStatus(employerId: Id, applicationId: Id, newStatus: string, now: int,
                                   candidates: map<Id, CandidateProfile>, newNotificationId: Id)
      returns (r: StatusUpdateResult)
      modifies this
      ensures var refusal := StatusGuard(old(jobs), old(applications), employerId, applicationId, newStatus);
        refusal.Some? ==>
          r == StatusRefusalResult(refusal.value) && jobs == old(jobs) &&
          applications == old(applications) && notifications == old(notifications) && saves == old(saves)
      ensures StatusGuard(old(jobs), old(applications), employerId, applicationId, newStatus).None? ==>
        var i := FindIndex(old(applications), (a: Application) => a.applicationId == applicationId);
        var a := old(applications)[i];
        var k := FindIndex(old(jobs), (j: Job) => j.jobId == a.jobId);
        var job := old(jobs)[k];
        applications == old(applications)[i := StatusChanged(a, newStatus, now)] &&
        jobs == old(jobs)[k := job.(positionsFilled := PositionsAfter(a.status, Upper(newStatus), job.positionsFilled))] &&
        notifications == old(notifications) +
          Row(StatusNotification(candidates, a, job, newStatus, newNotificationId, now)) &&
        r == StatusUpdateResult(true, StatusUpdatedMessage, Upper(newStatus), Some(now)) &&
        saves == old(saves) + (if ChangesPositions(a.status, Upper(newStatus)) then 2 else 1)
      ensures resumes == old(resumes)
    {
      var refusal := StatusGuard(jobs, applications, employerId, applicationId, newStatus);
      if refusal.Some? {
        r := StatusRefusalResult(refusal.value);
        return;
      }
      var i := FindIndex(applications, (a: Application) => a.applicationId == applicationId);
      var a := applications[i];
      var k := FindIndex(jobs, (j: Job) => j.jobId == a.jobId);
      var job := jobs[k];
      var upper := Upper(newStatus);
      AdjustPositions(k, a.status, upper);
      var changed := a.(status := upper);
      if !changed.isViewedByEmployer {
        changed := changed.(isViewedByEmployer := true, employerViewedAt := Some(now));
      }
      assert applications[i].applicationId == changed.applicationId;
      var stored := UpdateApplication(changed, now);
      var n := StatusNotification(candidates, a, job, newStatus, newNotificationId, now);
      if n.Some? {
        CreateNotification(n.value);
      }
      r := StatusUpdateResult(true, StatusUpdatedMessage, stored.status, stored.updatedAt);
    }

    /** `GetCandidateApplicationHistoryAsync`: a loop over the candidate's applications. */
    method CandidateHistory(profile: Option<CandidateProfile>, store: ProfileLookup)
      returns (result: seq<HistoryEntry>)
      ensures result == History(jobs, applications, profile, store)
    {
      if profile.None? {
        return [];
      }
      var apps := ByCandidate(applications, profile.value.candidateId);
      result := [];
      var n := 0;
      while n < |apps|
        invariant 0 <= n <= |apps|
        invariant result + Entries(jobs, apps[n..], store) == Entries(jobs, apps, store)
      {
        var app := apps[n];
        assert apps[n..][1..] == apps[n + 1..];
        var job := JobById(jobs, app.jobId);
        if job.Some? {
          var e := Entry(app, job.value, store);
          AppendAssoc(result, [e], Entries(jobs, apps[n + 1..], store));
          result := result + [e];
        }
        n := n + 1;
      }
    }
  }
}
