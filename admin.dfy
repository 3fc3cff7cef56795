/**
 * The administrator's controller: the dashboard's recent-activity feed,
 * the health summary, the paged user and job lists, the account and job
 * toggles, and the cascading job delete.
 */
module Admin {
  import opened Common
  import opened Text

  datatype AccountRow = AccountRow(
    userId: Id,
    userName: string,
    email: string,
    role: string,
    isActive: bool,
    createdAt: int)

  datatype CompanyRow = CompanyRow(name: Option<string>, logoUrl: Option<string>)

  /** A job with its company already joined in (`Include(j => j.Company)`). */
  datatype JobRow = JobRow(
    jobId: Id,
    title: string,
    company: Option<CompanyRow>,
    categoryId: Option<Id>,
    postedByUserId: Id,
    isActive: int,
    createdAt: int)

  datatype JobImageRow = JobImageRow(jobImageId: Id, jobId: Id)

  datatype ApplicationRow = ApplicationRow(applicationId: Id, jobId: Id, status: string, appliedAt: int)

  const AdminRole: string := "Admin"
  const NotAvailable: string := "N/A"
  const Online: string := "Online"
  const Offline: string := "Offline"
  const Warning: string := "Warning"
  const Stable: string := "Stable"

  // ---------------------------------------------------------------------
  // GetStats: recent activities

  datatype ActivityKind = UserActivity | JobActivity | ApplicationActivity

  datatype Activity = Activity(kind: ActivityKind, title: string, message: string, createdAt: int)

  const NewUserMessage: string := "đã đăng ký tài khoản mới"
  const NewJobMessage: string := "đã được đăng tải"
  const NewApplicationMessage: string := "đã ứng tuyển vào công việc mới"
  const CandidateTitle: string := "Ứng viên"

  function UserCreated(u: AccountRow): Key { Key(u.createdAt, 0) }
  function JobCreated(j: JobRow): Key { Key(j.createdAt, 0) }
  function AppApplied(a: ApplicationRow): Key { Key(a.appliedAt, 0) }
  function ActivityKey(a: Activity): Key { Key(a.createdAt, 0) }

  function OfUser(u: AccountRow): Activity { Activity(UserActivity, u.email, NewUserMessage, u.createdAt) }
  function OfJob(j: JobRow): Activity { Activity(JobActivity, j.title, NewJobMessage, j.createdAt) }
  function OfApplication(a: ApplicationRow): Activity { Activity(ApplicationActivity, CandidateTitle, NewApplicationMessage, a.appliedAt) }

  /** The five newest of each kind, users first, then jobs, then applications. */
  function RecentCandidates(users: seq<AccountRow>, jobs: seq<JobRow>, apps: seq<ApplicationRow>): (r: seq<Activity>)
    ensures |r| <= 15
  {
    Map(Take(SortDesc(users, UserCreated), 5), OfUser) +
    Map(Take(SortDesc(jobs, JobCreated), 5), OfJob) +
    Map(Take(SortDesc(apps, AppApplied), 5), OfApplication)
  }

  /** `allActivities`: the candidates, newest first, cut to ten. */
  function RecentActivities(users: seq<AccountRow>, jobs: seq<JobRow>, apps: seq<ApplicationRow>): (r: seq<Activity>)
    ensures |r| == Min(10, |RecentCandidates(users, jobs, apps)|)
  {
    Take(SortDesc(RecentCandidates(users, jobs, apps), ActivityKey), 10)
  }

  /** The first ten of any list of activities, sorted newest first. */
  lemma NewestTen(c: seq<Activity>)
    ensures var r := Take(SortDesc(c, ActivityKey), 10);
      SortedDesc(r, ActivityKey) && (forall k :: 0 <= k < |r| ==> r[k] in c) &&
      (forall a :: a in c && (|r| < 10 || a.createdAt > r[|r| - 1].createdAt) ==> a in r)
  {
    TopOfSort(c, ActivityKey, 10);
  }

  /**
   * The feed is newest first, holds only candidates, holds all of them when
   * there are at most ten, and leaves out no candidate newer than its last entry.
   */
  lemma RecentActivitiesNewest(users: seq<AccountRow>, jobs: seq<JobRow>, apps: seq<ApplicationRow>)
    ensures var r := RecentActivities(users, jobs, apps);
      SortedDesc(r, ActivityKey) &&
      (forall k :: 0 <= k < |r| ==> r[k] in RecentCandidates(users, jobs, apps))
    ensures var r, c := RecentActivities(users, jobs, apps), RecentCandidates(users, jobs, apps);
      forall a :: a in c && (|r| < 10 || a.createdAt > r[|r| - 1].createdAt) ==> a in r
  {
    NewestTen(RecentCandidates(users, jobs, apps));
  }

  /** Every user entry of the feed is one of the five newest users, and likewise for jobs and applications. */
  lemma RecentActivitiesFromTopFive(users: seq<AccountRow>, jobs: seq<JobRow>, apps: seq<ApplicationRow>, k: int)
    requires 0 <= k < |RecentActivities(users, jobs, apps)|
    ensures var a := RecentActivities(users, jobs, apps)[k];
      (a.kind == UserActivity ==> exists u :: u in Take(SortDesc(users, UserCreated), 5) && a == OfUser(u)) &&
      (a.kind == JobActivity ==> exists j :: j in Take(SortDesc(jobs, JobCreated), 5) && a == OfJob(j)) &&
      (a.kind == ApplicationActivity ==> exists x :: x in Take(SortDesc(apps, AppApplied), 5) && a == OfApplication(x))
  {
    RecentActivitiesNewest(users, jobs, apps);
    var a := RecentActivities(users, jobs, apps)[k];
    var topUsers, topJobs, topApps := Take(SortDesc(users, UserCreated), 5), Take(SortDesc(jobs, JobCreated), 5),
      Take(SortDesc(apps, AppApplied), 5);
    var us, js, xs := Map(topUsers, OfUser), Map(topJobs, OfJob), Map(topApps, OfApplication);
    assert a in us + js + xs;
    if a in us {
      InMap(topUsers, OfUser, a);
    } else if a in js {
      InMap(topJobs, OfJob, a);
    } else {
      InMap(topApps, OfApplication, a);
    }
  }

  function IsActiveJob(j: JobRow): bool { j.isActive == 1 }

  datatype Stats = Stats(totalUsers: nat, totalJobs: nat, activeJobs: nat, totalApplications: nat,
                         recentActivities: seq<Activity>)

  // ---------------------------------------------------------------------
  // GetHealth

  /** What the image service's probe saw: no answer, or an answer with or without a success code. */
  datatype Probe = Unreachable | Responded(success: bool)

  datatype ServiceStatus = ServiceStatus(name: string, status: string)

  /** What the database call did: it threw, or it returned whether a connection could be made. */
  datatype DbProbe = Threw | Returned(canConnect: bool)

  /**
   * The database node's status. As written the bool the call returns is discarded, so only a
   * throw reports `Offline`; corrected, a returned `false` reports `Offline` as well.
   */
  function DbStatus(db: DbProbe, asWritten: bool): (s: string)
    ensures s == Online || s == Offline
    ensures s == Offline <==> db == Threw || (!asWritten && db == Returned(false))
  {
    match db
    case Threw => Offline
    case Returned(ok) => if asWritten || ok then Online else Offline
  }

  /** The database node, the image service and the gateway itself, in that order. */
  function Services(db: DbProbe, imageProbe: Probe, asWritten: bool): (r: seq<ServiceStatus>)
    ensures |r| == 3
    ensures r[0].name == "Database Node" && r[1].name == "Image Service" && r[2].name == "API Gateway"
    ensures r[0].status == Online <==> db.Returned? && (asWritten || db.canConnect)
    ensures r[1].status == Online <==> imageProbe == Responded(true)
    ensures r[1].status == Offline <==> imageProbe == Unreachable
    ensures r[2].status == Online
  {
    [ServiceStatus("Database Node", DbStatus(db, asWritten)),
     ServiceStatus("Image Service",
       match imageProbe
       case Unreachable => Offline
       case Responded(ok) => if ok then Online else Warning),
     ServiceStatus("API Gateway", Online)]
  }

  /** `Stable` when every service is `Online`, otherwise `Warning`. */
  function OverallStatus(services: seq<ServiceStatus>): (s: string)
    ensures s == Stable <==> forall i :: 0 <= i < |services| ==> services[i].status == Online
    ensures s == Stable || s == Warning
  {
    if forall i :: 0 <= i < |services| ==> services[i].status == Online then Stable else Warning
  }

  /** As written, the system is stable exactly when the database call returns, whatever it returns, and the image probe succeeds. */
  lemma HealthStableIff(db: DbProbe, imageProbe: Probe)
    ensures OverallStatus(Services(db, imageProbe, true)) == Stable <==>
      db.Returned? && imageProbe == Responded(true)
  {
    var s := Services(db, imageProbe, true);
    if !db.Returned? {
      assert s[0].status != Online;
    }
    if imageProbe != Responded(true) {
      assert s[1].status != Online;
    }
  }

  /** As written, a database that cannot be reached without the call throwing is reported `Online`, and the system `Stable`. */
  lemma UnreachableDatabaseReportedOnline()
    ensures Services(Returned(false), Responded(true), true)[0].status == Online
    ensures OverallStatus(Services(Returned(false), Responded(true), true)) == Stable
  {
    HealthStableIff(Returned(false), Responded(true));
  }

  /** Corrected, the system is stable exactly when the database answers that it can connect and the image probe succeeds. */
  lemma CorrectedHealthStableIff(db: DbProbe, imageProbe: Probe)
    ensures OverallStatus(Services(db, imageProbe, false)) == Stable <==>
      db == Returned(true) && imageProbe == Responded(true)
  {
    var s := Services(db, imageProbe, false);
    if db != Returned(true) {
      assert s[0].status != Online;
    }
    if imageProbe != Responded(true) {
      assert s[1].status != Online;
    }
  }

  // ---------------------------------------------------------------------
  // GetUsers

  datatype AdminUserDto = AdminUserDto(userId: Id, userName: string, email: string, isActive: bool, createdAt: int)

  datatype UsersPage = UsersPage(items: seq<AdminUserDto>, totalCount: nat, page: int, pageSize: int)

  function NotAdmin(u: AccountRow): bool { u.role != AdminRole }

  function ToUserDto(u: AccountRow): AdminUserDto
  {
    AdminUserDto(u.userId, u.userName, u.email, u.isActive, u.createdAt)
  }

  function UsersNewestFirst(users: seq<AccountRow>): seq<AccountRow>
  {
    SortDesc(Filter(users, NotAdmin), UserCreated)
  }

  /** `GetUsers`: non-administrators, counted before paging, newest first; page and size are echoed. */
  function UsersPageOf(users: seq<AccountRow>, page: int, pageSize: int): (r: UsersPage)
    ensures r.page == page && r.pageSize == pageSize
    ensures r.totalCount == |Filter(users, NotAdmin)|
    ensures |r.items| <= r.totalCount
  {
    var shown := PageOf(UsersNewestFirst(users), page, pageSize);
    PageOfWithin(UsersNewestFirst(users), page, pageSize);
    UsersPage(Map(shown, ToUserDto), |Filter(users, NotAdmin)|, page, pageSize)
  }

  /** Every listed user comes from a stored account whose role is not `Admin`. */
  lemma UsersPageHasNoAdmins(users: seq<AccountRow>, page: int, pageSize: int, k: int)
    requires 0 <= k < |UsersPageOf(users, page, pageSize).items|
    ensures exists u :: u in users && u.role != AdminRole && UsersPageOf(users, page, pageSize).items[k] == ToUserDto(u)
  {
    var sorted := UsersNewestFirst(users);
    var shown := PageOf(sorted, page, pageSize);
    PageOfWithin(sorted, page, pageSize);
    var u := shown[k];
    SortDescMembers(Filter(users, NotAdmin), UserCreated, u);
    assert u in users && NotAdmin(u);
  }

  /** For page >= 1 the listing is the window at `(page-1)*pageSize` of the newest-first order. */
  lemma UsersPageIsWindow(users: seq<AccountRow>, page: int, pageSize: int)
    requires page >= 1 && pageSize >= 1
    ensures SortedDesc(UsersNewestFirst(users), UserCreated)
    ensures var items, sorted := UsersPageOf(users, page, pageSize).items, UsersNewestFirst(users);
      |items| == Min(pageSize, Max(0, |sorted| - Offset(page, pageSize))) &&
      forall k :: 0 <= k < |items| ==>
        0 <= Offset(page, pageSize) + k < |sorted| && items[k] == ToUserDto(sorted[Offset(page, pageSize) + k])
  {
    var sorted := UsersNewestFirst(users);
    SortDescSorted(Filter(users, NotAdmin), UserCreated);
    PageOfAt(sorted, page, pageSize);
  }

  // ---------------------------------------------------------------------
  // GetJobs

  datatype AdminJobDto = AdminJobDto(
    jobId: Id,
    title: string,
    companyName: string,
    companyLogoUrl: Option<string>,
    categoryName: string,
    postedByEmail: string,
    isActive: int,
    createdAt: int)

  datatype JobsPage = JobsPage(items: seq<AdminJobDto>, totalCount: nat, page: int, pageSize: int)

  /** The lower-cased needle occurs in the lower-cased title or company name. */
  predicate MatchesNeedle(j: JobRow, needle: string)
  {
    Contains(Lower(j.title), needle) ||
    (j.company.Some? && j.company.value.name.Some? && Contains(Lower(j.company.value.name.value), needle))
  }

  function Matches(needle: string): JobRow -> bool
  {
    j => MatchesNeedle(j, needle)
  }

  /** The search filter: none for a blank term, else a case-insensitive title or company match. */
  function SearchedJobs(jobs: seq<JobRow>, search: Option<string>): (r: seq<JobRow>)
    ensures IsNullOrWhiteSpace(search) ==> r == jobs
    ensures !IsNullOrWhiteSpace(search) ==> r == Filter(jobs, Matches(Lower(search.value)))
  {
    if IsNullOrWhiteSpace(search) then jobs else Filter(jobs, Matches(Lower(search.value)))
  }

  /** Casing the search term differently selects the same jobs. */
  lemma SearchIgnoresCase(jobs: seq<JobRow>, search: string)
    ensures SearchedJobs(jobs, Some(Upper(search))) == SearchedJobs(jobs, Some(search))
  {
    LowerOfUpper(search);
    assert forall i :: 0 <= i < |search| ==> (NetSpace(Upper(search)[i]) <==> NetSpace(search[i]));
  }

  function AccountHasId(id: Id): AccountRow -> bool
  {
    (u: AccountRow) => u.userId == id
  }

  /** One row of the job list; a missing company, category or poster reads "N/A". */
  function ToJobDto(j: JobRow, users: seq<AccountRow>, categories: map<Id, string>): (d: AdminJobDto)
    ensures d.jobId == j.jobId && d.title == j.title && d.isActive == j.isActive && d.createdAt == j.createdAt
    ensures j.company.None? || j.company.value.name.None? ==> d.companyName == NotAvailable
    ensures j.categoryId.None? || j.categoryId.value !in categories ==> d.categoryName == NotAvailable
    ensures (forall i :: 0 <= i < |users| ==> users[i].userId != j.postedByUserId) ==> d.postedByEmail == NotAvailable
    ensures d.companyLogoUrl.Some? <==> j.company.Some? && j.company.value.logoUrl.Some? && j.company.value.logoUrl.value != ""
  {
    var poster := First(users, AccountHasId(j.postedByUserId));
    AdminJobDto(
      j.jobId,
      j.title,
      if j.company.Some? && j.company.value.name.Some? then j.company.value.name.value else NotAvailable,
      if j.company.Some? && j.company.value.logoUrl.Some? && j.company.value.logoUrl.value != ""
      then Some("/images" + j.company.value.logoUrl.value) else None,
      if j.categoryId.Some? && j.categoryId.value in categories then categories[j.categoryId.value] else NotAvailable,
      if poster.Some? then poster.value.email else NotAvailable,
      j.isActive,
      j.createdAt)
  }

  function JobsNewestFirst(jobs: seq<JobRow>, search: Option<string>): seq<JobRow>
  {
    SortDesc(SearchedJobs(jobs, search), JobCreated)
  }

  function ToJobDtos(s: seq<JobRow>, users: seq<AccountRow>, categories: map<Id, string>): (r: seq<AdminJobDto>)
    ensures |r| == |s|
    ensures forall k :: 0 <= k < |s| ==> r[k] == ToJobDto(s[k], users, categories)
  {
    if s == [] then [] else [ToJobDto(s[0], users, categories)] + ToJobDtos(s[1..], users, categories)
  }

  /** `GetJobs`: matching jobs counted before paging, newest first; page and size are echoed. */
  function JobsPageOf(jobs: seq<JobRow>, users: seq<AccountRow>, categories: map<Id, string>,
                      search: Option<string>, page: int, pageSize: int): (r: JobsPage)
    ensures r.page == page && r.pageSize == pageSize
    ensures r.totalCount == |SearchedJobs(jobs, search)|
    ensures |r.items| <= r.totalCount
  {
    var shown := PageOf(JobsNewestFirst(jobs, search), page, pageSize);
    PageOfWithin(JobsNewestFirst(jobs, search), page, pageSize);
    JobsPage(ToJobDtos(shown, users, categories), |SearchedJobs(jobs, search)|, page, pageSize)
  }

  /** Every listed job is a stored job that the search term matches. */
  lemma JobsPageMatches(jobs: seq<JobRow>, users: seq<AccountRow>, categories: map<Id, string>,
                        search: Option<string>, page: int, pageSize: int, k: int)
    requires 0 <= k < |JobsPageOf(jobs, users, categories, search, page, pageSize).items|
    ensures exists j :: (j in jobs && (IsNullOrWhiteSpace(search) || MatchesNeedle(j, Lower(search.value))) &&
      JobsPageOf(jobs, users, categories, search, page, pageSize).items[k] == ToJobDto(j, users, categories))
  {
    var sorted := JobsNewestFirst(jobs, search);
    var shown := PageOf(sorted, page, pageSize);
    PageOfWithin(sorted, page, pageSize);
    var j := shown[k];
    SortDescMembers(SearchedJobs(jobs, search), JobCreated, j);
    assert j in jobs;
  }

  /** For page >= 1 the listing is the window at `(page-1)*pageSize` of the newest-first matches. */
  lemma JobsPageIsWindow(jobs: seq<JobRow>, users: seq<AccountRow>, categories: map<Id, string>,
                         search: Option<string>, page: int, pageSize: int)
    requires page >= 1 && pageSize >= 1
    ensures SortedDesc(JobsNewestFirst(jobs, search), JobCreated)
    ensures var items, sorted := JobsPageOf(jobs, users, categories, search, page, pageSize).items, JobsNewestFirst(jobs, search);
      |items| == Min(pageSize, Max(0, |sorted| - Offset(page, pageSize))) &&
      forall k :: 0 <= k < |items| ==>
        0 <= Offset(page, pageSize) + k < |sorted| && items[k] == ToJobDto(sorted[Offset(page, pageSize) + k], users, categories)
  {
    var sorted := JobsNewestFirst(jobs, search);
    SortDescSorted(SearchedJobs(jobs, search), JobCreated);
    PageOfAt(sorted, page, pageSize);
  }

  // ---------------------------------------------------------------------
  // Toggles and the cascade

  /** `ToggleJobStatus`: `1` becomes `0`, any other value becomes `1`. */
  function Toggled(isActive: int): (r: int)
    ensures r == 0 || r == 1
    ensures r == 0 <==> isActive == 1
  {
    if isActive == 1 then 0 else 1
  }

  /** Toggling twice restores the flag exactly when it held 0 or 1. */
  lemma ToggleTwice(isActive: int)
    ensures Toggled(Toggled(isActive)) == isActive <==> isActive == 0 || isActive == 1
  {
  }

  const UserBannedEvent: string := "userbanned"
  const UserActivatedEvent: string := "useractivated"

  /** The real-time notice an account toggle sends to the group `user_<id>`. */
  datatype StatusNotice = StatusNotice(group: string, event: string, isActive: bool)

  function NoticeFor(userId: Id, isActive: bool, guidText: Id -> string): StatusNotice
  {
    StatusNotice("user_" + Lower(guidText(userId)), if isActive then UserActivatedEvent else UserBannedEvent, isActive)
  }

  function JobHasId(id: Id): JobRow -> bool
  {
    (j: JobRow) => j.jobId == id
  }

  function ImageNotOfJob(id: Id): JobImageRow -> bool
  {
    (i: JobImageRow) => i.jobId != id
  }

  function AppNotOfJob(id: Id): ApplicationRow -> bool
  {
    (a: ApplicationRow) => a.jobId != id
  }

  predicate HasJob(jobs: seq<JobRow>, id: Id)
  {
    exists j :: 0 <= j < |jobs| && jobs[j].jobId == id
  }

  /** The foreign keys: every job image and every application names a stored job. */
  predicate RowsHaveJobs(jobs: seq<JobRow>, images: seq<JobImageRow>, apps: seq<ApplicationRow>)
  {
    (forall k :: 0 <= k < |images| ==> HasJob(jobs, images[k].jobId)) &&
    (forall k :: 0 <= k < |apps| ==> HasJob(jobs, apps[k].jobId))
  }

  /** A job that loses its row keeps no images or applications, so the keys still hold. */
  lemma CascadeKeepsKeys(jobs: seq<JobRow>, images: seq<JobImageRow>, apps: seq<ApplicationRow>, i: int)
    requires RowsHaveJobs(jobs, images, apps) && 0 <= i < |jobs|
    ensures RowsHaveJobs(RemoveAt(jobs, i), Filter(images, ImageNotOfJob(jobs[i].jobId)),
                         Filter(apps, AppNotOfJob(jobs[i].jobId)))
  {
    var id := jobs[i].jobId;
    var rest := RemoveAt(jobs, i);
    forall x: Id | x != id && HasJob(jobs, x)
      ensures HasJob(rest, x)
    {
      var q :| 0 <= q < |jobs| && jobs[q].jobId == x;
      var p := if q < i then q else q - 1;
      RemoveAtIndex(jobs, i, p);
    }
    var imgs := Filter(images, ImageNotOfJob(id));
    forall k | 0 <= k < |imgs|
      ensures HasJob(rest, imgs[k].jobId)
    {
      assert imgs[k] in images;
    }
    var xs := Filter(apps, AppNotOfJob(id));
    forall k | 0 <= k < |xs|
      ensures HasJob(rest, xs[k].jobId)
    {
      assert xs[k] in apps;
    }
  }

  /** `AdminController` over the tables it reads and writes. */
  class AdminStore {
    var users: seq<AccountRow>
    var jobs: seq<JobRow>
    var jobImages: seq<JobImageRow>
    var applications: seq<ApplicationRow>
    var categories: map<Id, string>

    predicate Valid()
      reads this
    {
      RowsHaveJobs(jobs, jobImages, applications)
    }

    constructor ()
      ensures Valid() && users == [] && jobs == [] && jobImages == [] && applications == [] && categories == map[]
    {
      users, jobs, jobImages, applications, categories := [], [], [], [], map[];
    }

    /** The counters and the activity feed of `GetStats`. */
    function GetStats(): (s: Stats)
      reads this
      ensures s.totalUsers == |users| && s.totalJobs == |jobs| && s.totalApplications == |applications|
      ensures s.activeJobs <= s.totalJobs && |s.recentActivities| <= 10
    {
      Stats(|users|, |jobs|, |Filter(jobs, IsActiveJob)|, |applications|,
            RecentActivities(users, jobs, applications))
    }

    function GetUsers(page: int, pageSize: int): (r: UsersPage)
      reads this
      ensures r.page == page && r.pageSize == pageSize && r.totalCount == |Filter(users, NotAdmin)|
    {
      UsersPageOf(users, page, pageSize)
    }

    function GetJobs(search: Option<string>, page: int, pageSize: int): (r: JobsPage)
      reads this
      ensures r.page == page && r.pageSize == pageSize && r.totalCount == |SearchedJobs(jobs, search)|
    {
      JobsPageOf(jobs, users, categories, search, page, pageSize)
    }

    /** `UpdateUserRole`: `false` (404) for an unknown id; otherwise that account takes the new role. */
    method UpdateUserRole(id: Id, role: string) returns (found: bool)
      modifies this
      ensures jobs == old(jobs) && jobImages == old(jobImages) && applications == old(applications) &&
        categories == old(categories)
      ensures var i := FindIndex(old(users), AccountHasId(id));
        (i < 0 ==> !found && users == old(users)) &&
        (i >= 0 ==> found && users == old(users)[i := old(users)[i].(role := role)])
    {
      var i := FindIndex(users, AccountHasId(id));
      if i < 0 {
        return false;
      }
      users := users[i := users[i].(role := role)];
      found := true;
    }

    /** `UpdateUserStatus`: flips the account's flag and names the notice to send. */
    method UpdateUserStatus(id: Id, guidText: Id -> string) returns (r: Option<StatusNotice>)
      modifies this
      ensures jobs == old(jobs) && jobImages == old(jobImages) && applications == old(applications) &&
        categories == old(categories)
      ensures var i := FindIndex(old(users), AccountHasId(id));
        (i < 0 ==> r.None? && users == old(users)) &&
        (i >= 0 ==> var now := !old(users)[i].isActive;
          r == Some(NoticeFor(id, now, guidText)) && users == old(users)[i := old(users)[i].(isActive := now)])
    {
      var i := FindIndex(users, AccountHasId(id));
      if i < 0 {
        return None;
      }
      var now := !users[i].isActive;
      users := users[i := users[i].(isActive := now)];
      r := Some(NoticeFor(id, now, guidText));
    }

    /** `ToggleJobStatus`: `None` (404) for an unknown id, else the job's new flag. */
    method ToggleJobStatus(id: Id) returns (r: Option<int>)
      requires Valid()
      modifies this
      ensures Valid()
      ensures users == old(users) && jobImages == old(jobImages) && applications == old(applications) &&
        categories == old(categories)
      ensures var i := FindIndex(old(jobs), JobHasId(id));
        (i < 0 ==> r.None? && jobs == old(jobs)) &&
        (i >= 0 ==> var now := Toggled(old(jobs)[i].isActive);
          r == Some(now) && jobs == old(jobs)[i := old(jobs)[i].(isActive := now)])
    {
      var i := FindIndex(jobs, JobHasId(id));
      if i < 0 {
        return None;
      }
      var now := Toggled(jobs[i].isActive);
      ToggleKeepsKeys(jobs, jobImages, applications, i, now);
      jobs := jobs[i := jobs[i].(isActive := now)];
      r := Some(now);
    }

    /** `DeleteJob`: `false` (404) for an unknown id; otherwise the job, its images and its applications go in one save. */
    method DeleteJob(id: Id) returns (found: bool)
      requires Valid()
      modifies this
      ensures Valid()
      ensures users == old(users) && categories == old(categories)
      ensures var i := FindIndex(old(jobs), JobHasId(id));
        (i < 0 ==> !found && jobs == old(jobs) && jobImages == old(jobImages) && applications == old(applications)) &&
        (i >= 0 ==> (found && jobs == RemoveAt(old(jobs), i) &&
          jobImages == Filter(old(jobImages), ImageNotOfJob(id)) &&
          applications == Filter(old(applications), AppNotOfJob(id))))
    {
      var i := FindIndex(jobs, JobHasId(id));
      if i < 0 {
        return false;
      }
      assert jobs[i].jobId == id;
      RemoveJob(i);
      found := true;
    }

    /** Removes the job at index `i` with its images and applications; the keys still hold. */
    method RemoveJob(i: int)
      requires Valid() && 0 <= i < |jobs|
      modifies this
      ensures Valid()
      ensures users == old(users) && categories == old(categories)
      ensures jobs == RemoveAt(old(jobs), i)
      ensures jobImages == Filter(old(jobImages), ImageNotOfJob(old(jobs)[i].jobId))
      ensures applications == Filter(old(applications), AppNotOfJob(old(jobs)[i].jobId))
    {
      var id := jobs[i].jobId;
      CascadeKeepsKeys(jobs, jobImages, applications, i);
      jobImages := Filter(jobImages, ImageNotOfJob(id));
      applications := Filter(applications, AppNotOfJob(id));
      jobs := RemoveAt(jobs, i);
    }
  }

  /** Changing a job's flag keeps its id, so the keys still hold. */
  lemma ToggleKeepsKeys(jobs: seq<JobRow>, images: seq<JobImageRow>, apps: seq<ApplicationRow>, i: int, v: int)
    requires RowsHaveJobs(jobs, images, apps) && 0 <= i < |jobs|
    ensures RowsHaveJobs(jobs[i := jobs[i].(isActive := v)], images, apps)
  {
    var s := jobs[i := jobs[i].(isActive := v)];
    assert forall q :: 0 <= q < |jobs| ==> s[q].jobId == jobs[q].jobId;
    forall x: Id | HasJob(jobs, x)
      ensures HasJob(s, x)
    {
      var q :| 0 <= q < |jobs| && jobs[q].jobId == x;
      assert s[q].jobId == x;
    }
  }

  /** After a delete, no image or application names the deleted job. */
  lemma CascadeLeavesNoOrphans(images: seq<JobImageRow>, apps: seq<ApplicationRow>, id: Id)
    ensures forall k :: 0 <= k < |Filter(images, ImageNotOfJob(id))| ==> Filter(images, ImageNotOfJob(id))[k].jobId != id
    ensures forall k :: 0 <= k < |Filter(apps, AppNotOfJob(id))| ==> Filter(apps, AppNotOfJob(id))[k].jobId != id
  {
    var imgs := Filter(images, ImageNotOfJob(id));
    forall k | 0 <= k < |imgs|
      ensures imgs[k].jobId != id
    {
      assert ImageNotOfJob(id)(imgs[k]);
    }
    var xs := Filter(apps, AppNotOfJob(id));
    forall k | 0 <= k < |xs|
      ensures xs[k].jobId != id
    {
      assert AppNotOfJob(id)(xs[k]);
    }
  }
}
