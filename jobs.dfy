/**
 * The public job listing: the repository's filtered, counted and paged
 * query (`JobRepository`) and the service that memoises it by a string key
 * (`JobService`).
 */
module JobListing {
  import opened Common
  import opened Text

  /** The columns of a job the listing reads. */
  datatype Job = Job(
    jobId: Id,
    title: string,
    skillsRequired: Option<string>,
    isActive: int,
    createdAt: int)

  /** `JobQueryDto`; its annotations keep `pageSize` within [1, 50] and `page` at least 1. */
  datatype JobQuery = JobQuery(page: int, pageSize: int, search: Option<string>, category: Option<string>)

  function IsListed(j: Job): bool { j.isActive == 1 }

  /** `CreatedAt` descending, then `JobId` ascending. */
  function NewestKey(j: Job): Key { Key(j.createdAt, -j.jobId) }

  function CreatedKey(j: Job): Key { Key(j.createdAt, 0) }

  /** `GetAllJobsAsync`: listed jobs only, newest first. */
  function AllJobs(jobs: seq<Job>): (r: seq<Job>)
    ensures |r| == |Filter(jobs, IsListed)|
    ensures forall k :: 0 <= k < |r| ==> r[k].isActive == 1
  {
    var listed := Filter(jobs, IsListed);
    var r := SortDesc(listed, CreatedKey);
    assert forall k :: 0 <= k < |r| ==> r[k] in listed by {
      forall k | 0 <= k < |r|
        ensures r[k] in listed
      {
        SortDescMembers(listed, CreatedKey, r[k]);
      }
    }
    r
  }

  /** A job is in the full listing exactly when it is stored and listed. */
  lemma AllJobsMembers(jobs: seq<Job>, j: Job)
    ensures j in AllJobs(jobs) <==> j in jobs && j.isActive == 1
  {
    SortDescMembers(Filter(jobs, IsListed), CreatedKey, j);
  }

  /** The three filters of `GetJobsAsync`, each skipped when its argument is null or empty. */
  predicate MatchesQuery(j: Job, search: Option<string>, category: Option<string>)
  {
    j.isActive == 1 &&
    (IsNullOrEmpty(search) || Contains(j.title, search.value)) &&
    (IsNullOrEmpty(category) || (j.skillsRequired.Some? && Contains(j.skillsRequired.value, category.value)))
  }

  function Matching(search: Option<string>, category: Option<string>): Job -> bool
  {
    j => MatchesQuery(j, search, category)
  }

  function Ordered(jobs: seq<Job>, search: Option<string>, category: Option<string>): seq<Job>
  {
    SortDesc(Filter(jobs, Matching(search, category)), NewestKey)
  }

  /** `GetJobsAsync`: the page of the ordered matches, and the number of matches. */
  function JobsPage(jobs: seq<Job>, page: int, pageSize: int, search: Option<string>, category: Option<string>)
    : (r: (seq<Job>, nat))
    ensures r.1 == |Filter(jobs, Matching(search, category))|
    ensures |r.0| <= r.1
    ensures forall k :: 0 <= k < |r.0| ==> r.0[k] in jobs && MatchesQuery(r.0[k], search, category)
  {
    var matching := Filter(jobs, Matching(search, category));
    var ordered := Ordered(jobs, search, category);
    PageOfWithin(ordered, page, pageSize);
    var shown := PageOf(ordered, page, pageSize);
    assert forall k :: 0 <= k < |shown| ==> shown[k] in matching by {
      forall k | 0 <= k < |shown|
        ensures shown[k] in matching
      {
        SortDescMembers(matching, NewestKey, shown[k]);
      }
    }
    (shown, |matching|)
  }

  /** Every stored job that passes the filters is counted, and only those. */
  lemma CountedIffMatches(jobs: seq<Job>, search: Option<string>, category: Option<string>, j: Job)
    ensures j in Filter(jobs, Matching(search, category)) <==> j in jobs && MatchesQuery(j, search, category)
  {
  }

  /** The count is taken before paging, so no page changes it. */
  lemma CountIgnoresPage(jobs: seq<Job>, search: Option<string>, category: Option<string>,
                         p1: int, s1: int, p2: int, s2: int)
    ensures JobsPage(jobs, p1, s1, search, category).1 == JobsPage(jobs, p2, s2, search, category).1
  {
  }

  /** For page >= 1 the result is the window at `(page-1)*pageSize` of the ordered matches. */
  lemma JobsPageIsWindow(jobs: seq<Job>, page: int, pageSize: int, search: Option<string>, category: Option<string>)
    requires page >= 1 && pageSize >= 1
    ensures SortedDesc(Ordered(jobs, search, category), NewestKey)
    ensures var shown, ordered := JobsPage(jobs, page, pageSize, search, category).0, Ordered(jobs, search, category);
      |shown| == Min(pageSize, Max(0, |ordered| - Offset(page, pageSize))) &&
      forall k :: 0 <= k < |shown| ==>
        0 <= Offset(page, pageSize) + k < |ordered| && shown[k] == ordered[Offset(page, pageSize) + k]
  {
    var ordered := Ordered(jobs, search, category);
    SortDescSorted(Filter(jobs, Matching(search, category)), NewestKey);
    PageOfAt(ordered, page, pageSize);
  }

  /** Within a page, equal creation times are ordered by ascending id. */
  lemma TiesByAscendingId(jobs: seq<Job>, search: Option<string>, category: Option<string>, i: int, j: int)
    requires 0 <= i < j < |Ordered(jobs, search, category)|
    ensures var o := Ordered(jobs, search, category);
      o[i].createdAt > o[j].createdAt || (o[i].createdAt == o[j].createdAt && o[i].jobId <= o[j].jobId)
  {
    SortDescSorted(Filter(jobs, Matching(search, category)), NewestKey);
  }

  // ---------------------------------------------------------------------
  // JobService

  datatype PaginatedResult = PaginatedResult(data: seq<Job>, totalCount: nat, page: int, pageSize: int, totalPages: int)

  /** What a cache miss computes: the repository's page with the query echoed and the page count. */
  function FreshResult(q: JobQuery, jobs: seq<Job>): (r: PaginatedResult)
    requires q.pageSize >= 1
    ensures r.page == q.page && r.pageSize == q.pageSize
    ensures r.totalCount == |Filter(jobs, Matching(q.search, q.category))|
    ensures r.totalPages == CeilDiv(r.totalCount, q.pageSize)
  {
    var (data, total) := JobsPage(jobs, q.page, q.pageSize, q.search, q.category);
    PaginatedResult(data, total, q.page, q.pageSize, CeilDiv(total, q.pageSize))
  }

  /**
   * `TotalPages` is the smallest page count that holds every match: zero
   * exactly when nothing matches.
   */
  lemma TotalPagesIsCeiling(total: nat, pageSize: int)
    requires pageSize >= 1
    ensures var n := CeilDiv(total, pageSize);
      (n - 1) * pageSize < total <= n * pageSize && n >= 0 && (total == 0 <==> n == 0)
  {
    var n := CeilDiv(total, pageSize);
    if n < 0 {
      ProductSign(n, pageSize);
    }
    if n > 0 {
      ProductSign(n - 1, pageSize);
    }
  }

  /** The sign of `x * b` for a positive `b` is the sign of `x`. */
  lemma ProductSign(x: int, b: int)
    requires b >= 1
    ensures x < 0 ==> x * b < 0
    ensures x >= 0 ==> x * b >= 0
  {
  }

  /** String interpolation of an optional string: null prints as nothing. */
  function Shown(o: Option<string>): string
  {
    OrElse(o, "")
  }

  /** The cache key as written: `jobs_{Page}_{PageSize}_{Search}_{Category}`. */
  function CacheKey(q: JobQuery): string
  {
    "jobs_" + IntToString(q.page) + "_" + IntToString(q.pageSize) + "_" + Shown(q.search) + "_" + Shown(q.category)
  }

  /**
   * Two different queries share a key when an underscore moves between the
   * search and the category, and their results differ.
   */
  lemma CacheKeyCollides()
    ensures var q1, q2 := JobQuery(1, 10, Some("a_b"), None), JobQuery(1, 10, Some("a"), Some("b_"));
      var jobs := [Job(1, "a_b", None, 1, 0)];
      q1 != q2 && CacheKey(q1) == CacheKey(q2) && FreshResult(q1, jobs) != FreshResult(q2, jobs)
  {
    var q1, q2 := JobQuery(1, 10, Some("a_b"), None), JobQuery(1, 10, Some("a"), Some("b_"));
    var jobs := [Job(1, "a_b", None, 1, 0)];
    assert IntToString(1) == "1";
    assert IntToString(10) == IntToString(1) + [DigitChar(0)];
    assert CacheKey(q1) == CacheKey(q2);
    assert StartsWith("a_b", "a_b");
    assert MatchesQuery(jobs[0], q1.search, q1.category);
    assert !MatchesQuery(jobs[0], q2.search, q2.category);
    assert Filter(jobs, Matching(q1.search, q1.category)) == jobs;
    assert Filter(jobs, Matching(q2.search, q2.category)) == [];
  }

  /** `JobService` as written: results memoised under the interpolated string key. */
  class JobService {
    var cache: map<string, PaginatedResult>

    constructor ()
      ensures cache == map[]
    {
      cache := map[];
    }

    /** A miss queries the repository once and stores the result; a hit returns the stored result. */
    method GetJobs(q: JobQuery, jobs: seq<Job>) returns (r: PaginatedResult, queried: bool)
      requires q.pageSize >= 1
      modifies this
      ensures CacheKey(q) in old(cache) ==> !queried && r == old(cache)[CacheKey(q)] && cache == old(cache)
      ensures CacheKey(q) !in old(cache) ==>
        queried && r == FreshResult(q, jobs) && cache == old(cache)[CacheKey(q) := r]
    {
      var key := CacheKey(q);
      if key in cache {
        return cache[key], false;
      }
      r := FreshResult(q, jobs);
      cache := cache[key := r];
      queried := true;
    }
  }

  /** The collision in action: the second query is answered with the first query's page. */
  method CollidingQueriesShareAResult() returns (r1: PaginatedResult, r2: PaginatedResult)
    ensures r2 == r1
    ensures r2 != FreshResult(JobQuery(1, 10, Some("a"), Some("b_")), [Job(1, "a_b", None, 1, 0)])
  {
    var jobs := [Job(1, "a_b", None, 1, 0)];
    var q1, q2 := JobQuery(1, 10, Some("a_b"), None), JobQuery(1, 10, Some("a"), Some("b_"));
    CacheKeyCollides();
    var service := new JobService();
    var hit: bool;
    r1, hit := service.GetJobs(q1, jobs);
    r2, hit := service.GetJobs(q2, jobs);
  }

  /** Every cached entry is what a fresh query would return. */
  ghost predicate Coherent(cache: map<JobQuery, PaginatedResult>, jobs: seq<Job>)
  {
    forall q :: q in cache ==> q.pageSize >= 1 && cache[q] == FreshResult(q, jobs)
  }

  /** The memo keyed by the query itself, so distinct queries never share an entry. */
  class QueryCache {
    var cache: map<JobQuery, PaginatedResult>

    constructor ()
      ensures cache == map[]
    {
      cache := map[];
    }

    /** With the table unchanged, a hit returns exactly what a miss would compute. */
    method GetJobs(q: JobQuery, jobs: seq<Job>) returns (r: PaginatedResult, queried: bool)
      requires q.pageSize >= 1 && Coherent(cache, jobs)
      modifies this
      ensures Coherent(cache, jobs)
      ensures r == FreshResult(q, jobs)
      ensures queried <==> q !in old(cache)
      ensures cache == old(cache)[q := r]
    {
      if q in cache {
        return cache[q], false;
      }
      r := FreshResult(q, jobs);
      cache := cache[q := r];
      queried := true;
    }
  }
}
