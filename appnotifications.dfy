/**
 * The employer's application-notification summary on the client
 * (`ApplicationNotificationsContext`): the realtime reducer that folds an
 * incoming application into the summary, and the guards around the
 * requests that replace it.
 *
 * A notification arrives as JSON whose keys may be camel-case or
 * Pascal-case; a missing, null or empty value is "" here (all three are
 * falsy to the reducer).
 */
module ApplicationNotifications {
  import opened Common
  import opened Text

  datatype Notification = Notification(
    applicationId: string,
    jobId: string,
    jobTitle: string,
    /** The same three values under Pascal-case keys. */
    pascalApplicationId: string,
    pascalJobId: string,
    pascalJobTitle: string)

  datatype JobCount = JobCount(jobId: string, jobTitle: string, applicationCount: int, unreadCount: int)

  datatype Summary = Summary(totalUnread: int, jobCounts: seq<JobCount>, recentNotifications: seq<Notification>)

  const EmptySummary: Summary := Summary(0, [], [])
  const RecentLimit: nat := 10
  const UnknownJobTitle: string := "Unknown Job"

  function AppIdOf(n: Notification): string { Or(n.applicationId, n.pascalApplicationId) }
  function JobIdOf(n: Notification): string { Or(n.jobId, n.pascalJobId) }

  /** The duplicate test reads the camel-case key of the stored notifications only. */
  predicate AlreadyListed(prev: Summary, appId: string)
  {
    exists k :: 0 <= k < |prev.recentNotifications| && prev.recentNotifications[k].applicationId == appId
  }

  function HasJobId(jobId: string): JobCount -> bool
  {
    (c: JobCount) => c.jobId == jobId
  }

  /** The job counts after one more unread application for `jobId`. */
  function BumpJob(counts: seq<JobCount>, jobId: string, title: string): (r: seq<JobCount>)
  {
    var k := FindIndex(counts, HasJobId(jobId));
    if k >= 0 then
      counts[k := counts[k].(applicationCount := counts[k].applicationCount + 1, unreadCount := counts[k].unreadCount + 1)]
    else
      counts + [JobCount(jobId, title, 1, 1)]
  }

  /** The `receiveapplicationnotification` handler's state update. */
  function Receive(prev: Summary, n: Notification): (r: Summary)
    ensures AppIdOf(n) == "" || JobIdOf(n) == "" || AlreadyListed(prev, AppIdOf(n)) ==> r == prev
    ensures r != prev ==> r.totalUnread == prev.totalUnread + 1
    ensures r != prev ==> 1 <= |r.recentNotifications| <= RecentLimit && r.recentNotifications[0] == n
  {
    var appId, jobId := AppIdOf(n), JobIdOf(n);
    if appId == "" || jobId == "" then prev
    else if AlreadyListed(prev, appId) then prev
    else
      Summary(prev.totalUnread + 1,
              BumpJob(prev.jobCounts, jobId, Or(Or(n.jobTitle, n.pascalJobTitle), UnknownJobTitle)),
              Take([n] + prev.recentNotifications, RecentLimit))
  }

  /** An accepted notification is new to the summary and carries both ids. */
  lemma ReceiveAccepts(prev: Summary, n: Notification)
    requires AppIdOf(n) != "" && JobIdOf(n) != "" && !AlreadyListed(prev, AppIdOf(n))
    ensures var r := Receive(prev, n);
      r.totalUnread == prev.totalUnread + 1 &&
      r.recentNotifications == Take([n] + prev.recentNotifications, RecentLimit)
  {
  }

  /** A job already counted gains one application and one unread; no other entry moves. */
  lemma ReceiveKnownJob(counts: seq<JobCount>, jobId: string, title: string, k: int)
    requires 0 <= k < |counts| && counts[k].jobId == jobId
    requires forall i :: 0 <= i < k ==> counts[i].jobId != jobId
    ensures var r := BumpJob(counts, jobId, title);
      |r| == |counts| &&
      r[k] == counts[k].(applicationCount := counts[k].applicationCount + 1, unreadCount := counts[k].unreadCount + 1) &&
      forall i :: 0 <= i < |counts| && i != k ==> r[i] == counts[i]
  {
  }

  /** A job not yet counted is appended with one application, unread. */
  lemma ReceiveUnknownJob(counts: seq<JobCount>, jobId: string, title: string)
    requires forall i :: 0 <= i < |counts| ==> counts[i].jobId != jobId
    ensures BumpJob(counts, jobId, title) == counts + [JobCount(jobId, title, 1, 1)]
  {
  }

  function UnreadSum(counts: seq<JobCount>): int
  {
    if counts == [] then 0 else UnreadSum(counts[..|counts| - 1]) + counts[|counts| - 1].unreadCount
  }

  lemma {:induction false} UnreadSumUpdate(counts: seq<JobCount>, k: int, c: JobCount)
    requires 0 <= k < |counts|
    ensures UnreadSum(counts[k := c]) == UnreadSum(counts) - counts[k].unreadCount + c.unreadCount
    decreases |counts|
  {
    var last := |counts| - 1;
    assert counts[k := c][..last] == if k == last then counts[..last] else counts[..last][k := c];
    if k < last {
      UnreadSumUpdate(counts[..last], k, c);
    }
  }

  lemma UnreadSumAppend(counts: seq<JobCount>, c: JobCount)
    ensures UnreadSum(counts + [c]) == UnreadSum(counts) + c.unreadCount
  {
    assert (counts + [c])[..|counts|] == counts;
  }

  /** The summary's total agrees with its job entries. */
  predicate Consistent(s: Summary)
  {
    s.totalUnread == UnreadSum(s.jobCounts) &&
    forall i :: 0 <= i < |s.jobCounts| ==> 0 <= s.jobCounts[i].unreadCount <= s.jobCounts[i].applicationCount
  }

  /** Folding a notification in keeps the total equal to the sum of the per-job unread counts, each within its job's count. */
  lemma ReceiveKeepsConsistent(prev: Summary, n: Notification)
    requires Consistent(prev)
    ensures Consistent(Receive(prev, n))
  {
    var appId, jobId := AppIdOf(n), JobIdOf(n);
    if appId != "" && jobId != "" && !AlreadyListed(prev, appId) {
      var counts := prev.jobCounts;
      var title := Or(Or(n.jobTitle, n.pascalJobTitle), UnknownJobTitle);
      var k := FindIndex(counts, HasJobId(jobId));
      if k >= 0 {
        var c := counts[k].(applicationCount := counts[k].applicationCount + 1, unreadCount := counts[k].unreadCount + 1);
        UnreadSumUpdate(counts, k, c);
      } else {
        UnreadSumAppend(counts, JobCount(jobId, title, 1, 1));
      }
    }
  }

  // ---------------------------------------------------------------------
  // Requests that replace the summary

  /** How a request ended: the call threw, or came back with a status and maybe a body. */
  datatype Reply<T> = Failed | Status(code: int, body: Option<T>)

  /** `refreshSummary`: a non-employer's summary is emptied without a request. */
  function Refresh(isEmployer: bool, prev: Summary, reply: Reply<Summary>): (r: Summary)
    ensures !isEmployer ==> r == EmptySummary
    ensures isEmployer && (reply.Failed? || reply.code != 200) ==> r == prev
  {
    if !isEmployer then EmptySummary
    else match reply
      case Failed => prev
      case Status(code, body) => if code == 200 then OrElse(body, EmptySummary) else prev
  }

  /**
   * A mark-as-read request that was sent: the summary the reply carries,
   * or else a refresh (`refreshed` is the reply of that second request);
   * a failure or another status leaves the summary alone.
   */
  function AfterMarkReply(isEmployer: bool, prev: Summary, reply: Reply<Option<Summary>>,
                          refreshed: Reply<Summary>): (r: Summary)
    ensures reply.Failed? || reply.code != 200 ==> r == prev
    ensures reply.Status? && reply.code == 200 && reply.body.Some? && reply.body.value.Some? ==>
      r == reply.body.value.value
    ensures reply.Status? && reply.code == 200 && !(reply.body.Some? && reply.body.value.Some?) ==>
      r == Refresh(isEmployer, prev, refreshed)
  {
    match reply
    case Failed => prev
    case Status(code, body) =>
      if code != 200 then prev
      else if body.Some? && body.value.Some? then body.value.value
      else Refresh(isEmployer, prev, refreshed)
  }

  /** `markJobAsRead` sends its request only for an employer and a non-empty job id. */
  predicate MarkJobSends(isEmployer: bool, jobId: string)
  {
    isEmployer && jobId != ""
  }

  /** `markJobAsRead`, and `markNotificationAsRead`, which only calls it. */
  function MarkJobAsRead(isEmployer: bool, jobId: string, prev: Summary,
                         reply: Reply<Option<Summary>>, refreshed: Reply<Summary>): (r: Summary)
    ensures !MarkJobSends(isEmployer, jobId) ==> r == prev
    ensures MarkJobSends(isEmployer, jobId) ==> r == AfterMarkReply(isEmployer, prev, reply, refreshed)
  {
    if !MarkJobSends(isEmployer, jobId) then prev else AfterMarkReply(isEmployer, prev, reply, refreshed)
  }

  /** `markAllAsRead`: sent for an employer whatever the job, and answered like `markJobAsRead`. */
  function MarkAllAsRead(isEmployer: bool, prev: Summary, reply: Reply<Option<Summary>>,
                         refreshed: Reply<Summary>): (r: Summary)
    ensures !isEmployer ==> r == prev
    ensures isEmployer ==> r == AfterMarkReply(isEmployer, prev, reply, refreshed)
  {
    if !isEmployer then prev else AfterMarkReply(isEmployer, prev, reply, refreshed)
  }

  /**
   * A reply without a summary, followed by a refresh that fails, leaves
   * the summary as it was; a refresh that succeeds installs its summary.
   */
  lemma MarkWithoutSummaryRefreshes(prev: Summary, jobId: string, s: Summary)
    requires jobId != ""
    ensures MarkJobAsRead(true, jobId, prev, Status(200, Some(None)), Failed) == prev
    ensures MarkJobAsRead(true, jobId, prev, Status(200, None), Status(200, Some(s))) == s
    ensures MarkAllAsRead(true, prev, Status(200, Some(None)), Status(500, None)) == prev
  {
  }

  /** The user's group is joined only by an employer, once connected, with a user id. */
  function GroupToJoin(isEmployer: bool, isConnected: bool, userId: string): (r: Option<string>)
    ensures r.Some? <==> isEmployer && isConnected && userId != ""
    ensures r.Some? ==> r.value == userId
  {
    if !isEmployer || !isConnected || userId == "" then None else Some(userId)
  }
}
