/**
 * The administrator's user list (`AdminUsers`): one server page of users,
 * searched on the client, with a page-size selector and a numbered window
 * past seven pages.
 */
module AdminUsers {
  import opened Common
  import opened Text
  import PageWindow
  import Pagination

  const WindowThreshold: int := 7
  const PageSizes: seq<int> := [25, 50, 75, 100]

  datatype AdminUser = AdminUser(userId: string, userName: string, email: string, isActive: bool)

  /** Whether the lower-cased name or e-mail contains the lower-cased term. */
  predicate MatchesTerm(u: AdminUser, term: string)
  {
    Contains(Lower(u.userName), Lower(term)) || Contains(Lower(u.email), Lower(term))
  }

  function Matching(term: string): AdminUser -> bool
  {
    (u: AdminUser) => MatchesTerm(u, term)
  }

  /** `filteredUsers`: the loaded users whose name or e-mail contains the term, ignoring case. */
  function Filtered(users: seq<AdminUser>, term: string): (r: seq<AdminUser>)
    ensures forall u :: u in r <==> u in users && MatchesTerm(u, term)
    ensures |r| <= |users|
  {
    Filter(users, Matching(term))
  }

  /** The search ignores the case of the term. */
  lemma FilterIgnoresCase(users: seq<AdminUser>, term: string)
    ensures Filtered(users, Upper(term)) == Filtered(users, term)
  {
    LowerOfUpper(term);
    FilterSame(users, Matching(Upper(term)), Matching(term));
  }

  /** An empty search shows every loaded user. */
  lemma EmptyTermKeepsAll(users: seq<AdminUser>)
    ensures Filtered(users, "") == users
  {
    forall i | 0 <= i < |users|
      ensures Matching("")(users[i])
    {
      ContainsEmpty(Lower(users[i].userName));
    }
    FilterAll(users, Matching(""));
  }

  function Flip(userId: string): AdminUser -> AdminUser
  {
    (u: AdminUser) => if u.userId == userId then u.(isActive := !u.isActive) else u
  }

  /** After a successful toggle the matching users change state; no other user changes. */
  function Toggled(users: seq<AdminUser>, userId: string): (r: seq<AdminUser>)
    ensures |r| == |users|
    ensures forall i :: 0 <= i < |users| && users[i].userId != userId ==> r[i] == users[i]
    ensures forall i :: 0 <= i < |users| && users[i].userId == userId ==>
      r[i].isActive == !users[i].isActive && r[i].(isActive := users[i].isActive) == users[i]
  {
    Map(users, Flip(userId))
  }

  /** Toggling the same user twice restores the list. */
  lemma ToggleTwiceRestores(users: seq<AdminUser>, userId: string)
    ensures Toggled(Toggled(users, userId), userId) == users
  {
    var once := Toggled(users, userId);
    var twice := Toggled(once, userId);
    assert |twice| == |users|;
    forall i | 0 <= i < |users|
      ensures twice[i] == users[i]
    {
      assert once[i].userId == users[i].userId;
    }
  }

  datatype Paging = Paging(currentPage: int, pageSize: int)

  /** Choosing a page size goes back to the first page. */
  function ChoosePageSize(p: Paging, size: int): (r: Paging)
    ensures r.currentPage == 1 && r.pageSize == size
  {
    Paging(1, size)
  }

  function Buttons(totalCount: int, pageSize: int, currentPage: int): seq<int>
    requires pageSize > 0
  {
    PageWindow.Window(Pagination.TotalPages(totalCount, pageSize), currentPage, WindowThreshold)
  }

  /** Up to seven pages every page has a button; past seven, only the ends and the current page's neighbours. */
  lemma ButtonsShown(totalCount: int, pageSize: int, currentPage: int, p: int)
    requires pageSize > 0
    ensures var tp := Pagination.TotalPages(totalCount, pageSize);
      p in Buttons(totalCount, pageSize, currentPage) <==>
        1 <= p <= tp && (tp <= WindowThreshold || p == 1 || p == tp || currentPage - 1 <= p <= currentPage + 1)
  {
  }

  /** Next is disabled on the last page, while loading, and when there is no user. */
  predicate NextDisabled(currentPage: int, totalCount: int, pageSize: int, loading: bool)
    requires pageSize > 0
  {
    currentPage == Pagination.TotalPages(totalCount, pageSize) || loading || totalCount == 0
  }

  /** With no user Next would go to page 0, so it is disabled. */
  lemma NextWithoutUsers(currentPage: int, pageSize: int)
    requires pageSize > 0 && currentPage >= 1
    ensures PageWindow.Next(currentPage, 0, pageSize) == 0
    ensures NextDisabled(currentPage, 0, pageSize, false)
  {
  }

  /** An enabled Next from a page that exists leads to the following page, which exists. */
  lemma EnabledNextMovesOn(currentPage: int, totalCount: int, pageSize: int)
    requires pageSize > 0 && totalCount >= 0
    requires 1 <= currentPage <= Pagination.TotalPages(totalCount, pageSize)
    requires !NextDisabled(currentPage, totalCount, pageSize, false)
    ensures PageWindow.Next(currentPage, totalCount, pageSize) == currentPage + 1
    ensures currentPage + 1 <= Pagination.TotalPages(totalCount, pageSize)
  {
  }
}
