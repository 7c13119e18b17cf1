/** The users screen: a server-paged, filterable user table with status and
    role dropdowns, a status toggle, a confirmed delete and a toast. The
    backend does the paging; the screen keeps the page, the page size and the
    filters, and derives the page count and the page-number window.

    The page count is a memoised `computed` over the `totalRecords` signal
    alone: the page size is a plain field, so changing it does not refresh
    the count, and neither does a reply that sets the same total again.
    `getPaginationRange` is read by the template on every render, so the
    memo is refreshed as soon as the total changes; the screen keeps that
    memo in `totalPages`. */
module Users {
  import opened Values
  import opened Http
  import opened Text
  import opened Pagination
  import ApiService

  /** One choice of a filter dropdown: a title and the value it filters by. */
  datatype FilterOption = FilterOption(title: string, value: Option<string>)

  datatype User = User(
    backendId: Option<string>,
    name: string,
    email: string,
    role: string,
    accountStatus: Option<string>)

  datatype ToastKind = Success | Failure

  datatype Toast = Toast(text: string, kind: ToastKind)

  /** The page of users the backend returns: `data` and its fields may be missing. */
  datatype UserPage = UserPage(users: Option<seq<User>>, total: Option<nat>)

  datatype UserList = UserList(data: Option<UserPage>)

  /** The body of `updateUserStatus`: the id and the activation flag. */
  datatype StatusUpdate = StatusUpdate(userId: string, accountStatus: bool)

  datatype Screen = Screen(
    users: seq<User>,
    loading: bool,
    deleting: bool,
    showDeleteConfirm: bool,
    userToDelete: Option<User>,
    toast: Option<Toast>,
    statusDropdownOpen: bool,
    roleDropdownOpen: bool,
    currentPage: int,
    itemsPerPage: nat,
    totalRecords: nat,
    totalPages: nat,
    searchTerm: string,
    statusFilter: Option<FilterOption>,
    roleFilter: Option<FilterOption>)

  const MaxVisiblePages: nat := 5

  /** The page sizes the screen offers. */
  const ItemsPerPageOptions: seq<nat> := [5, 10, 20, 50]

  /** The screen as constructed, before its first load is issued. */
  function Initial(): (s: Screen)
    ensures s.currentPage == 1 && s.itemsPerPage == 10 && s.totalRecords == 0
    ensures s.totalPages == PageCount(s.totalRecords, s.itemsPerPage) == 0
    ensures s.statusFilter == Some(FilterOption("All Status", None))
    ensures s.roleFilter == Some(FilterOption("All Roles", None))
    ensures Wellformed(s)
  {
    Screen([], true, false, false, None, None, false, false, 1, 10, 0, 0, "",
           Some(FilterOption("All Status", None)), Some(FilterOption("All Roles", None)))
  }

  /** What every reachable screen satisfies: a positive page size and at
      most one dropdown open. */
  predicate Wellformed(s: Screen) {
    s.itemsPerPage > 0 && !(s.statusDropdownOpen && s.roleDropdownOpen)
  }

  /** The formula of the `totalPages` computed: the fewest pages of `size`
      rows that hold `total` rows. */
  function PageCount(total: nat, size: nat): (n: nat)
    requires size > 0
    ensures n * size >= total
    ensures n > 0 ==> (n - 1) * size < total
  {
    CeilDiv(total, size)
  }

  /** A filter value goes into the query only when it is truthy. */
  function OptionalParam(value: Option<string>): (v: ApiService.ParamValue)
    ensures Truthy(value) ==> v == ApiService.Scalar(value.value)
    ensures !Truthy(value) ==> v == ApiService.Absent
  {
    if Truthy(value) then ApiService.Scalar(value.value) else ApiService.Absent
  }

  /** The value of a selected filter, `undefined` when none is selected. */
  function FilterValue(f: Option<FilterOption>): Option<string> {
    match f
    case Some(o) => o.value
    case None => None
  }

  /** The query object of `loadUsers`. */
  function Query(s: Screen): (q: ApiService.ParamObject)
    ensures |q| == 5 && ApiService.DistinctKeys(q)
  {
    [("page", ApiService.Scalar(IntToString(s.currentPage))),
     ("limit", ApiService.Scalar(NatToString(s.itemsPerPage))),
     ("search", OptionalParam(Some(s.searchTerm))),
     ("status", OptionalParam(FilterValue(s.statusFilter))),
     ("role", OptionalParam(FilterValue(s.roleFilter)))]
  }

  /** The request sends `search` exactly when the search box is non-empty,
      and then sends its text. */
  lemma SearchSentIffNonEmpty(s: Screen)
    ensures ApiService.ValuesOf(ApiService.Encode(Query(s)), "search")
      == (if s.searchTerm != "" then Some([s.searchTerm]) else None)
  {
    ApiService.EncodeValues(Query(s), "search");
    ApiService.ValueAtEntry(Query(s), 2);
  }

  /** The request sends `status` and `role` exactly when the selected option
      has a truthy value, and then sends that value; the `All` options and a
      cleared filter send nothing. */
  lemma StatusRoleSentIffSelected(s: Screen)
    ensures ApiService.ValuesOf(ApiService.Encode(Query(s)), "status")
      == (if s.statusFilter.Some? && Truthy(s.statusFilter.value.value)
          then Some([s.statusFilter.value.value.value]) else None)
    ensures ApiService.ValuesOf(ApiService.Encode(Query(s)), "role")
      == (if s.roleFilter.Some? && Truthy(s.roleFilter.value.value)
          then Some([s.roleFilter.value.value.value]) else None)
  {
    ApiService.EncodeValues(Query(s), "status");
    ApiService.ValueAtEntry(Query(s), 3);
    ApiService.EncodeValues(Query(s), "role");
    ApiService.ValueAtEntry(Query(s), 4);
  }

  /** The request always carries the current page and the page size. */
  lemma PageAndLimitAlwaysSent(s: Screen)
    ensures ApiService.ValuesOf(ApiService.Encode(Query(s)), "page") == Some([IntToString(s.currentPage)])
    ensures ApiService.ValuesOf(ApiService.Encode(Query(s)), "limit") == Some([NatToString(s.itemsPerPage)])
  {
    ApiService.EncodeValues(Query(s), "page");
    ApiService.ValueAtEntry(Query(s), 0);
    ApiService.EncodeValues(Query(s), "limit");
    ApiService.ValueAtEntry(Query(s), 1);
  }

  /** `loadUsers`: the screen while the request is pending, and the request. */
  function LoadStart(s: Screen, baseUrl: string): (r: (Screen, ApiService.Dispatch<()>))
    ensures r.0 == s.(loading := true)
    ensures r.1 == ApiService.Sent(Call(GET, baseUrl + "/admin/users", None), ApiService.Encode(Query(s)))
  {
    (s.(loading := true), ApiService.Get(baseUrl, "/admin/users", Query(s)))
  }

  /** `showToast`: an empty text leaves the current toast as it is. */
  function ShowToast(s: Screen, text: string, kind: ToastKind): (r: Screen)
    ensures text != "" ==> r == s.(toast := Some(Toast(text, kind)))
    ensures text == "" ==> r == s
  {
    if text != "" then s.(toast := Some(Toast(text, kind))) else s
  }

  /** `clearToast`: the toast goes away and nothing else changes. */
  function ClearToast(s: Screen): (r: Screen)
    ensures r.toast.None?
    ensures r.(toast := s.toast) == s
  {
    s.(toast := None)
  }

  /** Clearing a toast just shown undoes the showing: the screen is the one
      before it, without a toast; showing an empty text and clearing only
      clears. */
  lemma ClearUndoesShow(s: Screen, text: string, kind: ToastKind)
    ensures text != "" ==> ShowToast(s, text, kind).toast == Some(Toast(text, kind))
    ensures ClearToast(ShowToast(s, text, kind)) == ClearToast(s)
    ensures s.toast.None? ==> ClearToast(ShowToast(s, text, kind)) == s
  {
  }

  /** `totalRecords.set(total)`: only a different total notifies the
      memoised page count, which then recomputes with the page size of the
      moment. */
  function SetTotal(s: Screen, total: nat): (r: Screen)
    requires s.itemsPerPage > 0
    ensures r.totalRecords == total
    ensures total != s.totalRecords ==> r.totalPages == PageCount(total, s.itemsPerPage)
    ensures total == s.totalRecords ==> r.totalPages == s.totalPages
    ensures r.(totalRecords := s.totalRecords, totalPages := s.totalPages) == s
  {
    if total == s.totalRecords then s
    else s.(totalRecords := total, totalPages := PageCount(total, s.itemsPerPage))
  }

  /** `loadUsers`: the reply replaces the rows and the record count (missing
      parts count as `[]` and `0`), refreshing the page count only when the
      count differs; a failure keeps them and raises a toast. */
  function LoadFinish(s: Screen, outcome: Outcome<UserList>): (r: Screen)
    requires s.itemsPerPage > 0
    ensures !r.loading
    ensures outcome.Next? ==> r.totalRecords != s.totalRecords ==>
      r.totalPages == PageCount(r.totalRecords, s.itemsPerPage)
    ensures r.totalRecords == s.totalRecords ==> r.totalPages == s.totalPages
    ensures outcome.Next? && outcome.value.data.Some? ==>
      r.users == outcome.value.data.value.users.GetOr([])
      && r.totalRecords == outcome.value.data.value.total.GetOr(0)
    ensures outcome.Next? && outcome.value.data.None? ==> r.users == [] && r.totalRecords == 0
    ensures outcome.Next? ==> r.toast == s.toast
    ensures outcome.Next? ==>
      r.(users := s.users, totalRecords := s.totalRecords, totalPages := s.totalPages, loading := s.loading) == s
    ensures outcome.Error? ==>
      r == s.(loading := false, toast := Some(Toast("Failed to load users", Failure)))
  {
    match outcome
    case Next(list) =>
      var page := list.data.GetOr(UserPage(None, None));
      SetTotal(s.(users := page.users.GetOr([]), loading := false), page.total.GetOr(0))
    case Error(_) =>
      ShowToast(s, "Failed to load users", Failure).(loading := false)
  }

  /** `closeAllDropdowns`. */
  function CloseAllDropdowns(s: Screen): (r: Screen)
    ensures !r.statusDropdownOpen && !r.roleDropdownOpen
    ensures r.(statusDropdownOpen := s.statusDropdownOpen, roleDropdownOpen := s.roleDropdownOpen) == s
  {
    s.(statusDropdownOpen := false, roleDropdownOpen := false)
  }

  /** `toggleStatusDropdown`: opening it closes the role dropdown. */
  function ToggleStatusDropdown(s: Screen): (r: Screen)
    ensures r.statusDropdownOpen == !s.statusDropdownOpen
    ensures r.statusDropdownOpen ==> !r.roleDropdownOpen
    ensures !r.statusDropdownOpen ==> r.roleDropdownOpen == s.roleDropdownOpen
    ensures r.(statusDropdownOpen := s.statusDropdownOpen, roleDropdownOpen := s.roleDropdownOpen) == s
  {
    var t := s.(statusDropdownOpen := !s.statusDropdownOpen);
    if t.statusDropdownOpen then t.(roleDropdownOpen := false) else t
  }

  /** `toggleRoleDropdown`: opening it closes the status dropdown. */
  function ToggleRoleDropdown(s: Screen): (r: Screen)
    ensures r.roleDropdownOpen == !s.roleDropdownOpen
    ensures r.roleDropdownOpen ==> !r.statusDropdownOpen
    ensures !r.roleDropdownOpen ==> r.statusDropdownOpen == s.statusDropdownOpen
    ensures r.(statusDropdownOpen := s.statusDropdownOpen, roleDropdownOpen := s.roleDropdownOpen) == s
  {
    var t := s.(roleDropdownOpen := !s.roleDropdownOpen);
    if t.roleDropdownOpen then t.(statusDropdownOpen := false) else t
  }

  /** `applyFilters`: back to page 1, then reload. */
  function ApplyFilters(s: Screen, baseUrl: string): (r: (Screen, ApiService.Dispatch<()>))
    ensures r.0.currentPage == 1
    ensures r == LoadStart(s.(currentPage := 1), baseUrl)
  {
    LoadStart(s.(currentPage := 1), baseUrl)
  }

  /** `resetFilters`: clear search and both filters, page 1, close the dropdowns, reload. */
  function ResetFilters(s: Screen, baseUrl: string): (r: (Screen, ApiService.Dispatch<()>))
    ensures r.0.currentPage == 1 && r.0.searchTerm == ""
    ensures r.0.statusFilter == None && r.0.roleFilter == None
    ensures !r.0.statusDropdownOpen && !r.0.roleDropdownOpen
    ensures r.0.loading
    ensures r.0 == s.(searchTerm := "", statusFilter := None, roleFilter := None, currentPage := 1,
                      statusDropdownOpen := false, roleDropdownOpen := false, loading := true)
    ensures r.1 == ApiService.Sent(Call(GET, baseUrl + "/admin/users", None), ApiService.Encode(Query(r.0)))
  {
    LoadStart(CloseAllDropdowns(s.(searchTerm := "", statusFilter := None, roleFilter := None,
                                   currentPage := 1)), baseUrl)
  }

  /** After a reset the query carries only the page and the page size. */
  lemma ResetQueryHasNoFilters(s: Screen, baseUrl: string)
    ensures ApiService.ValuesOf(ApiService.Encode(Query(ResetFilters(s, baseUrl).0)), "search") == None
    ensures ApiService.ValuesOf(ApiService.Encode(Query(ResetFilters(s, baseUrl).0)), "status") == None
    ensures ApiService.ValuesOf(ApiService.Encode(Query(ResetFilters(s, baseUrl).0)), "role") == None
  {
    var q := Query(ResetFilters(s, baseUrl).0);
    ApiService.EncodeValues(q, "search");
    ApiService.ValueAtEntry(q, 2);
    ApiService.EncodeValues(q, "status");
    ApiService.ValueAtEntry(q, 3);
    ApiService.EncodeValues(q, "role");
    ApiService.ValueAtEntry(q, 4);
  }

  /** `setStatusFilter`: select, page 1, close the dropdowns; no reload. */
  function SetStatusFilter(s: Screen, status: FilterOption): (r: Screen)
    ensures r.statusFilter == Some(status) && r.currentPage == 1
    ensures !r.statusDropdownOpen && !r.roleDropdownOpen
    ensures r == s.(statusFilter := Some(status), currentPage := 1,
                    statusDropdownOpen := false, roleDropdownOpen := false)
  {
    CloseAllDropdowns(s.(statusFilter := Some(status), currentPage := 1))
  }

  /** `setRoleFilter`: select, page 1, close the dropdowns; no reload. */
  function SetRoleFilter(s: Screen, role: FilterOption): (r: Screen)
    ensures r.roleFilter == Some(role) && r.currentPage == 1
    ensures !r.statusDropdownOpen && !r.roleDropdownOpen
    ensures r == s.(roleFilter := Some(role), currentPage := 1,
                    statusDropdownOpen := false, roleDropdownOpen := false)
  {
    CloseAllDropdowns(s.(roleFilter := Some(role), currentPage := 1))
  }

  /** `changePage`: a page inside `1..totalPages`, as the memo holds it,
      becomes current and is loaded; any other page is ignored. */
  function ChangePage(s: Screen, baseUrl: string, page: int): (r: (Screen, Option<ApiService.Dispatch<()>>))
    ensures 1 <= page <= s.totalPages ==> r.0.currentPage == page && r.1.Some?
    ensures 1 <= page <= s.totalPages ==>
      r.1.value == ApiService.Sent(Call(GET, baseUrl + "/admin/users", None),
                                   ApiService.Encode(Query(s.(currentPage := page))))
    ensures !(1 <= page <= s.totalPages) ==> r == (s, None)
  {
    GoToPage(s, baseUrl, page, s.totalPages)
  }

  /** Move to `page` and load it when it lies in `1..last`; otherwise nothing. */
  function GoToPage(s: Screen, baseUrl: string, page: int, last: nat): (r: (Screen, Option<ApiService.Dispatch<()>>))
  {
    if 1 <= page <= last then
      var (t, call) := LoadStart(s.(currentPage := page), baseUrl);
      (t, Some(call))
    else (s, None)
  }

  /** `changeItemsPerPage`: the new size, page 1, reload. The page count is
      left as it was: only a change of the total refreshes it. */
  function ChangeItemsPerPage(s: Screen, baseUrl: string, items: nat): (r: (Screen, ApiService.Dispatch<()>))
    requires items > 0
    ensures r.0.itemsPerPage == items && r.0.currentPage == 1 && r.0.loading
    ensures r.0.totalPages == s.totalPages
    ensures r.0.(itemsPerPage := s.itemsPerPage, currentPage := s.currentPage, loading := s.loading) == s
    ensures r.1 == ApiService.Sent(Call(GET, baseUrl + "/admin/users", None), ApiService.Encode(Query(r.0)))
  {
    LoadStart(s.(itemsPerPage := items, currentPage := 1), baseUrl)
  }

  /** A listing reply whose `total` is `n`. */
  function Listing(n: nat): Outcome<UserList> {
    Next(UserList(Some(UserPage(Some([]), Some(n)))))
  }

  /** As written, the page count goes stale once the page size changes: with
      100 records at 10 a page, switching to 50 a page and reloading the same
      100 records still allows page 3 of what are now 2 pages, and requests it. */
  lemma StalePageCountAfterResize(baseUrl: string)
    ensures var s1 := LoadFinish(Initial(), Listing(100));
            var s2 := ChangeItemsPerPage(s1, baseUrl, 50).0;
            var s3 := LoadFinish(s2, Listing(100));
            s3.itemsPerPage == 50 && s3.totalRecords == 100
            && PageCount(s3.totalRecords, s3.itemsPerPage) == 2
            && s3.totalPages == 10
            && ChangePage(s3, baseUrl, 3).1.Some?
  {
    var s1 := LoadFinish(Initial(), Listing(100));
    assert s1.totalPages == PageCount(100, 10) == 10;
    assert PageCount(100, 50) == 2;
  }

  /** `changePage` with the page count computed from the current total and
      the current page size, as a non-memoised count would give. */
  function ChangePageFresh(s: Screen, baseUrl: string, page: int): (r: (Screen, Option<ApiService.Dispatch<()>>))
    requires s.itemsPerPage > 0
    ensures r.1.Some? <==> 1 <= page && (page - 1) * s.itemsPerPage < s.totalRecords
    ensures r.1.Some? ==> r.0.currentPage == page
    ensures r.1.None? ==> r.0 == s
  {
    PageWithinCount(page, s.totalRecords, s.itemsPerPage);
    GoToPage(s, baseUrl, page, PageCount(s.totalRecords, s.itemsPerPage))
  }

  /** A page number is at most the page count exactly when the rows before
      that page are fewer than the total. */
  lemma PageWithinCount(page: int, total: nat, size: nat)
    requires size > 0
    ensures 1 <= page <= PageCount(total, size) <==> 1 <= page && (page - 1) * size < total
  {
    var n := PageCount(total, size);
    if 1 <= page <= n {
      MulMonotone(page - 1, n - 1, size);
    } else if 1 <= page {
      MulMonotone(n, page - 1, size);
    }
  }

  lemma MulMonotone(a: nat, b: nat, c: nat)
    requires a <= b
    ensures a * c <= b * c
  {
  }

  /** With the fresh count, every page that can be requested holds at least
      one of the records, whatever page-size changes came before. */
  lemma FreshPageHoldsRecords(s: Screen, baseUrl: string, page: int)
    requires s.itemsPerPage > 0
    requires ChangePageFresh(s, baseUrl, page).1.Some?
    ensures 0 <= (page - 1) * s.itemsPerPage < s.totalRecords
    ensures ChangePageFresh(s, baseUrl, page).0.currentPage == page
  {
    MulMonotone(0, page - 1, s.itemsPerPage);
  }

  /** Every filter or page-size change starts again from page 1. */
  lemma FilterChangesResetPage(s: Screen, baseUrl: string, f: FilterOption, items: nat)
    requires items > 0
    ensures ApplyFilters(s, baseUrl).0.currentPage == 1
    ensures ResetFilters(s, baseUrl).0.currentPage == 1
    ensures SetStatusFilter(s, f).currentPage == 1
    ensures SetRoleFilter(s, f).currentPage == 1
    ensures ChangeItemsPerPage(s, baseUrl, items).0.currentPage == 1
  {
  }

  /** `getPaginationRange`: up to five consecutive page numbers around the
      current page, shifted left when they would run past the last page. */
  method PaginationRange(current: int, totalPages: nat) returns (range: seq<int>)
    ensures |range| == Min(MaxVisiblePages, totalPages)
    ensures forall i :: 0 <= i < |range| ==> range[i] == range[0] + i
    ensures forall i :: 0 <= i < |range| ==> 1 <= range[i] <= totalPages
    ensures 1 <= current <= totalPages ==> current in range
  {
    var start := Max(1, current - MaxVisiblePages / 2);
    var end := Min(totalPages, start + MaxVisiblePages - 1);
    if end - start + 1 < MaxVisiblePages {
      start := Max(1, end - MaxVisiblePages + 1);
    }
    range := [];
    var i := start;
    while i <= end
      invariant start <= i <= Max(start, end + 1)
      invariant |range| == i - start
      invariant forall k :: 0 <= k < |range| ==> range[k] == start + k
    {
      range := range + [i];
      i := i + 1;
    }
    if 1 <= current <= totalPages {
      assert range[current - start] == current;
    }
  }

  /** The new status of a toggle: `active` becomes `inactive`, anything else `active`. */
  function NewStatus(user: User): (st: string)
    ensures user.accountStatus == Some("active") <==> st == "inactive"
    ensures st == "active" || st == "inactive"
  {
    if user.accountStatus == Some("active") then "inactive" else "active"
  }

  /** Toggling an active or inactive user twice brings the status back. */
  lemma ToggleTwiceRestores(user: User)
    requires user.accountStatus == Some("active") || user.accountStatus == Some("inactive")
    ensures NewStatus(user.(accountStatus := Some(NewStatus(user)))) == user.accountStatus.value
  {
  }

  /** `toggleUserStatus`: no request for a user without `_id`. */
  function ToggleStatusStart(baseUrl: string, user: User): (d: Option<ApiService.Dispatch<StatusUpdate>>)
    ensures d.Some? <==> Truthy(user.backendId)
    ensures d.Some? ==> d.value == ApiService.Sent(
      Call(POST, baseUrl + "/admin/update-user-account-status",
           Some(StatusUpdate(user.backendId.value, NewStatus(user) == "active"))), [])
  {
    if Truthy(user.backendId) then
      Some(ApiService.Post(baseUrl, "/admin/update-user-account-status",
                           StatusUpdate(user.backendId.value, NewStatus(user) == "active")))
    else None
  }

  /** `users.map(u => u._id === id ? {...u, accountStatus} : u)`. */
  function SetStatusOf(users: seq<User>, id: Option<string>, status: string): (r: seq<User>)
    ensures |r| == |users|
    ensures forall i :: 0 <= i < |users| && users[i].backendId == id ==>
      r[i] == users[i].(accountStatus := Some(status))
    ensures forall i :: 0 <= i < |users| && users[i].backendId != id ==> r[i] == users[i]
  {
    seq(|users|, i requires 0 <= i < |users| =>
      if users[i].backendId == id then users[i].(accountStatus := Some(status)) else users[i])
  }

  /** `toggleUserStatus`: on success every row with the user's `_id` takes the
      new status and a success toast names it; a failure only raises a toast. */
  function ToggleStatusFinish(s: Screen, user: User, outcome: Outcome<()>): (r: Screen)
    ensures outcome.Next? ==>
      r == s.(users := SetStatusOf(s.users, user.backendId, NewStatus(user)),
              toast := Some(Toast("User " + NewStatus(user) + " successfully", Success)))
    ensures outcome.Error? ==> r == s.(toast := Some(Toast("Failed to update user status", Failure)))
  {
    match outcome
    case Next(_) =>
      ShowToast(s.(users := SetStatusOf(s.users, user.backendId, NewStatus(user))),
                "User " + NewStatus(user) + " successfully", Success)
    case Error(_) => ShowToast(s, "Failed to update user status", Failure)
  }

  /** `confirmDelete`: remember the user and open the dialog. */
  function ConfirmDelete(s: Screen, user: User): (r: Screen)
    ensures r.showDeleteConfirm && r.userToDelete == Some(user)
    ensures r.(userToDelete := s.userToDelete, showDeleteConfirm := s.showDeleteConfirm) == s
  {
    s.(userToDelete := Some(user), showDeleteConfirm := true)
  }

  /** `onDeleteConfirm`: the dialog closes; only a confirmed answer for a
      remembered user with an `_id` sends the delete. */
  function DeleteAnswer(s: Screen, baseUrl: string, confirmed: bool): (r: (Screen, Option<ApiService.Dispatch<()>>))
    ensures !r.0.showDeleteConfirm
    ensures r.1.Some? <==> confirmed && s.userToDelete.Some? && Truthy(s.userToDelete.value.backendId)
    ensures r.1.Some? ==> r.0 == s.(showDeleteConfirm := false, deleting := true)
    ensures r.1.Some? ==> r.1.value == ApiService.Sent(
      Call(DELETE, baseUrl + "/admin/users/" + s.userToDelete.value.backendId.value, None), [])
    ensures r.1.None? ==> r.0 == s.(showDeleteConfirm := false)
  {
    var t := s.(showDeleteConfirm := false);
    if confirmed && s.userToDelete.Some? && Truthy(s.userToDelete.value.backendId) then
      (t.(deleting := true),
       Some(ApiService.Delete(baseUrl, "/admin/users/" + s.userToDelete.value.backendId.value)))
    else (t, None)
  }

  /** Confirming a user's deletion and answering the dialog: `yes` sends
      `DELETE /admin/users/<_id>` exactly when the user has a truthy `_id`,
      `no` sends nothing; either way the dialog is closed and the user stays
      remembered until a delete succeeds. */
  lemma ConfirmThenAnswer(s: Screen, baseUrl: string, user: User)
    ensures DeleteAnswer(ConfirmDelete(s, user), baseUrl, true).1
      == (if Truthy(user.backendId)
          then Some(ApiService.Sent(Call(DELETE, baseUrl + "/admin/users/" + user.backendId.value, None), []))
          else None)
    ensures DeleteAnswer(ConfirmDelete(s, user), baseUrl, false)
      == (s.(userToDelete := Some(user), showDeleteConfirm := false), None)
    ensures DeleteAnswer(ConfirmDelete(s, user), baseUrl, true).0.userToDelete == Some(user)
  {
  }

  /** `users.filter(u => u._id !== id)`. */
  function WithoutUser(users: seq<User>, id: Option<string>): (r: seq<User>)
    ensures |r| <= |users|
    ensures forall u :: u in r <==> u in users && u.backendId != id
  {
    if |users| == 0 then []
    else if users[0].backendId != id then [users[0]] + WithoutUser(users[1..], id)
    else WithoutUser(users[1..], id)
  }

  /** A single row is kept exactly when its `_id` differs. */
  lemma WithoutUserOne(user: User, id: Option<string>)
    ensures WithoutUser([user], id) == if user.backendId != id then [user] else []
  {
    assert [user][1..] == [];
  }

  /** Filtering a concatenation filters each part and keeps their order, so
      the remaining rows are shown in their old order. */
  lemma {:induction false} WithoutUserAppend(a: seq<User>, b: seq<User>, id: Option<string>)
    ensures WithoutUser(a + b, id) == WithoutUser(a, id) + WithoutUser(b, id)
  {
    if |a| == 0 {
      assert a + b == b;
    } else {
      assert (a + b)[0] == a[0];
      assert (a + b)[1..] == a[1..] + b;
      WithoutUserAppend(a[1..], b, id);
    }
  }

  /** Filtering keeps every row when none carries the `_id`. */
  lemma {:induction false} WithoutAbsentUser(users: seq<User>, id: Option<string>)
    requires forall i :: 0 <= i < |users| ==> users[i].backendId != id
    ensures WithoutUser(users, id) == users
  {
    if |users| > 0 {
      WithoutAbsentUser(users[1..], id);
      assert users == [users[0]] + users[1..];
    }
  }

  /** `onDeleteConfirm`, once the request ends: success drops every row with
      the deleted user's `_id`, forgets the user and raises a success toast;
      failure only raises a toast. `deleting` is cleared either way. */
  function DeleteFinish(s: Screen, target: User, outcome: Outcome<()>): (r: Screen)
    ensures !r.deleting
    ensures outcome.Next? ==> r == s.(users := WithoutUser(s.users, target.backendId),
                                      toast := Some(Toast("User deleted successfully", Success)),
                                      userToDelete := None, deleting := false)
    ensures outcome.Error? ==>
      r == s.(toast := Some(Toast("Failed to delete user", Failure)), deleting := false)
  {
    match outcome
    case Next(_) =>
      ShowToast(s.(users := WithoutUser(s.users, target.backendId)), "User deleted successfully", Success)
        .(userToDelete := None, deleting := false)
    case Error(_) =>
      ShowToast(s, "Failed to delete user", Failure).(deleting := false)
  }

  /** `viewUser`: a route only for a user with an `_id`. */
  function ViewRoute(user: User): (r: Option<seq<string>>)
    ensures r.Some? <==> Truthy(user.backendId)
    ensures r.Some? ==> r.value == ["/users", user.backendId.value]
  {
    if Truthy(user.backendId) then Some(["/users", user.backendId.value]) else None
  }

  /** `editUser`: a route only for a user with an `_id`. */
  function EditRoute(user: User): (r: Option<seq<string>>)
    ensures r.Some? <==> Truthy(user.backendId)
    ensures r.Some? ==> r.value == ["/users", user.backendId.value, "edit"]
  {
    if Truthy(user.backendId) then Some(["/users", user.backendId.value, "edit"]) else None
  }

  /** The dropdown transitions never leave both dropdowns open. */
  lemma DropdownsStayExclusive(s: Screen, f: FilterOption)
    requires Wellformed(s)
    ensures Wellformed(ToggleStatusDropdown(s)) && Wellformed(ToggleRoleDropdown(s))
    ensures Wellformed(CloseAllDropdowns(s))
    ensures Wellformed(SetStatusFilter(s, f)) && Wellformed(SetRoleFilter(s, f))
  {
  }

  /** The loading and paging transitions keep the screen well formed. */
  lemma LoadingKeepsWellformed(s: Screen, baseUrl: string, page: int, items: nat, list: Outcome<UserList>)
    requires Wellformed(s) && items > 0
    ensures Wellformed(ApplyFilters(s, baseUrl).0) && Wellformed(ResetFilters(s, baseUrl).0)
    ensures Wellformed(ChangePage(s, baseUrl, page).0)
    ensures Wellformed(ChangeItemsPerPage(s, baseUrl, items).0)
    ensures Wellformed(LoadStart(s, baseUrl).0) && Wellformed(LoadFinish(s, list))
  {
  }

  /** A successful delete of a user no other row shares an `_id` with
      removes exactly that row: the rows before and after it stay, in order.
      A failed delete keeps every row. */
  lemma DeleteRemovesOnlyTarget(s: Screen, a: seq<User>, target: User, b: seq<User>)
    requires s.users == a + [target] + b
    requires forall i :: 0 <= i < |a| ==> a[i].backendId != target.backendId
    requires forall i :: 0 <= i < |b| ==> b[i].backendId != target.backendId
    ensures DeleteFinish(s, target, Next(())).users == a + b
    ensures forall e :: DeleteFinish(s, target, Error(e)).users == s.users
  {
    var id := target.backendId;
    assert WithoutUser(a + [target], id) == a by {
      WithoutUserAppend(a, [target], id);
      WithoutUserOne(target, id);
      WithoutAbsentUser(a, id);
      assert a + [] == a;
    }
    assert WithoutUser(s.users, id) == a + b by {
      WithoutUserAppend(a + [target], b, id);
      WithoutAbsentUser(b, id);
    }
  }

  /** The delete dialog keeps the screen well formed: confirming and
      answering it. */
  lemma DialogKeepsWellformed(s: Screen, baseUrl: string, user: User, confirmed: bool)
    requires Wellformed(s)
    ensures Wellformed(ConfirmDelete(s, user))
    ensures Wellformed(DeleteAnswer(s, baseUrl, confirmed).0)
  {
  }

  /** The end of a delete or a status change keeps the screen well formed. */
  lemma RowUpdatesKeepWellformed(s: Screen, user: User, outcome: Outcome<()>)
    requires Wellformed(s)
    ensures Wellformed(DeleteFinish(s, user, outcome))
    ensures Wellformed(ToggleStatusFinish(s, user, outcome))
  {
  }
}
