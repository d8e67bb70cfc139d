/** The administrator's dashboard: the user filter, the revenue sum and the other
    statistics, the self-deletion guard, and the state the fetches set. */
module AdminDashboard {
  import opened Wrappers
  import opened Text
  import opened Lists

  datatype UserProfile = UserProfile(id: string, name: string, email: string, isAdmin: bool)

  datatype AdminFilter = All | AdminsOnly | UsersOnly

  /** The filter's predicate: the lower-cased search text occurs in the lower-cased
      name or email, and the admin flag fits the chosen filter. */
  predicate Matches(u: UserProfile, searchTerm: string, filter: AdminFilter) {
    var needle := ToLower(searchTerm);
    (Contains(ToLower(u.name), needle) || Contains(ToLower(u.email), needle)) &&
    (filter == All || (filter == AdminsOnly && u.isAdmin) || (filter == UsersOnly && !u.isAdmin))
  }

  /** `filteredUsers`: the matching users, in the fetched order. */
  function FilteredUsers(users: seq<UserProfile>, searchTerm: string, filter: AdminFilter): (r: seq<UserProfile>)
    ensures SubsequenceOf(r, users)
    ensures forall u :: u in r <==> u in users && Matches(u, searchTerm, filter)
  {
    Filter(users, (u: UserProfile) => Matches(u, searchTerm, filter))
  }

  /** No search text and the "all" filter show every user. */
  lemma EmptySearchShowsAll(users: seq<UserProfile>)
    ensures FilteredUsers(users, "", All) == users
  {
    forall i | 0 <= i < |users| ensures Matches(users[i], "", All) {
      ContainsEmpty(ToLower(users[i].name));
    }
  }

  /** The "admin" filter shows only administrators and the "user" filter only the
      others. */
  lemma FilterSplitsByRole(users: seq<UserProfile>, searchTerm: string)
    ensures forall u :: u in FilteredUsers(users, searchTerm, AdminsOnly) ==> u.isAdmin
    ensures forall u :: u in FilteredUsers(users, searchTerm, UsersOnly) ==> !u.isAdmin
    ensures forall u :: u in FilteredUsers(users, searchTerm, All) <==>
      u in FilteredUsers(users, searchTerm, AdminsOnly) || u in FilteredUsers(users, searchTerm, UsersOnly)
  {
  }

  lemma {:induction false} ToLowerIdempotent(s: string)
    ensures ToLower(ToLower(s)) == ToLower(s)
  {
    var once := ToLower(s);
    var twice := ToLower(once);
    forall i | 0 <= i < |s| ensures twice[i] == once[i] {
    }
  }

  /** The search ignores letter case: lower-casing the search text first changes
      nothing. */
  lemma SearchIgnoresCase(users: seq<UserProfile>, searchTerm: string, filter: AdminFilter)
    ensures FilteredUsers(users, ToLower(searchTerm), filter) == FilteredUsers(users, searchTerm, filter)
  {
    ToLowerIdempotent(searchTerm);
    FilterAgree(users, (u: UserProfile) => Matches(u, ToLower(searchTerm), filter),
                (u: UserProfile) => Matches(u, searchTerm, filter));
  }

  datatype RevenueRow = RevenueRow(ticketPrice: real, soldTickets: int)

  /** The `reduce`: price times tickets sold, summed from the first row on. */
  function Revenue(rows: seq<RevenueRow>): real {
    if rows == [] then 0.0
    else Revenue(rows[..|rows| - 1]) + rows[|rows| - 1].ticketPrice * rows[|rows| - 1].soldTickets as real
  }

  /** The sum over two batches of rows is the sum of the two sums. */
  lemma {:induction false} RevenueAppend(a: seq<RevenueRow>, b: seq<RevenueRow>)
    ensures Revenue(a + b) == Revenue(a) + Revenue(b)
    decreases |b|
  {
    if b == [] {
      assert a + b == a;
    } else {
      var last := |b| - 1;
      assert (a + b)[..|a + b| - 1] == a + b[..last];
      assert (a + b)[|a + b| - 1] == b[last];
      RevenueAppend(a, b[..last]);
    }
  }

  /** Non-negative prices and counts give a non-negative total. */
  lemma {:induction false} RevenueNonNegative(rows: seq<RevenueRow>)
    requires forall i :: 0 <= i < |rows| ==> rows[i].ticketPrice >= 0.0 && rows[i].soldTickets >= 0
    ensures Revenue(rows) >= 0.0
  {
    if rows != [] {
      RevenueNonNegative(rows[..|rows| - 1]);
    }
  }

  datatype DashboardStats = DashboardStats(totalUsers: int, totalCampaigns: int, activeCampaigns: int, totalRevenue: real)

  /** The statistics set after the four queries: a missing count is 0, and with no
      rows the revenue is 0. */
  function StatsOf(usersCount: Option<int>, campaignsCount: Option<int>, activeCount: Option<int>,
                   revenueRows: Option<seq<RevenueRow>>): (st: DashboardStats)
    ensures usersCount.None? ==> st.totalUsers == 0
    ensures campaignsCount.None? ==> st.totalCampaigns == 0
    ensures activeCount.None? ==> st.activeCampaigns == 0
    ensures revenueRows.None? || revenueRows.value == [] ==> st.totalRevenue == 0.0
    ensures revenueRows.Some? ==> st.totalRevenue == Revenue(revenueRows.value)
    ensures usersCount.Some? ==> st.totalUsers == usersCount.value
    ensures campaignsCount.Some? ==> st.totalCampaigns == campaignsCount.value
    ensures activeCount.Some? ==> st.activeCampaigns == activeCount.value
  {
    DashboardStats(
      usersCount.GetOr(0),
      campaignsCount.GetOr(0),
      activeCount.GetOr(0),
      match revenueRows case Some(rows) => Revenue(rows) case None => 0.0)
  }

  /** What a click on a user's delete button leads to. */
  datatype DeleteOutcome = RefusedOwnAccount | NotConfirmed | DeleteRequested(userId: string)

  /** `deleteUser`: one's own account is refused before the confirmation dialog;
      the deletion call is made only after a confirmation. */
  function DeleteUser(userId: string, currentUserId: Option<string>, confirmed: bool): (d: DeleteOutcome)
    ensures d == RefusedOwnAccount <==> currentUserId == Some(userId)
    ensures d.DeleteRequested? <==> currentUserId != Some(userId) && confirmed
    ensures d.DeleteRequested? ==> d.userId == userId
  {
    if currentUserId == Some(userId) then RefusedOwnAccount
    else if confirmed then DeleteRequested(userId)
    else NotConfirmed
  }

  /** The page's state. */
  class AdminDashboardPage {
    var users: seq<UserProfile>
    var stats: DashboardStats
    var searchTerm: string
    var filterAdmin: AdminFilter

    constructor()
      ensures users == [] && stats == DashboardStats(0, 0, 0, 0.0)
      ensures searchTerm == [] && filterAdmin == All
    {
      users := [];
      stats := DashboardStats(0, 0, 0, 0.0);
      searchTerm := [];
      filterAdmin := All;
    }

    /** `fetchUsers`: an error keeps the list; otherwise the rows, or none. */
    method FetchUsers(response: Result<Option<seq<UserProfile>>, string>)
      modifies this
      ensures response.Failure? ==> users == old(users)
      ensures response.Success? ==> users == response.value.GetOr([])
      ensures stats == old(stats) && searchTerm == old(searchTerm) && filterAdmin == old(filterAdmin)
    {
      if response.Success? {
        users := response.value.GetOr([]);
      }
    }

    /** `fetchStats` once its queries have answered. */
    method FetchStats(usersCount: Option<int>, campaignsCount: Option<int>, activeCount: Option<int>,
                      revenueRows: Option<seq<RevenueRow>>)
      modifies this
      ensures stats == StatsOf(usersCount, campaignsCount, activeCount, revenueRows)
      ensures users == old(users) && searchTerm == old(searchTerm) && filterAdmin == old(filterAdmin)
    {
      stats := StatsOf(usersCount, campaignsCount, activeCount, revenueRows);
    }

    method SetSearchTerm(term: string)
      modifies this
      ensures searchTerm == term
      ensures users == old(users) && stats == old(stats) && filterAdmin == old(filterAdmin)
    {
      searchTerm := term;
    }

    method SetFilterAdmin(filter: AdminFilter)
      modifies this
      ensures filterAdmin == filter
      ensures users == old(users) && stats == old(stats) && searchTerm == old(searchTerm)
    {
      filterAdmin := filter;
    }

    /** The users the table lists. */
    function Shown(): (r: seq<UserProfile>)
      reads this
      ensures SubsequenceOf(r, users)
      ensures forall u :: u in r <==> u in users && Matches(u, searchTerm, filterAdmin)
    {
      FilteredUsers(users, searchTerm, filterAdmin)
    }
  }
}
