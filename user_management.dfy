/**
 * The admin user list: the status and role filters, the status badges and
 * the counts shown on the filter buttons.
 */
module UserManagement {
  import opened Sequences

  /**
   * A user row as the admin views receive it.  A missing status or role is
   * the empty string, which no filter or badge matches, just as `undefined`.
   */
  datatype UserRow = UserRow(id: string, email: string, fullName: string,
                             userStatus: string, role: string, createdAt: int)

  /** The filters the buttons set; any other value keeps every user. */
  const FilterNames := ["all", "pending", "approved", "rejected", "admins"]

  predicate IsStatusFilter(filter: string)
  {
    filter == "pending" || filter == "approved" || filter == "rejected"
  }

  /** The callback of `users.filter(...)` for the current filter. */
  predicate Keeps(filter: string, u: UserRow)
  {
    if filter == "all" then true
    else if IsStatusFilter(filter) then u.userStatus == filter
    else if filter == "admins" then u.role == "admin"
    else true
  }

  function FilteredUsers(users: seq<UserRow>, filter: string): (r: seq<UserRow>)
    ensures |r| <= |users|
    ensures forall u :: u in r ==> u in users && Keeps(filter, u)
  {
    Filter(users, u => Keeps(filter, u))
  }

  /**
   * "all" and any unrecognised filter keep the whole list; a status filter
   * keeps exactly the users with that status and "admins" exactly the
   * admins; the order of the list is kept.
   */
  lemma FilteredUsersSpec(users: seq<UserRow>, filter: string)
    ensures !IsStatusFilter(filter) && filter != "admins" ==> FilteredUsers(users, filter) == users
    ensures IsStatusFilter(filter) ==>
      forall u :: u in FilteredUsers(users, filter) <==> u in users && u.userStatus == filter
    ensures filter == "admins" ==>
      forall u :: u in FilteredUsers(users, filter) <==> u in users && u.role == "admin"
    ensures IsSubsequence(FilteredUsers(users, filter), users)
  {
    if !IsStatusFilter(filter) && filter != "admins" {
      FilterAll(users, u => Keeps(filter, u));
    }
    FilterIsSubsequence(users, u => Keeps(filter, u));
  }

  /** A filter button: the filter it sets and the count on its label. */
  datatype FilterButton = FilterButton(filter: string, count: nat)

  /** The five buttons, each counted by its own `users.filter(...).length`. */
  function FilterButtons(users: seq<UserRow>): (r: seq<FilterButton>)
    ensures |r| == |FilterNames|
    ensures forall i :: 0 <= i < |r| ==> r[i].filter == FilterNames[i]
  {
    [ FilterButton("all", |users|),
      FilterButton("pending", Count(users, (u: UserRow) => u.userStatus == "pending")),
      FilterButton("approved", Count(users, (u: UserRow) => u.userStatus == "approved")),
      FilterButton("rejected", Count(users, (u: UserRow) => u.userStatus == "rejected")),
      FilterButton("admins", Count(users, (u: UserRow) => u.role == "admin")) ]
  }

  /** Each button's count is the length of the list its filter shows. */
  lemma ButtonCountsMatch(users: seq<UserRow>)
    ensures var bs := FilterButtons(users);
      forall i :: 0 <= i < |bs| ==> bs[i].count == |FilteredUsers(users, bs[i].filter)|
  {
    var bs := FilterButtons(users);
    forall i | 0 <= i < |bs| ensures bs[i].count == |FilteredUsers(users, bs[i].filter)| {
      if i == 0 {
        FilterAll(users, u => Keeps("all", u));
      } else if i == 1 {
        CountMatchesFilter(users, (u: UserRow) => u.userStatus == "pending", "pending");
      } else if i == 2 {
        CountMatchesFilter(users, (u: UserRow) => u.userStatus == "approved", "approved");
      } else if i == 3 {
        CountMatchesFilter(users, (u: UserRow) => u.userStatus == "rejected", "rejected");
      } else {
        CountMatchesFilter(users, (u: UserRow) => u.role == "admin", "admins");
      }
    }
  }

  /** A count taken with a callback that agrees with a filter is that filter's length. */
  lemma CountMatchesFilter(users: seq<UserRow>, p: UserRow -> bool, filter: string)
    requires forall i :: 0 <= i < |users| ==> p(users[i]) == Keeps(filter, users[i])
    ensures Count(users, p) == |FilteredUsers(users, filter)|
  {
    FilterExt(users, p, u => Keeps(filter, u));
  }

  datatype Badge = Badge(emoji: string, className: string)

  const UnknownBadge := Badge("❓", "status-unknown")

  /** `getStatusBadge(status)`: the badge for a known status, else the unknown one. */
  function StatusBadge(status: string): (b: Badge)
    ensures b == UnknownBadge || b.className == "status-" + status
    ensures b != UnknownBadge ==> IsStatusFilter(status)
  {
    if status == "pending" then Badge("⏳", "status-pending")
    else if status == "approved" then Badge("✅", "status-approved")
    else if status == "rejected" then Badge("❌", "status-rejected")
    else UnknownBadge
  }

  /** Exactly the three known statuses get their own badge, whose class names the status. */
  lemma StatusBadgeSpec(status: string)
    ensures StatusBadge(status) == UnknownBadge <==> !IsStatusFilter(status)
    ensures IsStatusFilter(status) ==> StatusBadge(status).className == "status-" + status
  {
  }
}
