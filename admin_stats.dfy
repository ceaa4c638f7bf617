/**
 * The admin statistics panel: the user counts, the two percentages and the
 * five most recent registrations.
 */
module AdminStats {
  import opened Sequences
  import opened Sorting
  import opened UserManagement

  /** At most this many recent registrations are listed. */
  const RecentCount: nat := 5

  datatype Stats = Stats(total: nat, pending: nat, approved: nat, rejected: nat, admins: nat, regular: nat)

  predicate HasStatus(u: UserRow, status: string) { u.userStatus == status }
  predicate HasRole(u: UserRow, role: string) { u.role == role }

  /** The `stats` object: the list length and one `filter().length` per status and role. */
  function StatsOf(users: seq<UserRow>): (r: Stats)
    ensures r.total == |users|
    ensures r.pending + r.approved + r.rejected <= r.total
    ensures r.admins + r.regular <= r.total
  {
    var pending, approved, rejected := (u: UserRow) => HasStatus(u, "pending"),
      (u: UserRow) => HasStatus(u, "approved"), (u: UserRow) => HasStatus(u, "rejected");
    var admins, regular := (u: UserRow) => HasRole(u, "admin"), (u: UserRow) => HasRole(u, "user");
    CountDisjoint3(users, pending, approved, rejected);
    CountDisjoint(users, admins, regular);
    Stats(|users|, Count(users, pending), Count(users, approved), Count(users, rejected),
          Count(users, admins), Count(users, regular))
  }

  /** The panel's counts are the ones the user list shows on its filter buttons. */
  lemma StatsMatchFilterButtons(users: seq<UserRow>)
    ensures var s, bs := StatsOf(users), FilterButtons(users);
      && s.total == bs[0].count && s.pending == bs[1].count && s.approved == bs[2].count
      && s.rejected == bs[3].count && s.admins == bs[4].count
  {
    FilterExt(users, (u: UserRow) => HasStatus(u, "pending"), (u: UserRow) => u.userStatus == "pending");
    FilterExt(users, (u: UserRow) => HasStatus(u, "approved"), (u: UserRow) => u.userStatus == "approved");
    FilterExt(users, (u: UserRow) => HasStatus(u, "rejected"), (u: UserRow) => u.userStatus == "rejected");
    FilterExt(users, (u: UserRow) => HasRole(u, "admin"), (u: UserRow) => u.role == "admin");
  }

  /**
   * `total > 0 ? Math.round((part / total) * 100) : 0`, in exact arithmetic:
   * the integer nearest to 100·part/total, halves rounded up.
   */
  function Percent(part: nat, total: nat): (r: nat)
    ensures total == 0 ==> r == 0
    ensures total > 0 ==> r * (2 * total) <= 200 * part + total < r * (2 * total) + 2 * total
  {
    if total == 0 then 0 else (200 * part + total) / (2 * total)
  }

  /** Cancelling a positive factor from a strict inequality. */
  lemma CancelFactor(a: int, b: int, c: int)
    requires c > 0 && a * c < b * c
    ensures a < b
  {
  }

  /** A share of the whole is a percentage between 0 and 100: none is 0 and all is 100. */
  lemma PercentBounds(part: nat, total: nat)
    requires part <= total
    ensures Percent(part, total) <= 100
    ensures part == 0 ==> Percent(part, total) == 0
    ensures part == total && total > 0 ==> Percent(part, total) == 100
  {
    if total > 0 {
      var r, t2 := Percent(part, total), 2 * total;
      assert r * t2 <= 200 * part + total < (r + 1) * t2;
      assert 200 * part + total < 101 * t2;
      CancelFactor(r, 101, t2);
      if part == 0 {
        CancelFactor(r, 1, t2);
      }
      if part == total {
        assert 100 * t2 < (r + 1) * t2;
        CancelFactor(100, r + 1, t2);
      }
    }
  }

  /** The approval rate and the admin ratio are percentages of the whole list. */
  lemma RatesArePercentages(users: seq<UserRow>)
    ensures var s := StatsOf(users);
      && Percent(s.approved, s.total) <= 100 && Percent(s.admins, s.total) <= 100
      && (users == [] ==> Percent(s.approved, s.total) == 0 && Percent(s.admins, s.total) == 0)
  {
    var s := StatsOf(users);
    PercentBounds(s.approved, s.total);
    PercentBounds(s.admins, s.total);
  }

  /** `new Date(b.created_at) - new Date(a.created_at)`: newest first is ascending order of this key. */
  function Age(u: UserRow): int
  {
    -u.createdAt
  }

  /**
   * `recentUsers`: `users.sort(...)` reorders the caller's array in place,
   * newest first (the sort is stable), and the first five are returned.
   */
  method RecentUsers(users: array<UserRow>) returns (recent: seq<UserRow>)
    modifies users
    ensures users[..] == SortBy(old(users[..]), Age)
    ensures recent == users[..if users.Length < RecentCount then users.Length else RecentCount]
    ensures recent == Newest(old(users[..]))
  {
    var sorted := SortBy(users[..], Age);
    for i := 0 to users.Length
      invariant users[..i] == sorted[..i]
      invariant users[i..] == old(users[i..])
    {
      users[i] := sorted[i];
      assert users[..i + 1] == sorted[..i + 1];
    }
    assert users[..] == users[..users.Length];
    var n := if users.Length < RecentCount then users.Length else RecentCount;
    recent := users[..n];
  }

  /** The newest users of a list, as `recentUsers` lists them. */
  function Newest(users: seq<UserRow>): (r: seq<UserRow>)
    ensures |r| == (if |users| < RecentCount then |users| else RecentCount)
    ensures multiset(r) <= multiset(users)
  {
    var sorted := SortBy(users, Age);
    var n := if |sorted| < RecentCount then |sorted| else RecentCount;
    SortedPrefix(sorted, n);
    sorted[..n]
  }

  /**
   * The recent list holds min(5, n) of the users, newest first, and no user
   * left off it registered later than one on it.
   */
  lemma NewestSpec(users: seq<UserRow>)
    ensures var r := Newest(users);
      && |r| == (if |users| < RecentCount then |users| else RecentCount)
      && multiset(r) <= multiset(users)
      && (forall i, j :: 0 <= i < j < |r| ==> r[i].createdAt >= r[j].createdAt)
      && (forall u :: u in multiset(users) - multiset(r) ==> forall i :: 0 <= i < |r| ==> u.createdAt <= r[i].createdAt)
  {
    var sorted := SortBy(users, Age);
    var n := if |sorted| < RecentCount then |sorted| else RecentCount;
    SortedPrefix(sorted, n);
  }

  /**
   * A prefix of a newest-first list is newest first, and whatever follows it
   * registered no later than anything in it.
   */
  lemma SortedPrefix(sorted: seq<UserRow>, n: nat)
    requires SortedBy(sorted, Age) && n <= |sorted|
    ensures multiset(sorted[..n]) <= multiset(sorted)
    ensures forall i, j :: 0 <= i < j < n ==> sorted[..n][i].createdAt >= sorted[..n][j].createdAt
    ensures forall u :: u in multiset(sorted) - multiset(sorted[..n]) ==>
      forall i :: 0 <= i < n ==> u.createdAt <= sorted[..n][i].createdAt
  {
    var r := sorted[..n];
    assert sorted == r + sorted[n..];
    assert multiset(sorted) == multiset(r) + multiset(sorted[n..]);
    forall i, j | 0 <= i < j < n ensures r[i].createdAt >= r[j].createdAt {
      assert Age(sorted[i]) <= Age(sorted[j]);
    }
    forall u | u in multiset(sorted) - multiset(r)
      ensures forall i :: 0 <= i < n ==> u.createdAt <= r[i].createdAt
    {
      assert u in multiset(sorted[n..]);
      var k :| n <= k < |sorted| && sorted[k] == u;
      forall i | 0 <= i < n ensures u.createdAt <= r[i].createdAt {
        assert Age(sorted[i]) <= Age(sorted[k]);
      }
    }
  }
}
