/**
 * The demo dashboard over the demo store: the role filter, the newest-first order of
 * the list, and the status badge.
 */
module DashboardDemo {
  import opened Wrappers
  import opened Text
  import opened MockContract

  datatype RoleFilter = All | AsClient | AsFreelancer

  /** `accounts?.[0]?.address?.toLowerCase()`. */
  function LowerAccount(account: Option<string>): Option<string> {
    match account
    case None => None
    case Some(a) => Some(ToLower(a))
  }

  /** The filter callback, with `user` the lower-cased account (None when no account is connected). */
  predicate Keeps(filter: RoleFilter, user: Option<string>, e: MockEscrow) {
    match filter
    case All => true
    case AsClient => user.Some? && ToLower(e.client) == user.value
    case AsFreelancer => user.Some? && ToLower(e.freelancer) == user.value
  }

  /** `Array.prototype.filter` with that callback: the records kept, in list order. */
  function FilterEscrows(s: seq<MockEscrow>, filter: RoleFilter, user: Option<string>): (r: seq<MockEscrow>)
    ensures |r| <= |s|
    ensures multiset(r) <= multiset(s)
    ensures forall x :: x in r <==> x in s && Keeps(filter, user, x)
    ensures filter == All ==> r == s
  {
    if s == [] then []
    else
      assert s == [s[0]] + s[1..];
      (if Keeps(filter, user, s[0]) then [s[0]] else []) + FilterEscrows(s[1..], filter, user)
  }

  /** In a list whose ids increase, the head's id is below that of every later record. */
  lemma HeadIdSmallest(s: seq<MockEscrow>)
    requires IdsIncreasing(s) && s != []
    ensures forall x :: x in s[1..] ==> s[0].id < x.id
  {
    forall x | x in s[1..] ensures s[0].id < x.id {
      var m :| 0 <= m < |s[1..]| && s[1..][m] == x;
      assert s[m + 1] == x;
    }
  }

  /** Putting in front a record whose id is below all others keeps the ids increasing. */
  lemma ConsIdsIncreasing(h: MockEscrow, rest: seq<MockEscrow>)
    requires IdsIncreasing(rest)
    requires forall x :: x in rest ==> h.id < x.id
    ensures IdsIncreasing([h] + rest)
  {
    var r := [h] + rest;
    forall i, j | 0 <= i < j < |r| ensures r[i].id < r[j].id {
      assert r[j] == rest[j - 1];
      if i > 0 {
        assert r[i] == rest[i - 1];
      } else {
        assert rest[j - 1] in rest;
      }
    }
  }

  /** Filtering keeps the list's order, so ids that increased along the list still do. */
  lemma {:induction false} FilterKeepsIdsIncreasing(s: seq<MockEscrow>, filter: RoleFilter, user: Option<string>)
    requires IdsIncreasing(s)
    ensures IdsIncreasing(FilterEscrows(s, filter, user))
  {
    if s != [] {
      var rest := FilterEscrows(s[1..], filter, user);
      FilterKeepsIdsIncreasing(s[1..], filter, user);
      if Keeps(filter, user, s[0]) {
        HeadIdSmallest(s);
        ConsIdsIncreasing(s[0], rest);
      }
    }
  }

  /** The filter callback on the lower-cased account is a case-insensitive match on the chosen role. */
  lemma KeepsIsAccountMatch(filter: RoleFilter, account: Option<string>, e: MockEscrow)
    ensures Keeps(filter, LowerAccount(account), e) <==>
      && (filter == AsClient ==> MatchesAccount(account, e.client))
      && (filter == AsFreelancer ==> MatchesAccount(account, e.freelancer))
  {
  }

  /** `Array.prototype.reverse`. */
  function Reverse(s: seq<MockEscrow>): (r: seq<MockEscrow>)
    ensures |r| == |s|
    ensures forall i :: 0 <= i < |s| ==> r[i] == s[|s| - 1 - i]
  {
    if s == [] then [] else Reverse(s[1..]) + [s[0]]
  }

  /** What `loadEscrows` puts on screen for `account`: the filtered records, reversed. */
  function Visible(all: seq<MockEscrow>, filter: RoleFilter, account: Option<string>): (r: seq<MockEscrow>)
    ensures |r| <= |all|
  {
    Reverse(FilterEscrows(all, filter, LowerAccount(account)))
  }

  /** Reversing keeps the same elements. */
  lemma ReverseSameElements(s: seq<MockEscrow>)
    ensures forall x :: x in Reverse(s) <==> x in s
  {
    var r := Reverse(s);
    forall x | x in s ensures x in r {
      var i :| 0 <= i < |s| && s[i] == x;
      assert r[|s| - 1 - i] == x;
    }
  }

  /**
   * The list shows exactly the records whose client (or freelancer, by the filter) equals
   * the account ignoring case; the "all" filter shows every record.
   */
  lemma VisibleMembers(all: seq<MockEscrow>, filter: RoleFilter, account: Option<string>)
    ensures forall x :: x in Visible(all, filter, account) <==> (x in all
      && (filter == AsClient ==> MatchesAccount(account, x.client))
      && (filter == AsFreelancer ==> MatchesAccount(account, x.freelancer)))
  {
    ReverseSameElements(FilterEscrows(all, filter, LowerAccount(account)));
    forall x ensures Keeps(filter, LowerAccount(account), x) <==>
      && (filter == AsClient ==> MatchesAccount(account, x.client))
      && (filter == AsFreelancer ==> MatchesAccount(account, x.freelancer))
    {
      KeepsIsAccountMatch(filter, account, x);
    }
  }

  /** Under "all" the list is the stored list, last record first. */
  lemma VisibleAllIsReversed(all: seq<MockEscrow>, account: Option<string>)
    ensures |Visible(all, All, account)| == |all|
    ensures forall i :: 0 <= i < |all| ==> Visible(all, All, account)[i] == all[|all| - 1 - i]
  {
  }

  /** On a store whose ids increase the shown ids strictly decrease, so the newest record leads. */
  lemma VisibleNewestFirst(all: seq<MockEscrow>, filter: RoleFilter, account: Option<string>)
    requires IdsIncreasing(all)
    ensures forall i, j :: 0 <= i < j < |Visible(all, filter, account)| ==>
      Visible(all, filter, account)[i].id > Visible(all, filter, account)[j].id
  {
    FilterKeepsIdsIncreasing(all, filter, LowerAccount(account));
  }

  datatype Badge = Badge(text: string, cssClass: string)

  const BADGES: seq<Badge> := [
    Badge("Active", "status-active"),
    Badge("Completed", "status-completed"),
    Badge("Disputed", "status-disputed"),
    Badge("Refunded", "status-refunded")]

  /** `getStatusBadge`: the badge of a demo status, or the Active badge for any other value. */
  function StatusBadge(status: int): (r: Badge)
    ensures IsMockStatus(status) ==> r == BADGES[status]
    ensures !IsMockStatus(status) ==> r == BADGES[ACTIVE]
  {
    if 0 <= status < |BADGES| then BADGES[status] else BADGES[0]
  }

  /** On a well-formed store the fallback is never used: every record gets its own status's badge. */
  lemma BadgesOfStoredRecords(s: seq<MockEscrow>, nextId: int, i: nat)
    requires StoreInvariant(s, nextId) && i < |s|
    ensures StatusBadge(s[i].status) == BADGES[s[i].status]
    ensures s[i].status != ACTIVE ==> StatusBadge(s[i].status) != BADGES[ACTIVE]
  {
  }

  /** The demo dashboard's state: the list shown, the selected filter and the connected account. */
  class DashboardDemoView {
    var escrows: seq<MockEscrow>
    var filter: RoleFilter
    var account: Option<string>

    /** Mounting: filter "all" and a first load. */
    constructor (acct: Option<string>, store: MockStore)
      ensures filter == All && account == acct
      ensures escrows == Visible(store.escrows, All, acct)
    {
      var all := store.GetAllEscrows();
      filter := All;
      account := acct;
      escrows := Visible(all, All, acct);
    }

    /** `loadEscrows`. */
    method LoadEscrows(store: MockStore)
      modifies this
      ensures filter == old(filter) && account == old(account)
      ensures escrows == Visible(store.escrows, filter, account)
    {
      var all := store.GetAllEscrows();
      escrows := Visible(all, filter, account);
    }

    /** Choosing a tab; the effect on `filter` reloads the list. */
    method SetFilter(f: RoleFilter, store: MockStore)
      modifies this
      ensures filter == f && account == old(account)
      ensures escrows == Visible(store.escrows, f, account)
    {
      filter := f;
      LoadEscrows(store);
    }

    /** A change of the connected account; the effect on `accounts` reloads the list. */
    method SetAccount(acct: Option<string>, store: MockStore)
      modifies this
      ensures account == acct && filter == old(filter)
      ensures escrows == Visible(store.escrows, filter, acct)
    {
      account := acct;
      LoadEscrows(store);
    }
  }
}
