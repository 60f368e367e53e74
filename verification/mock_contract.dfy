/**
 * The demo escrow store: a list of escrow records and a next-id counter, kept by the
 * browser's local storage in the web app and by two fields here.
 */
module MockContract {
  import opened Wrappers

  // Status codes of the demo store (four states, unlike the five of the on-chain ABI).
  const ACTIVE := 0
  const COMPLETED := 1
  const DISPUTED := 2
  const REFUNDED := 3

  datatype MockEscrow = MockEscrow(
    id: int,
    client: string,
    freelancer: string,
    amount: string,
    description: string,
    deadline: int,
    status: int,
    createdAt: int)

  predicate IsMockStatus(status: int) {
    ACTIVE <= status <= REFUNDED
  }

  predicate IdsIncreasing(s: seq<MockEscrow>) {
    forall i, j :: 0 <= i < j < |s| ==> s[i].id < s[j].id
  }

  /**
   * What the store's operations keep true of the list and the counter: ids strictly
   * increase along the list, lie in [1, nextId), and every status is one of the four.
   */
  predicate StoreInvariant(s: seq<MockEscrow>, nextId: int) {
    && 1 <= nextId
    && IdsIncreasing(s)
    && forall i :: 0 <= i < |s| ==> 1 <= s[i].id < nextId && IsMockStatus(s[i].status)
  }

  /** The position `Array.prototype.find` stops at when looking for `id`. */
  function FirstIndex(s: seq<MockEscrow>, id: int): (r: Option<nat>)
    ensures r.Some? ==> r.value < |s| && s[r.value].id == id
    ensures r.Some? ==> forall j :: 0 <= j < r.value ==> s[j].id != id
    ensures r.None? <==> forall j :: 0 <= j < |s| ==> s[j].id != id
  {
    if |s| == 0 then None
    else if s[0].id == id then Some(0)
    else
      match FirstIndex(s[1..], id)
      case None => None
      case Some(k) => Some(k + 1)
  }

  /** `getEscrow(id)`: the record found, or `undefined` (None). */
  function Lookup(s: seq<MockEscrow>, id: int): (r: Option<MockEscrow>)
    ensures r.Some? ==> r.value in s && r.value.id == id
    ensures r.None? <==> forall j :: 0 <= j < |s| ==> s[j].id != id
  {
    match FirstIndex(s, id)
    case None => None
    case Some(k) => Some(s[k])
  }

  /** With increasing ids a record is the only one carrying its id, so `find` returns it. */
  lemma FirstIndexUnique(s: seq<MockEscrow>, i: nat)
    requires IdsIncreasing(s) && i < |s|
    ensures FirstIndex(s, s[i].id) == Some(i)
  {
  }

  /** The three status transitions: release, dispute, and refund at clock reading `now`. */
  datatype Transition = Release | Dispute | Refund(now: int)

  function Target(t: Transition): int {
    match t
    case Release => COMPLETED
    case Dispute => DISPUTED
    case Refund(_) => REFUNDED
  }

  /** A transition applies only to an Active record; a refund also needs `now > deadline`. */
  predicate Enabled(t: Transition, e: MockEscrow) {
    e.status == ACTIVE && (t.Refund? ==> t.now > e.deadline)
  }

  /** The list after `releaseFunds`, `raiseDispute` or `refundAfterDeadline` for `id`. */
  function Apply(s: seq<MockEscrow>, id: int, t: Transition): (r: seq<MockEscrow>)
    ensures |r| == |s|
    ensures forall i :: 0 <= i < |s| ==>
      r[i] == s[i] || (s[i].id == id && Enabled(t, s[i]) && r[i] == s[i].(status := Target(t)))
  {
    match FirstIndex(s, id)
    case None => s
    case Some(k) => if Enabled(t, s[k]) then s[k := s[k].(status := Target(t))] else s
  }

  /**
   * On a well-formed list a transition rewrites the status of the one record carrying
   * `id`, when it is enabled there, and leaves every other record and the length alone.
   */
  lemma ApplyPointwise(s: seq<MockEscrow>, id: int, t: Transition)
    requires IdsIncreasing(s)
    ensures |Apply(s, id, t)| == |s|
    ensures forall i :: 0 <= i < |s| ==>
      Apply(s, id, t)[i] == if s[i].id == id && Enabled(t, s[i]) then s[i].(status := Target(t)) else s[i]
  {
    forall i | 0 <= i < |s| && s[i].id == id
      ensures FirstIndex(s, id) == Some(i)
    {
      FirstIndexUnique(s, i);
    }
  }

  /** A transition changes the list exactly when the record exists and is enabled. */
  lemma ApplyChangesIff(s: seq<MockEscrow>, id: int, t: Transition)
    ensures Apply(s, id, t) != s <==> Lookup(s, id).Some? && Enabled(t, Lookup(s, id).value)
  {
    match FirstIndex(s, id)
    case None =>
    case Some(k) =>
      if Enabled(t, s[k]) {
        assert Apply(s, id, t)[k].status != s[k].status;
      }
  }

  /** Reading `id` back after a transition shows the new status; other ids read the same. */
  lemma LookupAfterApply(s: seq<MockEscrow>, id: int, t: Transition, other: int)
    requires IdsIncreasing(s)
    ensures Lookup(Apply(s, id, t), id) ==
      match Lookup(s, id)
      case None => None
      case Some(e) => Some(if Enabled(t, e) then e.(status := Target(t)) else e)
    ensures other != id ==> Lookup(Apply(s, id, t), other) == Lookup(s, other)
  {
    ApplyPointwise(s, id, t);
    var s' := Apply(s, id, t);
    assert IdsIncreasing(s');
    match FirstIndex(s, id)
    case None =>
    case Some(k) =>
      FirstIndexUnique(s', k);
    match FirstIndex(s, other)
    case None =>
    case Some(k) =>
      FirstIndexUnique(s', k);
  }

  /** Transitions keep the store invariant: they never touch ids, and targets are valid statuses. */
  lemma ApplyKeepsInvariant(s: seq<MockEscrow>, nextId: int, id: int, t: Transition)
    requires StoreInvariant(s, nextId)
    ensures StoreInvariant(Apply(s, id, t), nextId)
  {
    ApplyPointwise(s, id, t);
  }

  /**
   * Completed, Disputed and Refunded are absorbing: once a transition has changed the
   * record, no later transition on the same id changes anything.
   */
  lemma SecondTransitionIsNoOp(s: seq<MockEscrow>, id: int, t: Transition, u: Transition)
    requires IdsIncreasing(s)
    requires Apply(s, id, t) != s
    ensures Apply(Apply(s, id, t), id, u) == Apply(s, id, t)
  {
    ApplyChangesIff(s, id, t);
    LookupAfterApply(s, id, t, id);
    ApplyChangesIff(Apply(s, id, t), id, u);
  }

  /** A refund at or before the deadline leaves the list as it is. */
  lemma RefundNotBeforeDeadline(s: seq<MockEscrow>, id: int, now: int)
    requires Lookup(s, id).Some? && now <= Lookup(s, id).value.deadline
    ensures Apply(s, id, Refund(now)) == s
  {
    ApplyChangesIff(s, id, Refund(now));
  }

  /**
   * Appending a record with the current counter as id keeps the invariant with the
   * counter bumped, makes the new record the one `getEscrow` finds, and changes no
   * other lookup.
   */
  lemma CreateKeepsInvariant(s: seq<MockEscrow>, nextId: int, e: MockEscrow, other: int)
    requires StoreInvariant(s, nextId)
    requires e.id == nextId && e.status == ACTIVE
    ensures StoreInvariant(s + [e], nextId + 1)
    ensures Lookup(s + [e], nextId) == Some(e)
    ensures other != nextId ==> Lookup(s + [e], other) == Lookup(s, other)
  {
    var s' := s + [e];
    assert IdsIncreasing(s');
    FirstIndexUnique(s', |s|);
    match FirstIndex(s, other)
    case None =>
      assert forall j :: 0 <= j < |s'| ==> s'[j].id != other || j == |s|;
    case Some(k) =>
      assert s'[k] == s[k];
      FirstIndexUnique(s', k);
  }

  /** The store. Records are values: a read hands out a copy, as the JSON round trip does. */
  class MockStore {
    // The list stored under the escrows key; [] when the key is absent.
    var escrows: seq<MockEscrow>
    // The counter stored under the next-id key, if any.
    var storedNextId: Option<int>

    /** `getNextId()`: the stored counter, or 1 when none is stored. */
    function NextId(): int
      reads this
    {
      storedNextId.GetOr(1)
    }

    predicate Valid()
      reads this
    {
      StoreInvariant(escrows, NextId())
    }

    /** A store whose keys are both absent. */
    constructor ()
      ensures Valid()
      ensures escrows == [] && storedNextId == None && NextId() == 1
    {
      escrows := [];
      storedNextId := None;
    }

    /** `createEscrow`: append a record numbered with the counter, then bump the counter. */
    method CreateEscrow(freelancer: string, amount: string, description: string, deadline: int,
                        client: string, now: int) returns (e: MockEscrow)
      modifies this
      ensures e == MockEscrow(old(NextId()), client, freelancer, amount, description, deadline, ACTIVE, now)
      ensures escrows == old(escrows) + [e]
      ensures storedNextId == Some(old(NextId()) + 1)
      ensures old(Valid()) ==> Valid() && Lookup(escrows, e.id) == Some(e)
    {
      var id := NextId();
      e := MockEscrow(id, client, freelancer, amount, description, deadline, ACTIVE, now);
      if Valid() {
        CreateKeepsInvariant(escrows, id, e, id);
      }
      escrows := escrows + [e];
      storedNextId := Some(id + 1);
    }

    /** `getAllEscrows`. */
    method GetAllEscrows() returns (all: seq<MockEscrow>)
      ensures all == escrows
    {
      all := escrows;
    }

    /** The `find` scan: the position of the first record carrying `id`. */
    method Find(id: int) returns (k: Option<nat>)
      ensures k == FirstIndex(escrows, id)
    {
      var i := 0;
      while i < |escrows|
        invariant 0 <= i <= |escrows|
        invariant forall j :: 0 <= j < i ==> escrows[j].id != id
      {
        if escrows[i].id == id {
          return Some(i);
        }
        i := i + 1;
      }
      return None;
    }

    /** `getEscrow(id)`. */
    method GetEscrow(id: int) returns (r: Option<MockEscrow>)
      ensures r == Lookup(escrows, id)
    {
      var k := Find(id);
      r := if k.Some? then Some(escrows[k.value]) else None;
    }

    /** The shared shape of the three transitions: find the record, check the guard, rewrite its status. */
    method Transit(id: int, t: Transition)
      modifies this
      ensures old(Valid()) ==> Valid()
      ensures escrows == Apply(old(escrows), id, t)
      ensures storedNextId == old(storedNextId)
    {
      if Valid() {
        ApplyKeepsInvariant(escrows, NextId(), id, t);
      }
      var k := Find(id);
      if k.Some? && Enabled(t, escrows[k.value]) {
        escrows := escrows[k.value := escrows[k.value].(status := Target(t))];
      }
    }

    /** `releaseFunds(id)`: Active becomes Completed; anything else is left as it is. */
    method ReleaseFunds(id: int)
      modifies this
      ensures old(Valid()) ==> Valid()
      ensures escrows == Apply(old(escrows), id, Release)
      ensures storedNextId == old(storedNextId)
    {
      Transit(id, Release);
    }

    /** `raiseDispute(id)`: Active becomes Disputed; anything else is left as it is. */
    method RaiseDispute(id: int)
      modifies this
      ensures old(Valid()) ==> Valid()
      ensures escrows == Apply(old(escrows), id, Dispute)
      ensures storedNextId == old(storedNextId)
    {
      Transit(id, Dispute);
    }

    /** `refundAfterDeadline(id)` at clock reading `now`: Active becomes Refunded once `now > deadline`. */
    method RefundAfterDeadline(id: int, now: int)
      modifies this
      ensures old(Valid()) ==> Valid()
      ensures escrows == Apply(old(escrows), id, Refund(now))
      ensures storedNextId == old(storedNextId)
    {
      Transit(id, Refund(now));
    }

    /** `clearAll`: both keys removed, so the list reads empty and the next id is 1 again. */
    method ClearAll()
      modifies this
      ensures Valid()
      ensures escrows == [] && storedNextId == None && NextId() == 1
    {
      escrows := [];
      storedNextId := None;
    }
  }
}
