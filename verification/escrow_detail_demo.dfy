/**
 * The demo escrow page over the demo store: the deadline flag, the status text, which
 * action buttons the viewer sees, and the three handlers that run one store transition
 * and read the record back.
 */
module EscrowDetailDemo {
  import opened Wrappers
  import opened Text
  import opened MockContract
  import DashboardDemo

  /** `Date.now() > escrow.deadline`: strictly after the deadline, both in milliseconds. */
  predicate IsPastDeadline(now: int, deadline: int) {
    now > deadline
  }

  /**
   * The page's deadline flag is the store's refund guard: on an Active record the flag
   * holds exactly when a refund at that clock reading goes through, and it stays that way
   * at any later reading, such as the one the store takes once the handler runs.
   */
  lemma PastDeadlineIsRefundGuard(e: MockEscrow, now: int, later: int)
    requires e.status == ACTIVE
    ensures IsPastDeadline(now, e.deadline) <==> Enabled(Refund(now), e)
    ensures IsPastDeadline(now, e.deadline) && later >= now ==> Enabled(Refund(later), e)
  {
  }

  const STATUS_TEXTS: seq<string> := ["Active", "Completed", "Disputed", "Refunded"]

  /** `statusText`: the label of a demo status; indexing past the table gives `undefined` (None). */
  function StatusText(status: int): (r: Option<string>)
    ensures r.Some? <==> IsMockStatus(status)
    ensures r.Some? ==> r.value == DashboardDemo.StatusBadge(status).text
  {
    if 0 <= status < |STATUS_TEXTS| then Some(STATUS_TEXTS[status]) else None
  }

  /** Every record of a well-formed store has a status text. */
  lemma StatusTextOfStoredRecords(s: seq<MockEscrow>, nextId: int, i: nat)
    requires StoreInvariant(s, nextId) && i < |s|
    ensures StatusText(s[i].status).Some?
  {
  }

  datatype DemoButton = ReleaseButton | DisputeButton | RefundButton

  /**
   * The action panel, in display order: nothing unless the record is Active; then release
   * and dispute for the client, dispute for the freelancer, and refund for the client once
   * past the deadline. A viewer who is both client and freelancer sees two dispute buttons.
   */
  function Buttons(status: int, isClient: bool, isFreelancer: bool, pastDeadline: bool): (r: seq<DemoButton>)
    ensures ReleaseButton in r <==> status == ACTIVE && isClient
    ensures DisputeButton in r <==> status == ACTIVE && (isClient || isFreelancer)
    ensures RefundButton in r <==> status == ACTIVE && isClient && pastDeadline
    ensures multiset(r)[DisputeButton] ==
      if status == ACTIVE then (if isClient then 1 else 0) + (if isFreelancer then 1 else 0) else 0
    ensures r == [] <==> status != ACTIVE || (!isClient && !isFreelancer)
  {
    if status == ACTIVE then
      (if isClient then [ReleaseButton, DisputeButton] else [])
      + (if isFreelancer then [DisputeButton] else [])
      + (if isClient && pastDeadline then [RefundButton] else [])
    else []
  }

  /** The buttons `account` sees on record `e` at clock reading `now`; roles compare addresses ignoring case. */
  function ShownButtons(account: Option<string>, e: MockEscrow, now: int): (r: seq<DemoButton>)
    ensures r != [] <==> e.status == ACTIVE && (MatchesAccount(account, e.client) || MatchesAccount(account, e.freelancer))
    ensures RefundButton in r ==> MatchesAccount(account, e.client) && IsPastDeadline(now, e.deadline)
  {
    Buttons(e.status, MatchesAccount(account, e.client), MatchesAccount(account, e.freelancer),
      IsPastDeadline(now, e.deadline))
  }

  /** The store transition a button's handler runs, at the clock reading the store takes. */
  function ButtonTransition(b: DemoButton, now: int): Transition {
    match b
    case ReleaseButton => Release
    case DisputeButton => Dispute
    case RefundButton => Refund(now)
  }

  /**
   * A button is shown only to a viewer allowed to press it, and only when the store will
   * carry its transition out on the record shown, even at a later clock reading. Release
   * and refund go to the client only; dispute to the client or the freelancer.
   */
  lemma ShownButtonsAreEnabled(account: Option<string>, e: MockEscrow, now: int, later: int, b: DemoButton)
    requires b in ShownButtons(account, e, now) && later >= now
    ensures Enabled(ButtonTransition(b, later), e)
    ensures b != DisputeButton ==> MatchesAccount(account, e.client)
    ensures b == DisputeButton ==> MatchesAccount(account, e.client) || MatchesAccount(account, e.freelancer)
  {
    if b == RefundButton {
      PastDeadlineIsRefundGuard(e, now, later);
    }
  }

  /**
   * Once a transition has gone through on a record, reading it back shows it in its new
   * status and the panel is empty for every viewer at every clock reading.
   */
  lemma PanelGoneAfterAction(s: seq<MockEscrow>, id: int, t: Transition, account: Option<string>, now: int)
    requires IdsIncreasing(s)
    requires Lookup(s, id).Some? && Enabled(t, Lookup(s, id).value)
    ensures Lookup(Apply(s, id, t), id).Some?
    ensures Lookup(Apply(s, id, t), id).value.status == Target(t) != ACTIVE
    ensures ShownButtons(account, Lookup(Apply(s, id, t), id).value, now) == []
  {
    LookupAfterApply(s, id, t, id);
  }

  /** The demo page for one escrow id: the record read from the store and the processing flag. */
  class EscrowDetailDemo {
    const escrowId: int
    var escrow: Option<MockEscrow>
    var isProcessing: bool

    /** Mounting: the first `loadEscrow`. */
    constructor (id: int, store: MockStore)
      ensures escrowId == id && escrow == Lookup(store.escrows, id) && !isProcessing
    {
      var read := store.GetEscrow(id);
      escrowId := id;
      escrow := read;
      isProcessing := false;
    }

    /** `loadEscrow`: read the record again; a missing one shows "Escrow not found". */
    method LoadEscrow(store: MockStore)
      modifies this
      ensures escrow == Lookup(store.escrows, escrowId) && isProcessing == old(isProcessing)
    {
      escrow := store.GetEscrow(escrowId);
    }

    /** `handleRelease`: one release on this id, then a reload. */
    method HandleRelease(store: MockStore)
      requires !isProcessing
      modifies this, store
      ensures store.escrows == Apply(old(store.escrows), escrowId, Release)
      ensures store.storedNextId == old(store.storedNextId)
      ensures old(store.Valid()) ==> store.Valid()
      ensures escrow == Lookup(store.escrows, escrowId) && !isProcessing
    {
      isProcessing := true;
      store.ReleaseFunds(escrowId);
      LoadEscrow(store);
      isProcessing := false;
    }

    /** `handleDispute`: one dispute on this id, then a reload. */
    method HandleDispute(store: MockStore)
      requires !isProcessing
      modifies this, store
      ensures store.escrows == Apply(old(store.escrows), escrowId, Dispute)
      ensures store.storedNextId == old(store.storedNextId)
      ensures old(store.Valid()) ==> store.Valid()
      ensures escrow == Lookup(store.escrows, escrowId) && !isProcessing
    {
      isProcessing := true;
      store.RaiseDispute(escrowId);
      LoadEscrow(store);
      isProcessing := false;
    }

    /** `handleRefund`, with `now` the clock reading the store takes. */
    method HandleRefund(store: MockStore, now: int)
      requires !isProcessing
      modifies this, store
      ensures store.escrows == Apply(old(store.escrows), escrowId, Refund(now))
      ensures store.storedNextId == old(store.storedNextId)
      ensures old(store.Valid()) ==> store.Valid()
      ensures escrow == Lookup(store.escrows, escrowId) && !isProcessing
    {
      isProcessing := true;
      store.RefundAfterDeadline(escrowId, now);
      LoadEscrow(store);
      isProcessing := false;
    }
  }
}
