/**
 * The on-chain escrow page: which actions it offers for a record, and the step machine
 * idle → finalize → sign → broadcast → done that submits the chosen action through the
 * bridge SDK. Status codes follow the contract ABI's five-state numbering.
 */
module EscrowDetail {
  import opened Wrappers
  import opened Text
  import TxFlow

  // Status codes of the contract ABI.
  const PENDING := 0
  const ACTIVE := 1
  const RELEASED := 2
  const DISPUTED := 3
  const REFUNDED := 4

  /** A record as `getEscrow` returns it; `deadline` and `createdAt` are in seconds. */
  datatype ChainEscrow = ChainEscrow(
    client: string,
    freelancer: string,
    amount: int,
    description: string,
    deadline: int,
    createdAt: int,
    status: int)

  datatype TxStep = Idle | Finalize | Sign | Broadcast | Done

  datatype ActionType = Release | Dispute | Refund

  /** `deadline < new Date()`: the deadline, in seconds, lies strictly before `nowMs`. */
  predicate DeadlinePassed(deadline: int, nowMs: int) {
    deadline * 1000 < nowMs
  }

  /** Position of a step along the flow. */
  function Rank(step: TxStep): nat {
    match step
    case Idle => 0
    case Finalize => 1
    case Sign => 2
    case Broadcast => 3
    case Done => 4
  }

  predicate IsFinalizeDone(step: TxStep) {
    step in [Sign, Broadcast, Done]
  }

  predicate IsSignDone(step: TxStep) {
    step in [Broadcast, Done]
  }

  predicate IsBroadcastDone(step: TxStep) {
    step == Done
  }

  /**
   * The progress flags are nested, and each says that the flow has gone past its step:
   * finalize-done means beyond finalize, and so on.
   */
  lemma DoneFlagsNested(step: TxStep)
    ensures IsBroadcastDone(step) ==> IsSignDone(step)
    ensures IsSignDone(step) ==> IsFinalizeDone(step)
    ensures IsFinalizeDone(step) <==> Rank(step) > Rank(Finalize)
    ensures IsSignDone(step) <==> Rank(step) > Rank(Sign)
    ensures IsBroadcastDone(step) <==> Rank(step) > Rank(Broadcast)
  {
  }

  /** `disabled={loading || !isXActive}`, negated: the button for `button` can be pressed. */
  predicate StepButtonEnabled(current: TxStep, button: TxStep, loading: bool) {
    !(loading || current != button)
  }

  /** At most one step button can be pressed, that of the current step, and none while loading. */
  lemma OneStepButtonAtATime(current: TxStep, b1: TxStep, b2: TxStep, loading: bool)
    ensures StepButtonEnabled(current, b1, loading) <==> b1 == current && !loading
    ensures StepButtonEnabled(current, b1, loading) && StepButtonEnabled(current, b2, loading) ==> b1 == b2
  {
  }

  /**
   * The action panel, in display order: shown only while idle on an ACTIVE record;
   * release for the client, refund for the client once the deadline has passed, and
   * dispute for anyone viewing.
   */
  function ActionButtons(step: TxStep, status: int, isClient: bool, deadlinePassed: bool): (r: seq<ActionType>)
    ensures Release in r <==> step == Idle && status == ACTIVE && isClient
    ensures Refund in r <==> step == Idle && status == ACTIVE && isClient && deadlinePassed
    ensures Dispute in r <==> step == Idle && status == ACTIVE
    ensures r != [] <==> step == Idle && status == ACTIVE
    ensures |r| <= 3
  {
    if step == Idle && status == ACTIVE then
      (if isClient then [Release] + (if deadlinePassed then [Refund] else []) else []) + [Dispute]
    else []
  }

  /** The actions the page offers `account` on record `e` at clock reading `nowMs`. */
  function OfferedActions(step: TxStep, account: Option<string>, e: ChainEscrow, nowMs: int): (r: seq<ActionType>)
    ensures r != [] <==> step == Idle && e.status == ACTIVE
    ensures Release in r ==> MatchesAccount(account, e.client)
    ensures Refund in r ==> MatchesAccount(account, e.client) && DeadlinePassed(e.deadline, nowMs)
  {
    ActionButtons(step, e.status, MatchesAccount(account, e.client), DeadlinePassed(e.deadline, nowMs))
  }

  /** Nobody but the client, compared ignoring case, is offered release or refund. */
  lemma OnlyClientReleasesOrRefunds(step: TxStep, account: Option<string>, e: ChainEscrow, nowMs: int)
    ensures Release in OfferedActions(step, account, e, nowMs) ==>
      account.Some? && ToLower(account.value) == ToLower(e.client)
    ensures Refund in OfferedActions(step, account, e, nowMs) ==>
      account.Some? && ToLower(account.value) == ToLower(e.client) && e.deadline * 1000 < nowMs
  {
  }

  /** The contract call each action queues. */
  function ActionCall(kind: ActionType, escrowId: int): TxFlow.Call {
    match kind
    case Release => TxFlow.ReleaseFundsCall(escrowId)
    case Dispute => TxFlow.RaiseDisputeCall(escrowId)
    case Refund => TxFlow.RefundAfterDeadlineCall(escrowId)
  }

  class EscrowDetail {
    const escrowId: int
    var escrow: Option<ChainEscrow>
    var txStep: TxStep
    var actionType: Option<ActionType>
    var loading: bool
    var error: Option<string>
    var txHash: Option<string>
    // State held by the SDK hooks: the intention queue, the finalized transaction, and
    // the transaction id a confirmation watcher was registered for.
    var intentions: seq<TxFlow.Intention>
    var btcTx: Option<TxFlow.BtcTx>
    var awaiting: Option<string>

    /** The page for `id` after its first read, over whatever the SDK hooks currently hold. */
    constructor (id: int, read: Option<ChainEscrow>, queue: seq<TxFlow.Intention>, finalized: Option<TxFlow.BtcTx>)
      ensures escrowId == id && escrow == read
      ensures txStep == Idle && actionType == None && !loading && error == None && txHash == None
      ensures intentions == queue && btcTx == finalized && awaiting == None
    {
      escrowId := id;
      escrow := read;
      txStep := Idle;
      actionType := None;
      loading := false;
      error := None;
      txHash := None;
      intentions := queue;
      btcTx := finalized;
      awaiting := None;
    }

    /** `initAction`: queue the chosen call (replacing the queue) and move to finalize. */
    method InitAction(kind: ActionType, added: Result<(), string>)
      requires txStep == Idle && !loading
      modifies this
      ensures actionType == Some(kind) && !loading
      ensures escrow == old(escrow) && txHash == old(txHash) && btcTx == old(btcTx) && awaiting == old(awaiting)
      ensures added.Ok? ==>
        txStep == Finalize && error == None && intentions == [TxFlow.Intention(ActionCall(kind, escrowId), false)]
      ensures added.Err? ==> txStep == Idle && error == Some(added.error) && intentions == old(intentions)
    {
      actionType := Some(kind);
      loading := true;
      error := None;
      if added.Ok? {
        intentions := [TxFlow.Intention(ActionCall(kind, escrowId), false)];
        txStep := Finalize;
      } else {
        error := Some(added.error);
      }
      loading := false;
    }

    /** `handleFinalize`, with `outcome` the SDK's finalized transaction or its error. */
    method HandleFinalize(outcome: Result<TxFlow.BtcTx, string>)
      requires StepButtonEnabled(txStep, Finalize, loading)
      modifies this
      ensures !loading && actionType == old(actionType) && escrow == old(escrow)
      ensures txHash == old(txHash) && intentions == old(intentions) && awaiting == old(awaiting)
      ensures outcome.Ok? ==> txStep == Sign && btcTx == Some(outcome.value) && error == None
      ensures outcome.Err? ==> txStep == Finalize && btcTx == old(btcTx) && error == Some(outcome.error)
    {
      loading := true;
      error := None;
      if outcome.Ok? {
        btcTx := Some(outcome.value);
        txStep := Sign;
      } else {
        error := Some(outcome.error);
      }
      loading := false;
    }

    /** `handleSign`; without a finalized transaction it does nothing at all. */
    method HandleSign(wallet: nat -> Result<(), string>)
      requires StepButtonEnabled(txStep, Sign, loading)
      modifies this
      ensures !loading && actionType == old(actionType) && escrow == old(escrow)
      ensures txHash == old(txHash) && btcTx == old(btcTx) && awaiting == old(awaiting)
      ensures btcTx.None? ==> txStep == Sign && error == old(error) && intentions == old(intentions)
      ensures |intentions| == |old(intentions)|
      ensures forall i :: 0 <= i < |intentions| ==> intentions[i].call == old(intentions)[i].call
      ensures btcTx.Some? ==> forall i :: 0 <= i < |intentions| ==>
        (intentions[i].signed <==> old(intentions)[i].signed || TxFlow.ApprovedUpTo(wallet, i + 1))
      ensures txStep == Broadcast <==> btcTx.Some? && TxFlow.ApprovedUpTo(wallet, |intentions|)
      ensures txStep == Broadcast ==> error == None
      ensures btcTx.Some? && txStep != Broadcast ==> txStep == Sign && error.Some?
      ensures btcTx.Some? && txStep != Broadcast ==>
        exists j: nat :: j < |intentions| && TxFlow.ApprovedUpTo(wallet, j) && wallet(j) == Err(error.value)
    {
      if btcTx.None? {
        return;
      }
      loading := true;
      error := None;
      var signed, failure := TxFlow.SignAll(intentions, wallet);
      intentions := signed;
      if failure.None? {
        txStep := Broadcast;
      } else {
        error := Some(failure.value);
      }
      loading := false;
    }

    /**
     * `handleBroadcast`; without a finalized transaction or a public client it does
     * nothing at all. Success records the transaction id and registers the watcher;
     * the step stays at broadcast either way.
     */
    method HandleBroadcast(clientAvailable: bool, sent: Result<(), string>)
      requires StepButtonEnabled(txStep, Broadcast, loading)
      modifies this
      ensures !loading && txStep == Broadcast
      ensures actionType == old(actionType) && escrow == old(escrow)
      ensures intentions == old(intentions) && btcTx == old(btcTx)
      ensures (btcTx.None? || !clientAvailable) ==>
        error == old(error) && txHash == old(txHash) && awaiting == old(awaiting)
      ensures btcTx.Some? && clientAvailable && sent.Ok? ==>
        error == None && txHash == Some(btcTx.value.id) && awaiting == Some(btcTx.value.id)
      ensures btcTx.Some? && clientAvailable && sent.Err? ==>
        error == Some(sent.error) && txHash == old(txHash) && awaiting == old(awaiting)
    {
      if btcTx.None? || !clientAvailable {
        return;
      }
      loading := true;
      error := None;
      if sent.Ok? {
        txHash := Some(btcTx.value.id);
        awaiting := Some(btcTx.value.id);
      } else {
        error := Some(sent.error);
      }
      loading := false;
    }

    /**
     * `resetFlow` (Cancel): back to idle with no action and no error. The queue, the
     * finalized transaction, the transaction hash and a registered watcher are kept.
     */
    method ResetFlow()
      modifies this
      ensures txStep == Idle && actionType == None && error == None
      ensures loading == old(loading) && escrow == old(escrow) && txHash == old(txHash)
      ensures intentions == old(intentions) && btcTx == old(btcTx) && awaiting == old(awaiting)
    {
      txStep := Idle;
      actionType := None;
      error := None;
    }

    /**
     * The watcher's success callback: the flow is done, the record is read again
     * (`reread`), and the celebration fires exactly for a release.
     */
    method OnConfirmed(reread: Option<ChainEscrow>) returns (celebrate: bool)
      requires awaiting.Some?
      modifies this
      ensures txStep == Done && escrow == reread
      ensures celebrate <==> actionType == Some(Release)
      ensures actionType == old(actionType) && loading == old(loading) && error == old(error)
      ensures txHash == old(txHash) && intentions == old(intentions) && btcTx == old(btcTx) && awaiting == old(awaiting)
    {
      txStep := Done;
      escrow := reread;
      celebrate := actionType == Some(Release);
    }
  }
}
