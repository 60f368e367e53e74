/**
 * The boundary with the wallet/bridge SDK that both transaction flows drive: the queued
 * call intentions, the finalized Bitcoin transaction, and the sign-every-intention loop.
 * The SDK's own answers (finalize, each signature request, broadcast) are inputs.
 */
module TxFlow {
  import opened Wrappers

  /** The anchoring Bitcoin transaction the finalize step produces. */
  datatype BtcTx = BtcTx(id: string, hex: string)

  /** The contract call an intention carries (ABI encoding is not modelled). */
  datatype Call =
    | CreateEscrowCall(freelancer: string, amount: string, description: string, deadline: int)
    | ReleaseFundsCall(escrowId: int)
    | RaiseDisputeCall(escrowId: int)
    | RefundAfterDeadlineCall(escrowId: int)

  /** A queued intention and whether the wallet has signed it. */
  datatype Intention = Intention(call: Call, signed: bool)

  /** `e.message || fallback`: an empty or missing message gives way to the fallback. */
  function ErrorText(message: string, fallback: string): string {
    if message == "" then fallback else message
  }

  /** The wallet approved the first `n` signature requests. */
  predicate ApprovedUpTo(wallet: nat -> Result<(), string>, n: nat) {
    forall j: nat :: j < n ==> wallet(j).Ok?
  }

  /**
   * The `for … of txIntentions` loop: request a signature for each intention in queue
   * order, stopping at the first request the wallet refuses. `wallet(i)` is the wallet's
   * answer to the i-th request. Intention i ends up signed exactly when it already was or
   * requests 0..i were all approved; `failure` is the message of the first refusal.
   */
  method SignAll(queue: seq<Intention>, wallet: nat -> Result<(), string>)
    returns (out: seq<Intention>, failure: Option<string>)
    ensures |out| == |queue|
    ensures forall i :: 0 <= i < |out| ==> out[i].call == queue[i].call
    ensures forall i :: 0 <= i < |out| ==> (out[i].signed <==> queue[i].signed || ApprovedUpTo(wallet, i + 1))
    ensures failure.None? <==> ApprovedUpTo(wallet, |queue|)
    ensures failure.Some? ==>
      exists j: nat :: j < |queue| && ApprovedUpTo(wallet, j) && wallet(j) == Err(failure.value)
  {
    out := queue;
    var i := 0;
    while i < |queue|
      invariant 0 <= i <= |queue| && |out| == |queue|
      invariant ApprovedUpTo(wallet, i)
      invariant forall k :: 0 <= k < |out| ==> out[k].call == queue[k].call
      invariant forall k :: 0 <= k < i ==> out[k].signed
      invariant forall k :: i <= k < |out| ==> out[k] == queue[k]
    {
      var answer := wallet(i);
      if answer.Err? {
        failure := Some(answer.error);
        return;
      }
      out := out[i := Intention(out[i].call, true)];
      i := i + 1;
    }
    failure := None;
  }
}
