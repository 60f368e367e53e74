/**
 * The create-escrow modal: the form and its validation, and the step machine
 * form → finalize → sign → broadcast → done that submits a `createEscrow` call through
 * the bridge SDK. Each handler either advances the step by one or leaves it and sets
 * `error`; `done` is reached only by the confirmation callback.
 */
module CreateEscrowModal {
  import opened Wrappers
  import opened Text
  import TxFlow

  datatype Step = Form | Intention | Finalize | Sign | Broadcast | Done

  datatype FormFields = FormFields(freelancer: string, amount: string, description: string, deadline: string)

  datatype Field = FreelancerField | AmountField | DescriptionField | DeadlineField

  /** What `parseFloat` or `new Date(…)` made of a field: a number, or NaN. */
  datatype Parsed<T> = Number(value: T) | NaN

  datatype ValidationError = BadFreelancer | BadAmount | MissingDescription | MissingDeadline | DeadlineNotFuture

  function Message(err: ValidationError): string {
    match err
    case BadFreelancer => "Enter a valid EVM address for the freelancer (0x...)"
    case BadAmount => "Enter a valid payment amount"
    case MissingDescription => "Please describe the work to be done"
    case MissingDeadline => "Set a deadline for the work"
    case DeadlineNotFuture => "Deadline must be in the future"
  }

  const NOT_FINALIZED := "BTC transaction not finalized yet"
  const NO_CLIENT := "No public client available"
  const ADD_FALLBACK := "Failed to add transaction intention"
  const FINALIZE_FALLBACK := "Failed to finalize BTC transaction"
  const SIGN_FALLBACK := "Failed to sign intentions"
  const BROADCAST_FALLBACK := "Failed to broadcast transaction"
  // What `BigInt(NaN)` throws when the deadline does not parse as a date.
  const BIGINT_NAN := "The number NaN cannot be converted to a BigInt because it is not an integer"

  /**
   * Whether one check, taken on its own, rejects the form. `amount` and `deadline` are
   * what `parseFloat(form.amount)` and `new Date(form.deadline)` gave (in milliseconds),
   * and `now` is the clock; a comparison with NaN is false, so NaN fails neither number check.
   */
  predicate Fails(err: ValidationError, form: FormFields, amount: Parsed<real>, deadline: Parsed<int>, now: int) {
    match err
    case BadFreelancer => form.freelancer == "" || !StartsWith(form.freelancer, "0x")
    case BadAmount => form.amount == "" || (amount.Number? && amount.value <= 0.0)
    case MissingDescription => IsBlank(form.description)
    case MissingDeadline => form.deadline == ""
    case DeadlineNotFuture => deadline.Number? && deadline.value <= now
  }

  const CHECK_ORDER: seq<ValidationError> := [BadFreelancer, BadAmount, MissingDescription, MissingDeadline, DeadlineNotFuture]

  /** Every check of `checks` that rejects the form, in order. */
  function FailingChecks(checks: seq<ValidationError>, form: FormFields, amount: Parsed<real>,
                         deadline: Parsed<int>, now: int): seq<ValidationError>
  {
    if checks == [] then []
    else (if Fails(checks[0], form, amount, deadline, now) then [checks[0]] else [])
         + FailingChecks(checks[1..], form, amount, deadline, now)
  }

  /**
   * `validate()`: the checks tried in order, the first rejection winning. The description
   * check `!form.description.trim()` is written as "all white space", which
   * Text.TrimEmptyIffBlank shows to be the same test.
   */
  function Validate(form: FormFields, amount: Parsed<real>, deadline: Parsed<int>, now: int): (r: Option<ValidationError>)
    ensures r.Some? ==> Fails(r.value, form, amount, deadline, now)
    ensures r.None? ==> forall c: ValidationError :: !Fails(c, form, amount, deadline, now)
  {
    if form.freelancer == "" || !StartsWith(form.freelancer, "0x") then Some(BadFreelancer)
    else if form.amount == "" || (amount.Number? && amount.value <= 0.0) then Some(BadAmount)
    else if IsBlank(form.description) then Some(MissingDescription)
    else if form.deadline == "" then Some(MissingDeadline)
    else if deadline.Number? && deadline.value <= now then Some(DeadlineNotFuture)
    else None
  }

  /** `validate()` reports the first of all failing checks, in the order of CHECK_ORDER, or none. */
  lemma {:induction false} ValidateIsFirstFailing(form: FormFields, amount: Parsed<real>, deadline: Parsed<int>, now: int)
    ensures var failing := FailingChecks(CHECK_ORDER, form, amount, deadline, now);
      Validate(form, amount, deadline, now) == if failing == [] then None else Some(failing[0])
  {
    var c4 := [DeadlineNotFuture];
    var c3 := [MissingDeadline] + c4;
    var c2 := [MissingDescription] + c3;
    var c1 := [BadAmount] + c2;
    assert CHECK_ORDER == [BadFreelancer] + c1;
    assert c4[1..] == [] && c3[1..] == c4 && c2[1..] == c3 && c1[1..] == c2;
    var f4 := FailingChecks(c4, form, amount, deadline, now);
    var f3 := FailingChecks(c3, form, amount, deadline, now);
    var f2 := FailingChecks(c2, form, amount, deadline, now);
    var f1 := FailingChecks(c1, form, amount, deadline, now);
    assert FailingChecks(c4[1..], form, amount, deadline, now) == [];
    assert f4 == if Fails(DeadlineNotFuture, form, amount, deadline, now) then [DeadlineNotFuture] else [];
    assert f3 == (if Fails(MissingDeadline, form, amount, deadline, now) then [MissingDeadline] else []) + f4;
    assert f2 == (if Fails(MissingDescription, form, amount, deadline, now) then [MissingDescription] else []) + f3;
    assert f1 == (if Fails(BadAmount, form, amount, deadline, now) then [BadAmount] else []) + f2;
    assert FailingChecks(CHECK_ORDER, form, amount, deadline, now) ==
      (if Fails(BadFreelancer, form, amount, deadline, now) then [BadFreelancer] else []) + f1;
  }

  /**
   * The form is accepted exactly when the address is 0x-prefixed, the amount is present and
   * not a number ≤ 0, the trimmed description is not empty, and the deadline is present and
   * not a time at or before `now`.
   */
  lemma ValidateAcceptsIff(form: FormFields, amount: Parsed<real>, deadline: Parsed<int>, now: int)
    ensures Validate(form, amount, deadline, now) == None <==>
      && StartsWith(form.freelancer, "0x")
      && form.amount != "" && !(amount.Number? && amount.value <= 0.0)
      && Trim(form.description) != ""
      && form.deadline != "" && !(deadline.Number? && deadline.value <= now)
  {
    TrimEmptyIffBlank(form.description);
  }

  /** `Math.floor(ms / 1000)`: seconds from milliseconds, rounding down also for negative times. */
  function FloorSeconds(ms: int): (r: int)
    ensures r * 1000 <= ms < r * 1000 + 1000
  {
    ms / 1000
  }

  // The progress bar's keys; the `intention` step shares the form's slot.
  const STEP_KEYS: seq<Step> := [Form, Finalize, Sign, Broadcast, Done]

  predicate KeyMatches(key: Step, step: Step) {
    key == step || (step == Intention && key == Form)
  }

  /** `findIndex` over the progress keys: the first matching position, or -1. */
  function FindStep(keys: seq<Step>, step: Step): (r: int)
    ensures -1 <= r < |keys|
    ensures r >= 0 ==> KeyMatches(keys[r], step) && forall j :: 0 <= j < r ==> !KeyMatches(keys[j], step)
    ensures r == -1 ==> forall j :: 0 <= j < |keys| ==> !KeyMatches(keys[j], step)
  {
    if keys == [] then -1
    else if KeyMatches(keys[0], step) then 0
    else
      var r := FindStep(keys[1..], step);
      if r == -1 then -1 else r + 1
  }

  /** `stepIdx`: every step has a slot in the progress bar, `intention` the form's. */
  function StepIdx(step: Step): (r: int)
    ensures 0 <= r < |STEP_KEYS|
    ensures STEP_KEYS[r] == (if step == Intention then Form else step)
  {
    FindStep(STEP_KEYS, step)
  }

  /**
   * What adding the intention comes to: the message of the first failed check; the error
   * `BigInt` throws on a deadline that is not a date; the add's own error (or its fallback);
   * or the `createEscrow` call with the deadline in whole seconds.
   */
  function AddOutcome(form: FormFields, amount: Parsed<real>, deadline: Parsed<int>, now: int,
                      added: Result<(), string>): (r: Result<TxFlow.Call, string>)
    ensures r.Ok? ==> Validate(form, amount, deadline, now) == None && deadline.Number? && added.Ok?
    ensures r.Err? ==> r.error != ""
  {
    var err := Validate(form, amount, deadline, now);
    if err.Some? then Err(Message(err.value))
    else if deadline.NaN? then Err(BIGINT_NAN)
    else if added.Err? then Err(TxFlow.ErrorText(added.error, ADD_FALLBACK))
    else Ok(TxFlow.CreateEscrowCall(form.freelancer, form.amount, form.description, FloorSeconds(deadline.value)))
  }

  /**
   * Adding succeeds exactly when the form validates, the deadline is a date and the SDK
   * accepts the intention; the call then carries the form's fields and the deadline in
   * seconds. A failed check reports its own message, and every failure reports some text.
   */
  lemma AddOutcomeSpec(form: FormFields, amount: Parsed<real>, deadline: Parsed<int>, now: int,
                       added: Result<(), string>)
    ensures AddOutcome(form, amount, deadline, now, added).Ok? <==>
      Validate(form, amount, deadline, now) == None && deadline.Number? && added.Ok?
    ensures Validate(form, amount, deadline, now).Some? ==>
      AddOutcome(form, amount, deadline, now, added) == Err(Message(Validate(form, amount, deadline, now).value))
    ensures AddOutcome(form, amount, deadline, now, added).Ok? ==>
      var v := deadline.value;
      AddOutcome(form, amount, deadline, now, added).value ==
        TxFlow.CreateEscrowCall(form.freelancer, form.amount, form.description, FloorSeconds(v))
      && FloorSeconds(v) * 1000 <= v < FloorSeconds(v) * 1000 + 1000 && v > now
    ensures AddOutcome(form, amount, deadline, now, added).Err? ==>
      AddOutcome(form, amount, deadline, now, added).error != ""
  {
  }

  class CreateEscrowModal {
    var step: Step
    var loading: bool
    var error: Option<string>
    var txHash: Option<string>
    var form: FormFields
    // State held by the SDK hooks: the intention queue, the finalized transaction, and
    // the transaction id a confirmation watcher was registered for.
    var intentions: seq<TxFlow.Intention>
    var btcTx: Option<TxFlow.BtcTx>
    var awaiting: Option<string>

    /** The modal as it opens, over whatever the SDK hooks currently hold. */
    constructor (queue: seq<TxFlow.Intention>, finalized: Option<TxFlow.BtcTx>)
      ensures step == Form && !loading && error == None && txHash == None
      ensures form == FormFields("", "", "", "")
      ensures intentions == queue && btcTx == finalized && awaiting == None
    {
      step := Form;
      loading := false;
      error := None;
      txHash := None;
      form := FormFields("", "", "", "");
      intentions := queue;
      btcTx := finalized;
      awaiting := None;
    }

    /** `handleChange`: one field takes the new value and the error is cleared. */
    method HandleChange(field: Field, value: string)
      modifies this
      ensures form == match field
        case FreelancerField => old(form).(freelancer := value)
        case AmountField => old(form).(amount := value)
        case DescriptionField => old(form).(description := value)
        case DeadlineField => old(form).(deadline := value)
      ensures error == None
      ensures step == old(step) && loading == old(loading) && txHash == old(txHash)
      ensures intentions == old(intentions) && btcTx == old(btcTx) && awaiting == old(awaiting)
    {
      match field {
        case FreelancerField => form := form.(freelancer := value);
        case AmountField => form := form.(amount := value);
        case DescriptionField => form := form.(description := value);
        case DeadlineField => form := form.(deadline := value);
      }
      error := None;
    }

    /**
     * `handleAddIntention`. `amount` and `deadline` are the parses of the form's fields,
     * `now` the clock, and `added` the outcome of encoding the call and queueing it.
     */
    method HandleAddIntention(amount: Parsed<real>, deadline: Parsed<int>, now: int, added: Result<(), string>)
      requires step == Form || step == Intention
      requires !loading
      modifies this
      ensures !loading
      ensures form == old(form) && txHash == old(txHash) && btcTx == old(btcTx) && awaiting == old(awaiting)
      ensures AddOutcome(form, amount, deadline, now, added).Ok? ==>
        step == Finalize && error == None
        && intentions == [TxFlow.Intention(AddOutcome(form, amount, deadline, now, added).value, false)]
      ensures AddOutcome(form, amount, deadline, now, added).Err? ==>
        step == old(step) && intentions == old(intentions)
        && error == Some(AddOutcome(form, amount, deadline, now, added).error)
    {
      var outcome := AddOutcome(form, amount, deadline, now, added);
      loading := true;
      if outcome.Ok? {
        intentions := [TxFlow.Intention(outcome.value, false)];
        step := Finalize;
        error := None;
      } else {
        error := Some(outcome.error);
      }
      loading := false;
    }

    /** `handleFinalize`, with `outcome` the SDK's finalized transaction or its error. */
    method HandleFinalize(outcome: Result<TxFlow.BtcTx, string>)
      requires step == Finalize && !loading
      modifies this
      ensures !loading
      ensures form == old(form) && txHash == old(txHash) && intentions == old(intentions) && awaiting == old(awaiting)
      ensures outcome.Ok? ==> step == Sign && btcTx == Some(outcome.value) && error == None
      ensures outcome.Err? ==>
        step == Finalize && btcTx == old(btcTx) && error == Some(TxFlow.ErrorText(outcome.error, FINALIZE_FALLBACK))
    {
      loading := true;
      error := None;
      if outcome.Ok? {
        btcTx := Some(outcome.value);
        step := Sign;
      } else {
        error := Some(TxFlow.ErrorText(outcome.error, FINALIZE_FALLBACK));
      }
      loading := false;
    }

    /** `handleSign`, with `wallet(i)` the wallet's answer to the i-th signature request. */
    method HandleSign(wallet: nat -> Result<(), string>)
      requires step == Sign && !loading
      modifies this
      ensures !loading
      ensures form == old(form) && txHash == old(txHash) && btcTx == old(btcTx) && awaiting == old(awaiting)
      ensures btcTx.None? ==> step == Sign && intentions == old(intentions) && error == Some(NOT_FINALIZED)
      ensures |intentions| == |old(intentions)|
      ensures forall i :: 0 <= i < |intentions| ==> intentions[i].call == old(intentions)[i].call
      ensures btcTx.Some? ==> forall i :: 0 <= i < |intentions| ==>
        (intentions[i].signed <==> old(intentions)[i].signed || TxFlow.ApprovedUpTo(wallet, i + 1))
      ensures step == Broadcast <==> btcTx.Some? && TxFlow.ApprovedUpTo(wallet, |intentions|)
      ensures step == Broadcast ==> error == None
      ensures step != Broadcast ==> step == Sign && error.Some?
      ensures btcTx.Some? && step != Broadcast ==>
        exists j: nat :: j < |intentions| && TxFlow.ApprovedUpTo(wallet, j) && wallet(j).Err?
          && error == Some(TxFlow.ErrorText(wallet(j).error, SIGN_FALLBACK))
    {
      if btcTx.None? {
        error := Some(NOT_FINALIZED);
        return;
      }
      loading := true;
      error := None;
      var signed, failure := TxFlow.SignAll(intentions, wallet);
      intentions := signed;
      if failure.None? {
        step := Broadcast;
      } else {
        error := Some(TxFlow.ErrorText(failure.value, SIGN_FALLBACK));
      }
      loading := false;
    }

    /**
     * `handleBroadcast`. `clientAvailable` says whether a public client exists and `sent`
     * is the outcome of sending the signed transactions. Success records the transaction
     * id and registers the confirmation watcher; the step stays at broadcast either way.
     */
    method HandleBroadcast(clientAvailable: bool, sent: Result<(), string>)
      requires step == Broadcast && !loading
      modifies this
      ensures !loading && step == Broadcast
      ensures form == old(form) && intentions == old(intentions) && btcTx == old(btcTx)
      ensures btcTx.None? ==> error == Some(NOT_FINALIZED)
      ensures btcTx.Some? && !clientAvailable ==> error == Some(NO_CLIENT)
      ensures btcTx.Some? && clientAvailable && sent.Ok? ==>
        error == None && txHash == Some(btcTx.value.id) && awaiting == Some(btcTx.value.id)
      ensures btcTx.Some? && clientAvailable && sent.Err? ==>
        error == Some(TxFlow.ErrorText(sent.error, BROADCAST_FALLBACK))
      ensures !(btcTx.Some? && clientAvailable && sent.Ok?) ==> txHash == old(txHash) && awaiting == old(awaiting)
    {
      if btcTx.None? {
        error := Some(NOT_FINALIZED);
        return;
      }
      if !clientAvailable {
        error := Some(NO_CLIENT);
        return;
      }
      loading := true;
      error := None;
      if sent.Ok? {
        txHash := Some(btcTx.value.id);
        awaiting := Some(btcTx.value.id);
      } else {
        error := Some(TxFlow.ErrorText(sent.error, BROADCAST_FALLBACK));
      }
      loading := false;
    }

    /** The watcher's success callback: the only way to the `done` step. */
    method OnConfirmed()
      requires awaiting.Some?
      modifies this
      ensures step == Done
      ensures loading == old(loading) && error == old(error) && txHash == old(txHash) && form == old(form)
      ensures intentions == old(intentions) && btcTx == old(btcTx) && awaiting == old(awaiting)
    {
      step := Done;
    }
  }
}
