# BitBond escrow front end, modelled in Dafny

BitBond is a freelance escrow application on a Bitcoin layer with an EVM contract. A client
locks funds for a freelancer. The client then releases them, either side raises a dispute, or
the client takes a refund once the deadline has passed. This project models the logic of the
web front end around that contract. The model has three parts.

- **The demo escrow store** (`MockContract`). This is the in-browser stand-in for the contract.
  - It keeps a list of records and a next-id counter.
  - `createEscrow` appends a record numbered with the counter and bumps the counter.
  - `releaseFunds`, `raiseDispute` and `refundAfterDeadline` rewrite the status of the record
    found by id. They do so only when the record is Active, and a refund also needs the clock to
    be past the deadline.
  - `clearAll` empties the store.

  It is modelled as the class `MockStore` with two fields, `escrows` and `storedNextId`. Local
  storage is replaced by these fields. The proofs show that the store keeps an invariant:
  - ids strictly increase along the list;
  - every id lies in [1, next id);
  - every status is one of the four demo statuses.

  They also show that every transition rewrites only the status of the one record carrying the
  id, and that the three non-Active statuses are absorbing.
- **The two transaction flows.** These drive the wallet/bridge SDK through finalize, sign and
  broadcast, and end on confirmation.
  - The create-escrow modal (`CreateEscrowModal`) has the form, its validation (ordered checks,
    first failure wins) and the step machine.
  - The on-chain escrow page (`EscrowDetail`) has the step machine, the progress flags, the step
    buttons and the action panel's gating.

  Each handler is a method of a class holding the component's state and the state held by the
  SDK hooks. The SDK's answers are inputs: the finalized transaction or an error, the wallet's
  answer to each signature request, and the broadcast outcome. The sign-every-intention loop is
  shared by both flows (`TxFlow.SignAll`).
- **The list and view helpers.**
  - The on-chain dashboard (`Dashboard`): de-duplication of the client and freelancer id lists,
    the stats row, the empty state, description truncation and the role label.
  - The demo dashboard (`DashboardDemo`): role filter, newest-first order, status badge with a
    fallback.
  - The demo escrow page (`EscrowDetailDemo`): deadline flag, status text, which buttons each
    viewer sees, and the handlers that run one store transition and read the record back.

The project keeps two status numberings apart:
- The demo store uses 0..3: Active, Completed, Disputed, Refunded.
- The contract ABI, which the on-chain page uses, has 0..4: PENDING, ACTIVE, RELEASED,
  DISPUTED, REFUNDED.

Clocks are parameters.
- The demo store and the demo page use milliseconds.
- The on-chain page compares deadline seconds × 1000 with milliseconds.

Two behaviours of the source are modelled as written.
- **Cancel keeps the confirmation watcher.** On the on-chain page, Cancel (`resetFlow`) does not
  cancel a confirmation watcher that was already registered. A confirmation that arrives after
  Cancel therefore still moves the page to `done` (`EscrowDetail.EscrowDetail.OnConfirmed`
  requires only a registered watcher).
- **Two dispute buttons.** On the demo page, a viewer who is both client and freelancer of a
  record sees two dispute buttons (`EscrowDetailDemo.Buttons` counts them).

## Model

| member | source | states |
|---|---|---|
| Text.TrimStart | src/components/CreateEscrowModal.tsx:57 | the result is a suffix of the input that starts with a non-white-space character, and the removed prefix is all white space |
| Text.TrimEnd | src/components/CreateEscrowModal.tsx:57 | the result is a prefix of the input that ends with a non-white-space character, and the removed suffix is all white space |
| Text.Trim | src/components/CreateEscrowModal.tsx:57 | `trim()` gives the slice of the input left after removing an all-white-space prefix and an all-white-space suffix; a non-empty result neither starts nor ends with white space (an empty result is characterised by Text.TrimEmptyIffBlank) |
| Text.TrimEmptyIffBlank | src/components/CreateEscrowModal.tsx:57 | `!s.trim()` holds exactly when every character of `s` is JavaScript white space |
| Text.ToLower | frontend/src/components/DashboardDemo.tsx:21-27 | lower-casing keeps the length and lower-cases each character in place |
| Text.ToLowerIdempotent | frontend/src/components/DashboardDemo.tsx:21-27 | lower-casing an already lower-cased string changes nothing |
| Text.MatchesAccount | src/components/EscrowDetail.tsx:97-98 | with no connected account no role matches; a match implies the account and the address have the same length (the case-insensitivity is Text.MatchesAccountIgnoresCase) |
| Text.MatchesAccountIgnoresCase | src/components/EscrowDetail.tsx:97-98 | the role test gives the same answer whatever the case of the account and of the record's address |
| MockContract.FirstIndex | frontend/src/contracts/mockContract.ts:57-60 | `find` stops at a record carrying the id with none before it, and finds nothing exactly when no record carries the id |
| MockContract.Lookup | frontend/src/contracts/mockContract.ts:57-60 | `getEscrow` returns a stored record with the requested id, or undefined exactly when no record has that id |
| MockContract.FirstIndexUnique | frontend/src/contracts/mockContract.ts:57-60 | with increasing ids, looking up a record's id finds that very record |
| MockContract.Enabled | frontend/src/contracts/mockContract.ts:66-86 | the guard of the three transitions: the record is Active (`status === 0`, lines 66, 76, 86), and for a refund also the clock reading is strictly after the deadline (line 86) |
| MockContract.Apply | frontend/src/contracts/mockContract.ts:63-90 | a transition keeps the length of the list; each record either stays as it was or carries the id, has the transition enabled on it, and takes the transition's target status with every other field kept |
| MockContract.ApplyPointwise | frontend/src/contracts/mockContract.ts:63-90 | a transition keeps the length; it rewrites only the status of the record with the id, and only when the transition is enabled there; every other record is unchanged |
| MockContract.ApplyChangesIff | frontend/src/contracts/mockContract.ts:63-90 | a transition changes the list exactly when the record exists, is Active and, for a refund, the clock is past its deadline |
| MockContract.LookupAfterApply | frontend/src/contracts/mockContract.ts:63-90 | reading the id back shows the new status when the transition was enabled, else the old record; every other id reads the same as before |
| MockContract.ApplyKeepsInvariant | frontend/src/contracts/mockContract.ts:63-90 | the three transitions keep the store invariant (increasing ids below the counter, valid statuses) |
| MockContract.SecondTransitionIsNoOp | frontend/src/contracts/mockContract.ts:63-90 | Completed, Disputed and Refunded are absorbing: after one transition has taken effect, any further transition on that id is a no-op |
| MockContract.RefundNotBeforeDeadline | frontend/src/contracts/mockContract.ts:83-90 | a refund at or before the deadline leaves the store unchanged |
| MockContract.CreateKeepsInvariant | frontend/src/contracts/mockContract.ts:30-48 | appending an Active record numbered with the counter keeps the invariant with the counter bumped; the new id finds the new record and every other id reads the same as before |
| MockContract.MockStore.NextId | frontend/src/contracts/mockContract.ts:109-112 | `getNextId()`: the stored counter, or 1 when no counter is stored |
| MockContract.MockStore.constructor | frontend/src/contracts/mockContract.ts:100-112 | with neither key stored, the list reads empty and the next id is 1 |
| MockContract.MockStore.CreateEscrow | frontend/src/contracts/mockContract.ts:23-49 | the new record has id = current counter (1 when none is stored), status Active, the given fields and the clock as creation time; it is appended at the end with earlier records unchanged; the counter becomes id + 1; the invariant is kept and the new record is what `getEscrow` finds |
| MockContract.MockStore.GetAllEscrows | frontend/src/contracts/mockContract.ts:52-54 | returns the stored list |
| MockContract.MockStore.Find | frontend/src/contracts/mockContract.ts:59 | the scan returns the position `find` stops at |
| MockContract.MockStore.GetEscrow | frontend/src/contracts/mockContract.ts:57-60 | returns the lookup of the id in the stored list |
| MockContract.MockStore.Transit | frontend/src/contracts/mockContract.ts:63-90 | the list becomes the transition applied to the old list; the counter is untouched; the invariant is kept |
| MockContract.MockStore.ReleaseFunds | frontend/src/contracts/mockContract.ts:63-70 | Active becomes Completed on the record with the id; otherwise nothing changes; the counter is untouched |
| MockContract.MockStore.RaiseDispute | frontend/src/contracts/mockContract.ts:73-80 | Active becomes Disputed on the record with the id; otherwise nothing changes; the counter is untouched |
| MockContract.MockStore.RefundAfterDeadline | frontend/src/contracts/mockContract.ts:83-90 | Active becomes Refunded on the record with the id, only when the clock is strictly past its deadline; the counter is untouched |
| MockContract.MockStore.ClearAll | frontend/src/contracts/mockContract.ts:93-96 | the list reads empty and the next id reads 1 again |
| TxFlow.ErrorText | src/components/CreateEscrowModal.tsx:121 | `e.message`, or the fallback when that is falsy: a non-empty message is shown as it is and an empty or missing one gives way to the handler's fallback text (the same rule at lines 90, 104 and 143) |
| TxFlow.SignAll | src/components/CreateEscrowModal.tsx:115-119 | intentions are signed in queue order and the loop stops at the first refusal; intention i is signed exactly when requests 0..i were approved; a failure carries the first refusal's message and happens exactly when some request was refused |
| CreateEscrowModal.Validate | src/components/CreateEscrowModal.tsx:52-64 | a reported error is a check that really rejects the form; no error is reported only when no check rejects it |
| CreateEscrowModal.ValidateIsFirstFailing | src/components/CreateEscrowModal.tsx:52-64 | `validate` returns the first failing check in the order address, amount, description, deadline present, deadline in the future; it returns null when none fails |
| CreateEscrowModal.ValidateAcceptsIff | src/components/CreateEscrowModal.tsx:52-64 | the form is accepted exactly when: the address is 0x-prefixed; the amount is present and not ≤ 0; the description is not blank; the deadline is present and not at or before now |
| CreateEscrowModal.FloorSeconds | src/components/CreateEscrowModal.tsx:73 | the seconds are the largest whole number whose thousandfold does not exceed the milliseconds |
| CreateEscrowModal.FindStep | src/components/CreateEscrowModal.tsx:156 | `findIndex` returns the first matching progress key, or -1 exactly when none matches |
| CreateEscrowModal.StepIdx | src/components/CreateEscrowModal.tsx:149-156 | every step has a slot in the progress bar; `intention` shares the form's slot |
| CreateEscrowModal.CreateEscrowModal.constructor | src/components/CreateEscrowModal.tsx:35-45 | the modal opens on the form step with empty fields, no error, no transaction hash and nothing loading |
| CreateEscrowModal.CreateEscrowModal.HandleChange | src/components/CreateEscrowModal.tsx:47-50 | one field takes the new value and the error is cleared; nothing else changes |
| CreateEscrowModal.AddOutcome | src/components/CreateEscrowModal.tsx:67-94 | adding yields a call only when the form validates, the deadline is a date and the SDK accepted the intention; every failure carries a non-empty message |
| CreateEscrowModal.AddOutcomeSpec | src/components/CreateEscrowModal.tsx:67-94 | adding succeeds exactly when the form validates, the deadline is a date and the SDK accepts; a failed check reports its own message; the queued call carries the form's fields and the deadline in whole seconds, which lies after now; every failure carries a non-empty message |
| CreateEscrowModal.CreateEscrowModal.HandleAddIntention | src/components/CreateEscrowModal.tsx:67-94 | on success the queue becomes only the `createEscrow` call and the step moves to finalize with no error; on failure the step and the queue are unchanged and the error is set; loading ends false |
| CreateEscrowModal.CreateEscrowModal.HandleFinalize | src/components/CreateEscrowModal.tsx:97-108 | success moves to sign and keeps the finalized transaction; failure stays at finalize with the error message or its fallback; loading ends false |
| CreateEscrowModal.CreateEscrowModal.HandleSign | src/components/CreateEscrowModal.tsx:111-125 | with no finalized transaction, it sets "not finalized" and stays at sign; otherwise it signs in order and moves to broadcast exactly when every request was approved, else stays at sign with the first refused request's message, or "Failed to sign intentions" when that message is empty; loading ends false |
| CreateEscrowModal.CreateEscrowModal.HandleBroadcast | src/components/CreateEscrowModal.tsx:128-147 | a missing transaction or a missing client sets its error; success records the transaction id as hash and registers the watcher; failure sets the error; the step stays at broadcast |
| CreateEscrowModal.CreateEscrowModal.OnConfirmed | src/components/CreateEscrowModal.tsx:27-33 | the confirmation callback, which needs a registered watcher, is what moves to done |
| EscrowDetail.DoneFlagsNested | src/components/EscrowDetail.tsx:202-204 | broadcast-done implies sign-done, which implies finalize-done; each flag holds exactly for the steps after its own |
| EscrowDetail.OneStepButtonAtATime | src/components/EscrowDetail.tsx:334-357 | a step button can be pressed exactly when its step is current and nothing is loading, so at most one can be pressed |
| EscrowDetail.ActionButtons | src/components/EscrowDetail.tsx:287-320 | the panel shows only when idle and ACTIVE; release goes to the client; refund goes to the client once the deadline has passed; dispute goes to any viewer |
| EscrowDetail.DeadlinePassed | src/components/EscrowDetail.tsx:99-101 | `isDeadlinePassed`: the deadline, in seconds, times 1000 lies strictly before the clock reading in milliseconds |
| EscrowDetail.OfferedActions | src/components/EscrowDetail.tsx:97-101 | the page offers actions exactly when idle on an ACTIVE record; release only to the client and refund only to the client past the deadline, compared ignoring case |
| EscrowDetail.OnlyClientReleasesOrRefunds | src/components/EscrowDetail.tsx:97-101 | release and refund are offered only to an account equal to the client ignoring case, and refund only when deadline × 1000 < now |
| EscrowDetail.ActionCall | src/components/EscrowDetail.tsx:295-313 | each panel button queues its own contract call on this escrow's id: release `releaseFunds` (line 295), refund `refundAfterDeadline` (line 303), dispute `raiseDispute` (line 313) |
| EscrowDetail.EscrowDetail.constructor | src/components/EscrowDetail.tsx:52-56 | the page starts idle with no action, no error, no hash and nothing loading |
| EscrowDetail.EscrowDetail.InitAction | src/components/EscrowDetail.tsx:105-133 | the action is recorded; success replaces the queue with that action's call and moves to finalize; failure stays idle with the error; loading ends false |
| EscrowDetail.EscrowDetail.HandleFinalize | src/components/EscrowDetail.tsx:135-149 | success moves to sign and keeps the finalized transaction; failure stays at finalize with the error |
| EscrowDetail.EscrowDetail.HandleSign | src/components/EscrowDetail.tsx:151-168 | with no finalized transaction it does nothing; otherwise it signs in order and moves to broadcast exactly when every request was approved, else stays at sign with the first refused request's message as the error |
| EscrowDetail.EscrowDetail.HandleBroadcast | src/components/EscrowDetail.tsx:170-189 | with no transaction or no client it does nothing; success records the hash and registers the watcher; failure sets the error; the step stays at broadcast |
| EscrowDetail.EscrowDetail.ResetFlow | src/components/EscrowDetail.tsx:191-195 | from any step, it goes back to idle with no action and no error; everything else is kept |
| EscrowDetail.EscrowDetail.OnConfirmed | src/components/EscrowDetail.tsx:58-74 | the step becomes done and the record is read again; the celebration fires exactly when the action was release |
| Dashboard.IndexOf | frontend/src/components/Dashboard.tsx:52 | `findIndex` returns the first position holding the value, or -1 exactly when the value is absent |
| Dashboard.KeepFirst | frontend/src/components/Dashboard.tsx:49-52 | the filter from position i on is no longer than what is left of the input and keeps only values found there |
| Dashboard.KeepFirstMembers | frontend/src/components/Dashboard.tsx:49-52 | the filter keeps exactly the values whose first occurrence lies in the part scanned |
| Dashboard.KeepFirstOrdered | frontend/src/components/Dashboard.tsx:49-52 | the kept values come in the order of their first occurrences |
| Dashboard.AllIds | frontend/src/components/Dashboard.tsx:49-52 | the result has no duplicates and holds exactly the ids of either list (a missing list counts as empty); it keeps the order of first occurrences and is no longer than both lists together |
| Dashboard.DashboardStats | frontend/src/components/Dashboard.tsx:80-94 | each role count is the length of its list, or a dash when that list is missing; Total is the number of de-duplicated ids, at most their sum, and 0 exactly when both lists are empty |
| Dashboard.DashboardList | frontend/src/components/Dashboard.tsx:101-130 | the spinner shows exactly while either list loads; the empty state shows exactly when loading has finished and both lists are empty; otherwise the de-duplicated ids are listed |
| Dashboard.ShortDesc | frontend/src/components/Dashboard.tsx:165-168 | a description of at most 60 characters is shown whole; a longer one as its first 60 characters and an ellipsis |
| Dashboard.RoleLabel | frontend/src/components/Dashboard.tsx:162-186 | the label is "Client" exactly when the current address equals the client ignoring case, else "Freelancer" |
| DashboardDemo.LowerAccount | frontend/src/components/DashboardDemo.tsx:21 | `accounts?.[0]?.address?.toLowerCase()`: the connected account lower-cased, or undefined when none is connected |
| DashboardDemo.Keeps | frontend/src/components/DashboardDemo.tsx:23-28 | the filter callback: "all" keeps every record; the client (freelancer) tab keeps a record whose lower-cased client (freelancer) address equals the lower-cased account, and nothing when no account is connected |
| DashboardDemo.FilterEscrows | frontend/src/components/DashboardDemo.tsx:23-28 | the filter keeps exactly the records the callback accepts, never more copies of a record than the list holds; "all" keeps the list as it is |
| DashboardDemo.FilterKeepsIdsIncreasing | frontend/src/components/DashboardDemo.tsx:23-28 | filtering keeps list order, so increasing ids stay increasing |
| DashboardDemo.KeepsIsAccountMatch | frontend/src/components/DashboardDemo.tsx:21-27 | the client (freelancer) filter accepts a record exactly when its client (freelancer) equals the account ignoring case |
| DashboardDemo.Reverse | frontend/src/components/DashboardDemo.tsx:30 | the reversed list has the same length and position i holds the element from the other end |
| DashboardDemo.ReverseSameElements | frontend/src/components/DashboardDemo.tsx:30 | reversing keeps exactly the same records |
| DashboardDemo.Visible | frontend/src/components/DashboardDemo.tsx:19-31 | the shown list is never longer than the stored one (what it holds, and in which order, is stated by the three lemmas below) |
| DashboardDemo.VisibleMembers | frontend/src/components/DashboardDemo.tsx:19-31 | the list shows exactly the stored records whose client (or freelancer, by the filter) equals the account ignoring case; "all" shows every record |
| DashboardDemo.VisibleAllIsReversed | frontend/src/components/DashboardDemo.tsx:23-30 | under "all" the list is the stored list, last record first |
| DashboardDemo.VisibleNewestFirst | frontend/src/components/DashboardDemo.tsx:19-31 | on a well-formed store the shown ids strictly decrease, so the last-created record comes first |
| DashboardDemo.StatusBadge | frontend/src/components/DashboardDemo.tsx:33-41 | statuses 0..3 get the Active, Completed, Disputed and Refunded badges; any other value gets the Active badge |
| DashboardDemo.BadgesOfStoredRecords | frontend/src/components/DashboardDemo.tsx:33-41 | on a well-formed store every record gets its own status's badge, never the fallback |
| DashboardDemo.DashboardDemoView.constructor | frontend/src/components/DashboardDemo.tsx:12-17 | mounting selects "all" and shows every stored record, newest first |
| DashboardDemo.DashboardDemoView.LoadEscrows | frontend/src/components/DashboardDemo.tsx:19-31 | the shown list becomes the filtered, reversed store contents |
| DashboardDemo.DashboardDemoView.SetFilter | frontend/src/components/DashboardDemo.tsx:15-17 | choosing a tab sets the filter and reloads the list under it |
| DashboardDemo.DashboardDemoView.SetAccount | frontend/src/components/DashboardDemo.tsx:15-17 | a change of the connected account sets it and reloads the list for it under the current filter |
| EscrowDetailDemo.IsPastDeadline | frontend/src/components/EscrowDetailDemo.tsx:60 | the page's deadline flag: the clock reading is strictly after the deadline; its meaning for the store is EscrowDetailDemo.PastDeadlineIsRefundGuard |
| EscrowDetailDemo.PastDeadlineIsRefundGuard | frontend/src/components/EscrowDetailDemo.tsx:60 | on an Active record the past-deadline flag is exactly the store's refund guard, and it still holds at any later clock reading |
| EscrowDetailDemo.StatusText | frontend/src/components/EscrowDetailDemo.tsx:62-71 | statuses 0..3 have a text, the same as the dashboard badge's; any other value indexes past the table and gives undefined (None), on which the render's `statusText.toLowerCase()` (line 71) would throw; EscrowDetailDemo.StatusTextOfStoredRecords rules that out for every record of a store that keeps its invariant |
| EscrowDetailDemo.StatusTextOfStoredRecords | frontend/src/components/EscrowDetailDemo.tsx:62-71 | every record of a well-formed store has a status text, so the render never calls `toLowerCase()` on undefined |
| EscrowDetailDemo.Buttons | frontend/src/components/EscrowDetailDemo.tsx:104-143 | buttons show only on Active records; release goes to the client; dispute goes to the client or the freelancer and nobody else (two buttons for a viewer who is both); refund goes to the client past the deadline |
| EscrowDetailDemo.ShownButtons | frontend/src/components/EscrowDetailDemo.tsx:57-60 | a viewer sees some button exactly when the record is Active and they are its client or its freelancer, compared ignoring case; a refund button only to the client past the deadline |
| EscrowDetailDemo.ShownButtonsAreEnabled | frontend/src/components/EscrowDetailDemo.tsx:104-141 | a shown button's store transition is enabled on the shown record, even at a later clock reading; release and refund are shown only to the client |
| EscrowDetailDemo.PanelGoneAfterAction | frontend/src/components/EscrowDetailDemo.tsx:104 | once a transition has taken effect, the reloaded record is no longer Active and no viewer sees any button |
| EscrowDetailDemo.EscrowDetailDemo.constructor | frontend/src/components/EscrowDetailDemo.tsx:17-24 | mounting reads the record for the id, or nothing when it is missing |
| EscrowDetailDemo.EscrowDetailDemo.LoadEscrow | frontend/src/components/EscrowDetailDemo.tsx:21-24 | the shown record becomes the store's record for the id |
| EscrowDetailDemo.EscrowDetailDemo.HandleRelease | frontend/src/components/EscrowDetailDemo.tsx:26-33 | exactly one release on this id, then a reload; processing ends false |
| EscrowDetailDemo.EscrowDetailDemo.HandleDispute | frontend/src/components/EscrowDetailDemo.tsx:35-42 | exactly one dispute on this id, then a reload; processing ends false |
| EscrowDetailDemo.EscrowDetailDemo.HandleRefund | frontend/src/components/EscrowDetailDemo.tsx:44-51 | exactly one refund on this id at the store's clock reading, then a reload; processing ends false |

## Left out

- The escrow contract's own behaviour is not modelled, because its source is not part of this
  model. `src/contracts/BitBondEscrow.ts` supplies only the five-state numbering. Its label table,
  and the colour and icon tables of the two on-chain components, are display only.
- The wallet/bridge SDK is not modelled; its answers are inputs. This covers adding an
  intention, finalizing, each signature request, sending the transactions and the confirmation
  watcher. Fee calculation, Bitcoin transaction construction and ABI encoding
  (`encodeFunctionData`, `parseEther`) are left out too. An encoding or `parseEther` failure
  is folded into the add-intention outcome.
- Floating point and date parsing are left out. `parseFloat(amount)` and
  `new Date(deadline).getTime()` are inputs: a number or NaN. The model keeps JavaScript's rule
  that a comparison with NaN is false, so NaN fails neither numeric check in `validate`. A NaN
  deadline then makes `BigInt` throw in the add handler, and that path is modelled. Amount
  display (`/ 1e18`, `toFixed`) and date formatting are left out.
- Local storage and JSON serialisation are replaced by the fields `escrows` and `storedNextId`.
  A stored counter that `parseInt` cannot read, and a stored list edited outside the store, are
  not modelled. The store operations nevertheless require nothing. They state the invariant as
  kept whenever it held before.
- MockContract.MockStore.CreateEscrow: the creation time is the `now` parameter rather than
  `Date.now()`.
- Async interleavings are not modelled. Each handler runs as one atomic step, and the
  simulated one-second delays of the demo handlers are dropped. A step handler requires the step
  in which its button is rendered and requires `loading` (or `isProcessing`) to be false,
  because the source disables the button otherwise.
- Toasts, confetti, CSS classes, explorer links, the back buttons and the "not found" and
  loading screens are left out, since they are display only. The celebration is kept as the
  boolean result of EscrowDetail.EscrowDetail.OnConfirmed.
- Text.ToLower: only ASCII letters are lower-cased. JavaScript's full Unicode case mapping is
  not modelled. Addresses are hexadecimal, so the role tests are unaffected.
- Dashboard.ShortDesc: lengths count Unicode characters, whereas JavaScript counts UTF-16 code
  units. The two differ only for characters outside the Basic Multilingual Plane.
- DashboardDemo.Reverse: the in-place `reverse()` is modelled on values. The reversed array is
  a fresh copy read from storage, so no other holder of it can observe the update in place.
- The on-chain dashboard's reads are inputs: each id list (or none) with its loading flag.
  Per-item record reads are left out beyond the role label and the description.
- UI-only files are left out: both headers, the hero section, the app's view routing, the entry
  point and the demo create-escrow form. Configuration and deployment scripts are left out too.
