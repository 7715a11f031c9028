# Remittance contract: a verified model

A Dafny model of the Soroban remittance contract in `src/`, with proofs about whole runs of it. The
contract holds senders' tokens until an agent confirms a payout, nets opposing flows in batches,
keeps pruned histories for limits and discounts, and is administered by voting protocols.

A few rules frame the model. An entry point that returns an error leaves the stored state as it was,
because the host undoes its writes (`Contract.RemittanceContract.Invoke`). Ledger time never
decreases. The token is a map from address to amount, and its transfer fails on a negative or
unaffordable amount. Integers are unbounded in Dafny, so every width is written out: checked
additions give `Err(Overflow)`, and additions the Rust code does not check give `Err(HostTrap)`,
because the release profile aborts on overflow. `Env.admit` stands for the checks of an entry point
that are not described (authorization, roles, KYC, agent caps, cooldowns, proofs), and `Env.screened`
for those that only the creation of a single remittance makes (the agent's reputation, the token
whitelist, the corridor cap, the settlement configuration): a step they refuse is `Err(Rejected)`.
A storage key without fields is its variant's name, whichever enum declares it, so the migration flag
that two enums name is one entry.

## Structure

| files | content |
|---|---|
| `Common`, `Types`, `Sums` | bounds, results, records, the status machine, finite sums |
| `Ledger`, `Contract` | the entry points that move tokens: as functions on the stored state, and as methods of a class that updates it in place, proved against those functions |
| `LedgerLaws`, `BatchSettlement`, `LedgerRuns`, `Payments`, `Analytics`, `RemittanceLives` | invariants of every step, conservation over every run, who is paid, what the volume counters mean, and what can happen to one remittance |
| `Origins`, `RemittanceSteps`, `EscrowLives`, `VolumeRuns` | the stored records and volumes as the accepted creations, what every step makes of a record, and who is paid in the terms of its creation |
| `Admission`, `TokenSupply` | when each entry point accepts a call; that none creates or destroys tokens |
| `Confirmability`, `SettlementSuccess`, `FeeVotes` | which payouts and batch settlements succeed; what an adopted fee update changes |
| `FirstPayments`, `Shortfalls`, `Examples` | short runs: two that lose money, and some on either side of an exact condition |
| `BatchCreation`, `Histories`, `SendLimits` | batch creation against one-by-one creation; histories and send limits over runs |
| `Netting`, `NettingLaws`, `NettingOrders`, `NetPayments` | net settlement, in any order of the batch, and what it pays between two parties |
| `SenderVolume`, `DailyLimit`, `SlidingWindow`, `TumblingWindow` | pruned and bucketed histories against the full ones |
| `Governance`, `GovernanceLaws`, `CircuitBreaker`, `CircuitBreakerLaws`, `Multisig` | proposals, votes, timelocks, quorums |
| `GovernanceEffects`, `GovernanceGuards`, `BreakerEffects`, `MultisigEffects` | what the executed calls of those protocols do, and when a call is accepted |
| `FeeService`, `FeeSchedule` | fee arithmetic, and the two fees of a remittance in closed form |
| `Bytes`, `CanonicalEncoding`, `SettlementFlags` | byte layouts, lazily migrated flags |
| `Migration`, `MigrationRuns`, `MigrationLock` | batch export and import, the lock that goes with them, and who looks at it |

## Main results

- Conservation. In every run of the modelled entry points the tokens the contract holds beyond open
  remittances, locked escrows and accumulated fees (the residue) change by exactly the gains of the
  successful steps. Exactly two entry points can have a negative gain; without them the residue never
  shrinks, the contract is solvent, and every refund, release and expiry batch can be paid. The balances
  of all addresses together never change.
- Whatever happened since its creation, while the fee configuration is the same `confirm_payout` refuses
  a pending remittance for its fee exactly when two fees differ: that of the strategy it was created
  under (the route's, or the global one) with the token's rate and the sender's discount where that is
  a percentage, and that of the global strategy. No other entry point compares the two.
- In a solvent state no payout, partial payout or batch settlement fails for lack of tokens: each
  succeeds under an exact condition that does not mention the balance. A loaded batch is settled exactly
  when what netting leaves between any two parties covers their fees, and every sum fits.
- Over every run the n-th record is that of the n-th accepted entry, whatever entry point took it, and so
  is the n-th escrow. Whatever happened in between, a payout or release pays the party that the creation
  named and a refund the one who paid in; an expiry batch refunds exactly what it lists after the expiry
  named there, and neither a full payout nor a batch settlement succeeds after it.
- Every status change climbs, a finished remittance never changes again and every entry point
  refuses it, and an expiry batch refunds an id once however often it is listed.
- Creating the entries of a batch one by one succeeds exactly when the batch does, every entry passes
  the checks that only single creation makes, and one stated sum fits; and then with the same effect.
- Netting preserves every address's position, and every order gives the same transfers. No order of a
  batch overflows if and only if, pair by pair, the sum in each direction and the fees fit; a loaded
  batch of a solvent contract always does, as long as no fee exceeds its amount.
- The pruned histories answer every later question as the full ones would, and over every run that
  starts after time zero no 24 hours of a corridor exceed the largest limit in force; a creation towards a
  country is held to the limit of that country.
- The migration lock is up exactly from the beginning of a migration to its end, and a batch number is
  accepted again exactly when a migration has ended since and the new one has reached it.
- Governance: a quorum is always attainable; each proposal executes at most once, after its timelock.
  Circuit breaker: a gated unpause had its full timelock and its quorum of votes. Multi-signature: an
  operation executes at most once, with exactly its threshold of distinct approvals. Every setting they
  control is what the last executed action on it left, and every executed action was proposed by an admin.

## Where code and documentation disagree

The model follows the code.

- `mark_failed` refunds the full amount even after a partial payout, and `confirm_partial_payout`
  completes with the stored fee although it paid out under the current one. Both can leave the
  contract short (`Shortfalls`); `LedgerRuns.LosesIffShortfall` says exactly when.
- The netting documentation says that fees are preserved and that fully offset pairs need no transfer,
  and `src/test.rs:3072-3118` expects such a batch to be settled and its fees kept. The fees of an offset
  pair are dropped, validation then rejects the batch, and every modelled entry point stores a positive
  fee, so it is never settled. Nor is a near offset: if less than its fees is left of a pair, the payout
  would be negative. `SettlementSuccess.BatchSettlesIff` is the exact condition, `Examples.OffsetExamples`
  has a run for either case.
- The status comments say a disputed remittance can still be completed or cancelled and that failed
  ones can be disputed. Nothing ever makes a remittance failed, so both dispute steps always fail
  (`LedgerLaws.DisputesUnreachable`), and `can_transition_to` has no edge out of `Disputed`.
- The completed volume is documented as the volume of completed remittances, but remittances settled in
  a batch are not counted (`Analytics.CompletedVolumeExact`).
- The daily limit does not see requests made at time zero (`DailyLimit.LimitFailsAtTimeZero`); it holds
  if and only if the clock starts later (`DailyLimit.HoldsIffPastZero`).
- The stored fee has the sender's volume discount, the token's own rate and the strategy of the route;
  the fee recomputed by `confirm_payout` has none of them, so a created remittance need not be confirmable
  (`Examples.Unconfirmable`, `Examples.UnconfirmableOnRoute`). `Confirmability.CreatedRefusedIff`,
  `BatchRefusedIff` and `RouteRefusedIff` say exactly when, for the three ways of creating one.
- An adopted fee update is meant to set the fee. It writes the platform rate only: where the token has a
  rate of its own creation ignores it, and under a percentage strategy the payout always does
  (`FeeVotes.VoteWithoutEffect`); without such a rate it can make what is created afterwards
  unconfirmable (`FeeVotes.VoteSplitsFees`, `Examples.UnconfirmableAfterVote`). A fee update of the
  multi-signature module sets the strategy as well (`MultisigEffects.HostIsOperations`).
- An expired remittance, or any while the contract is paused, cannot be paid out in full or settled, but in
  parts it can: `confirm_partial_payout` looks at neither (`Confirmability.PartialConfirmsIff`).
- The agent's minimum reputation, the token whitelist and the corridor cap are enforced on single
  creations only: an entry they refuse is accepted as a batch of one (`BatchCreation.ScreeningSkipped`).
- The tiered strategy is meant to discount larger amounts; at a tier boundary a larger amount pays less
  (`FeeSchedule.TierDrops`), though within a tier it never does.
- A governance proposal is only approved by a vote that reaches the quorum; if the quorum drops
  below the count afterwards and everybody has voted, it is stuck (`GovernanceLaws.StuckProposalReachable`).
- A migration in progress is documented to block normal operations. Creation, batch creation and
  confirmation are refused while the lock is up; no other modelled step depends on it, not even creation
  along a route (`MigrationLock.OnlyThreeBlocked`).
- If the quorum for lifting a pause is lowered to the votes already cast, voting can no longer lift the
  pause; an admin still can, after the timelock (`CircuitBreakerLaws.EnoughVotesButPaused`).
- A late multi-signature approval is meant to remove the operation; the failing call undoes the
  removal (`Multisig.LateApprovalChangesNothing`).
- A fee withdrawal through the multi-signature module may name the contract itself; the fees then
  stay in the contract unaccounted (`LedgerLaws.ExecuteWithdrawalLaw`).

## Model

| member | source | states |
|---|---|---|
| LedgerRuns.Conservation | src/lib.rs:432-1447 | over every run of the modelled entry points the invariant holds, records only move forward, and balance − open remittances − locked escrows − fees equals its first value plus the gains of the successful steps |
| TokenSupply.SupplyConserved | src/lib.rs:432-2546 | over every run, of whatever calls, the balances of all addresses keep their sum |
| LedgerRuns.Solvent | src/lib.rs:2035-2546 | from initialization, without shortfall steps: the balance covers open amounts less payouts, locked escrows and fees, the residue never shrinks, and fees stay in [0, MAX_FEES] |
| LedgerRuns.LosesIffShortfall | src/lib.rs:997-1217 | a successful step loses money if and only if it reports a failure after a partial payout, or completes partial payouts with a stored fee above the recomputed platform and protocol fee |
| LedgerRuns.GainNonNegative | src/lib.rs:2389-2546 | every other step, batch settlement included, adds to the residue or leaves it unchanged |
| LedgerRuns.RefundsSucceed | src/lib.rs:1284-1327 | in a solvent state no cancellation, escrow refund or fee withdrawal can fail for lack of tokens |
| LedgerRuns.ReleasesSucceed | src/lib.rs:2083-2107 | nor can an escrow release, or a failure report on a remittance that is still pending |
| LedgerRuns.LateFailureSucceeds | src/lib.rs:997-1046 | a failure report after partial payouts succeeds if the residue covers what has been disbursed |
| LedgerRuns.ExpiryBatchesSucceed | src/lib.rs:1334-1407 | in a solvent state an expiry batch, of remittances or of escrows, is refused for its size only: no refund in it can fail |
| LedgerRuns.StepEffect | src/lib.rs:432-1447 | each successful entry point keeps the invariant and changes the residue by exactly its gain |
| LedgerRuns.InitialOk | src/lib.rs:259-302 | initialization establishes the invariant; the residue is what the contract already held |
| Payments.StepPays | src/lib.rs:824-1217 | each successful step changes the balance of every address outside the contract by exactly the amounts due to or from it |
| Payments.ConfirmTo | src/lib.rs:940-954 | a payout gives the agent the net amount and the treasury the protocol fee plus flushed fees, nobody else anything |
| Payments.BatchSettleTo | src/lib.rs:2462-2527 | a settled batch gives every address the net payouts addressed to it, and the treasury a flush of fees above the cap |
| Analytics.CompletedVolumeExact | src/storage.rs:1582-1598 | over every run the completed volume grows by exactly the amounts of the remittances that payouts complete |
| Analytics.ProcessingVolumeExact | src/lib.rs:1172-1209 | in every reachable state the processing volume is the sum of the amounts in processing |
| Shortfalls.FailureAfterPayout | src/lib.rs:997-1046 | a run after which the contract is 50 short and another sender's refund fails |
| Shortfalls.StaleFee | src/lib.rs:1142-1217 | a run after which the accumulated fees exceed the balance and cannot be withdrawn |
| LedgerLaws.CreateLaw | src/lib.rs:432-581 | creation books exactly what it brings in |
| LedgerLaws.CreateWithCorridorLaw | src/lib.rs:587-659 | so does creation along a country route |
| LedgerLaws.BatchCreateLaw | src/lib.rs:690-797 | so does a batch, whose deposit is the sum of its entries |
| LedgerLaws.ConfirmLaw | src/lib.rs:824-995 | a payout completes the record and moves exactly its amount: net amount, protocol fee and stored fee |
| LedgerLaws.ConfirmPartialLaw | src/lib.rs:1142-1217 | a partial payout adds to the disbursed total, completes exactly when it reaches the net amount, and then leaves the recomputed fees less the stored fee |
| LedgerLaws.MarkFailedLaw | src/lib.rs:997-1046 | a failure report cancels the record and loses exactly what had been disbursed |
| LedgerLaws.CancelLaw | src/lib.rs:1284-1327 | cancelling refunds exactly what is owed |
| LedgerLaws.ExpireAllLaw | src/lib.rs:1334-1407 | an expiry batch refunds exactly what is owed |
| LedgerLaws.WithdrawFeesLaw | src/lib.rs:1429-1447 | a withdrawal pays out exactly the accumulated fees |
| LedgerLaws.ExecuteWithdrawalLaw | src/multisig.rs:186-197 | a multi-signature withdrawal does so too, except that fees sent to the contract itself become residue |
| LedgerLaws.SafeAddFeeLaw | src/fee_management.rs:67-105 | adding a fee keeps fees in [0, MAX_FEES] and accounts for the flush |
| LedgerLaws.PreviewExact | src/fee_management.rs:129-143 | the flush preview is true exactly when adding the fee sends the collected fees away |
| LedgerLaws.CreateEscrowLaw | src/lib.rs:2035-2081 | an escrow books exactly what it brings in, and stores the sender, the recipient, the amount and the expiry that the call and the time to live give |
| LedgerLaws.ReleaseEscrowLaw | src/lib.rs:2083-2107 | a release pays out exactly the locked amount |
| LedgerLaws.RefundEscrowLaw | src/lib.rs:2109-2132 | so does a refund |
| LedgerLaws.ExpireEscrowsLaw | src/lib.rs:2150-2197 | so does every refund of an expiry batch |
| LedgerLaws.DisputesUnreachable | src/lib.rs:1048-1117 | in every reachable state raising and resolving a dispute fail |
| Confirmability.StoredAgainstRecomputed | src/fee_service.rs:116-222 | for every strategy the fee stored at creation differs from the recomputed one if and only if the strategy is a percentage whose discounted token rate and plain rate round to different fees |
| Confirmability.RefusedIff | src/lib.rs:919-929 | its other guards passing, a payout is refused as an invalid amount if and only if the stored fee is not the recomputed one |
| Confirmability.ConfirmsIff | src/lib.rs:824-995 | in a solvent state a payout succeeds if and only if neither migration nor pause is on, the remittance is pending, unsettled and not past its expiry, the caller is its registered agent, the fees match, the fee is within the cap and the volume counters fit |
| Confirmability.ExpiredIff | src/validation.rs:68-76 | a payout is refused as expired if and only if no migration or pause is on and the remittance is pending with an expiry before the present time |
| Confirmability.PricedConfirmsIff | src/lib.rs:824-995 | so in a solvent state a remittance priced under the current configuration is paid out if and only if the two rates give the same fee, the breakdown succeeds, and cap and counter are not exceeded |
| Confirmability.CreatedRefusedIff | src/lib.rs:432-581 | after any run that left it pending and the fee configuration unchanged, a created remittance is refused exactly when the rate with the sender's discount and the plain rate round to different fees |
| Confirmability.BatchRefusedIff | src/lib.rs:690-797 | the same for the i-th remittance of a batch, whose volume counts the entries before it |
| Confirmability.RouteRefusedIff | src/lib.rs:587-659 | the same along a route: refused exactly when the fee of the route's strategy, with token rate and discount where it is a percentage, is not that of the global strategy |
| Confirmability.GlobalChargesDiffer | src/fee_service.rs:319-351 | without a route that condition is the one on the two rates |
| Confirmability.PartialConfirmsIff | src/lib.rs:1142-1217 | in a solvent state a partial payout succeeds if and only if its agent is registered, the remittance is open, the amount is positive and within what is left of the net amount and, if it completes, the fee cap and the counter allow that |
| Examples.Unconfirmable | src/lib.rs:919-929 | a run: at 250 basis points a payment of 10,000 is created with fee 150 and its payout refused |
| Examples.UnconfirmableOnRoute | src/lib.rs:602-614 | a run: a payment of 1,000 along a route with a flat fee of 5 is refused although the two rates agree, since the payout recomputes 25 |
| FeeVotes.StoredFeeChangesIff | src/fee_service.rs:313-351 | a new platform rate changes the fee stored at creation if and only if the strategy goes by rate, the token has none of its own, and the discounted fees at the two rates differ |
| FeeVotes.RecomputedFeeChangesIff | src/fee_service.rs:165-222 | it changes the recomputed fee if and only if the strategy is the corridor one and the fees at the two rates differ |
| FeeVotes.VoteWithoutEffect | src/governance.rs:356-361 | with a rate for the token an adopted update changes no fee at creation, on its own, in a batch or along any route, and under a percentage strategy none at payout |
| FeeVotes.VoteSplitsFees | src/governance.rs:356-361 | without one, under a percentage strategy, what is created afterwards is refused at payout exactly when the adopted rate, discounted, and the strategy's rate give different fees |
| Examples.UnconfirmableAfterVote | src/lib.rs:919-929 | a run: after the platform rate is raised to 500 a payment of 1,000 stores a fee of 50, and its payout recomputes 25 |
| BatchSettlement.BatchSettleLaw | src/lib.rs:2389-2546 | batch settlement keeps the invariant; the residue grows by the offset amounts and by payments to the contract itself |
| BatchSettlement.SettleAllRecords | src/lib.rs:2530-2543 | exactly the loaded records are completed, all others are unchanged |
| BatchSettlement.LoadBatchLaw | src/lib.rs:2407-2449 | a loaded batch is distinct, pending and unsettled |
| BatchSettlement.LoadsIff | src/lib.rs:2407-2449 | a batch loads if and only if its ids are all different and each is pending, unsettled and not past its expiry |
| BatchSettlement.ExpiredBatchIff | src/lib.rs:2407-2449 | it is refused as expired if and only if the first id that stops it is past its expiry |
| BatchSettlement.FullOffsetRefused | src/netting.rs:192-243 | the case of the next row that the documentation names: a batch with a fully offset pair is refused |
| SettlementSuccess.BatchSettlesIff | src/lib.rs:2389-2546 | in a solvent state a batch is settled if and only if the contract is not paused, the batch has 1 to 50 ids and loads, every sum of netting, validation and the fee total fits, and every pair's net covers its fees |
| SettlementSuccess.BatchSettlesIffPairsPay | src/lib.rs:2389-2546 | with a balance within i128 the sums need no mention |
| SettlementSuccess.LoadedInAnyOrder | src/netting.rs:105-121 | in such a state, with no fee above its amount, no order of a loaded batch overflows |
| Examples.OppositeSettledIff | src/lib.rs:2484-2493 | runs: of two opposite payments of 100 and x, for every x, the batch is settled if and only if the difference covers both fees |
| Examples.OffsetExamples | src/lib.rs:2389-2546 | at x = 100, a full offset, and at 99, a near one, the batch is refused; at 90 it is settled |
| RemittanceLives.TerminalForever | src/types.rs:64-91 | a completed or cancelled remittance keeps record, payouts and flag in every continuation |
| RemittanceLives.AtMostFourChanges | src/types.rs:72-91 | every change of status raises a rank, so there are at most four over any run |
| RemittanceLives.SettledExactly | src/storage.rs:647-661 | in every reachable state the settlement flag is set exactly for completed ids |
| RemittanceLives.TerminalRefused | src/validation.rs:140-169 | no entry point settles, pays or refunds an id that has ended |
| RemittanceLives.ExpiredOnce | src/lib.rs:1346-1404 | the refunded ids are exactly those listed that are pending with an expiry before the present time, each once |
| RemittanceLives.ExpiryExact | src/lib.rs:1359-1383 | a record is left cancelled exactly if it is listed, pending and past its expiry, and otherwise unchanged |
| RemittanceLives.ExpiredRefunds | src/lib.rs:1368-1378 | every sender receives the sum of the refunded amounts, and nothing else moves |
| Origins.RecordsAreCreations | src/lib.rs:432-797 | over every run there are as many records as accepted entries of all three creation entry points, and the n-th has the sender, agent, amount and dates of the n-th entry; only a refund on request zeroes the amount |
| RemittanceSteps.StepRecord | src/lib.rs:824-1407 | the exact record of every remittance after every step: only steps that name it change it, to the stated status, and nothing but status and amount changes |
| RemittanceSteps.RefundsWhoSent | src/lib.rs:997-1046 | in every reachable state a cancellation or failure report on a pending remittance pays its created amount to its creator and nothing to anybody else |
| RemittanceSteps.PaysWhoWasNamed | src/lib.rs:824-995 | a payout goes through only for the agent named at creation, not after the expiry named there, and pays that agent the net of the created amount |
| RemittanceSteps.ExpiresAsNamed | src/lib.rs:1359-1366 | an expiry batch refunds a pending remittance it lists exactly after the expiry named at creation |
| EscrowLives.EscrowsExpiredOnce | src/lib.rs:2150-2197 | the refunded escrows are exactly those listed that are locked with an expiry before the present time, each once |
| EscrowLives.StepEscrow | src/lib.rs:2035-2197 | a release, a refund and an expiry batch after the expiry end a locked escrow, with the stated status; nothing else changes any |
| EscrowLives.EscrowsAreCreations | src/lib.rs:2035-2081 | over every run the n-th escrow has the parties and amount of the n-th accepted creation, and the expiry of the time to live then in force |
| EscrowLives.PaysWhoWasNamed | src/lib.rs:2083-2132 | after a creation and any run that leaves the escrow locked, a release pays the amount to the recipient named there, a refund to the sender, and neither pays anybody else |
| EscrowLives.ExpiresForWhoWasNamed | src/lib.rs:2150-2197 | an expiry batch that lists it refunds it exactly if the time to live of its creation has passed, and then the sender gets the amount back |
| VolumeRuns.VolumesAreCreations | src/storage.rs:873-923 | over every run a sender's stored buckets are the replay of all entries accepted from that sender |
| VolumeRuns.DiscountVolume | src/storage.rs:858-871 | so the volume that sets the discount lies between what was accepted in the last 29 and in the last 30 days |
| Admission.CancelIff | src/lib.rs:1284-1327 | in a solvent state a cancellation succeeds if and only if it is admitted and the remittance is pending |
| Admission.MarkFailedIff | src/lib.rs:997-1046 | a failure report if and only if the agent is registered and the remittance pending, or in processing with the tokens there |
| Admission.WithdrawalIff | src/lib.rs:1429-1447 | a withdrawal if and only if there are fees; the plain one not to the contract itself |
| Admission.FlushIff | src/fee_management.rs:170-198 | a flush refuses a negative amount, does nothing for zero, and otherwise needs the tokens |
| Admission.AddFeeExactly | src/fee_management.rs:67-105 | a fee is booked on top of those collected up to the cap, takes their place after a flush beyond it, and is refused if it is negative or above the cap itself |
| Admission.CreateEscrowIff | src/lib.rs:2035-2081 | an escrow if and only if the sender has the positive amount and id and expiry fit 64 bits |
| Admission.EscrowEndsIff | src/lib.rs:2083-2132 | a release or refund if and only if the escrow is locked |
| Admission.CreateIff | src/lib.rs:432-581 | a single creation if and only if no migration runs, the parties are acceptable, the window with the amount is within the global limit, there is a fee, and the deposit can be made and recorded |
| Admission.CreateWithCorridorIff | src/lib.rs:587-659 | the same along a route, whatever the migration lock, with the limit of the destination country |
| Admission.BatchCreateIff | src/lib.rs:690-797 | the same for 1 to 100 entries, with their total |
| Admission.RaiseIff | src/lib.rs:1048-1076 | on any stored record: a dispute is raised if and only if the remittance is failed and the window after the failure is open |
| Admission.ResolvePaysSender | src/lib.rs:1083-1117 | a dispute resolved for the sender pays the sender in full |
| Admission.ResolvePaysAgent | src/lib.rs:1083-1117 | one resolved for the agent pays the agent net of the fees of the token |
| Types.TransitionsClimb | src/transitions.rs:31-45 | validated transitions climb and never leave a terminal status |
| Types.AllowedTransitions | src/transitions.rs:31-86 | exactly seven changes of status pass, and leaving it as it is |
| BatchCreation.BatchRefinesSingles | src/lib.rs:690-797 | at a non-zero time creating the entries in turn, each with its own verdict of the checks that only single creation makes, succeeds if and only if the batch does, every verdict is positive and, with no limit configured, the window total fits an i128; the ids, records, fees, volumes and balances are the same, and the transfer lists have equal totals for every corridor and window |
| BatchCreation.ScreeningSkipped | src/lib.rs:447-467 | an entry that only those checks refuse is accepted as a batch of one |
| Examples.BatchPassesSingleRefused | src/lib.rs:447-455 | a state and an entry for which this happens |
| BatchCreation.Lockstep | src/fee_service.rs:116-149 | with a negative verdict the single creations fail; otherwise after any number of entries both runs agree on success, records, cumulative volume and limit total |
| BatchCreation.LimitsAgree | src/lib.rs:717-721 | the batch's one limit check passes, its sums fitting, exactly when every single check would |
| BatchCreation.TimeZeroDiffers | src/lib.rs:139-155 | at time zero entries pass one by one although their total exceeds the limit |
| BatchCreation.EnforceIff | src/lib.rs:131-175 | the daily-limit check passes exactly when the window total fits and, plus the amount, is within a configured limit |
| Histories.BatchRefinesInRuns | src/lib.rs:690-797 | the refinement in every reachable state |
| Histories.RunHistories | src/storage.rs:873-924 | in every time-ordered run all stored histories are well formed |
| Contract.RemittanceContract.Invoke | src/lib.rs:432-1447 | the class does what the specification of each step says, and a failed step leaves everything unchanged |
| Contract.RemittanceContract.constructor | src/lib.rs:259-302 | the initial stored state |
| Contract.RemittanceContract.CreateRemittance | src/lib.rs:432-581 | result and new state are those of `Create` |
| Contract.RemittanceContract.CreateRemittanceWithCorridor | src/lib.rs:587-659 | result and new state are those of `CreateWithCorridor` |
| Contract.RemittanceContract.BatchCreateRemittances | src/lib.rs:690-797 | result and new state are those of `BatchCreate` |
| Contract.RemittanceContract.ConfirmPayout | src/lib.rs:824-995 | result and new state are those of `Confirm` |
| Contract.RemittanceContract.ConfirmPartialPayout | src/lib.rs:1142-1217 | result and new state are those of `ConfirmPartial` |
| Contract.RemittanceContract.MarkRemittanceFailed | src/lib.rs:997-1046 | result and new state are those of `MarkFailed` |
| Contract.RemittanceContract.CancelRemittance | src/lib.rs:1284-1327 | result and new state are those of `Cancel` |
| Contract.RemittanceContract.ProcessExpiredRemittances | src/lib.rs:1334-1407 | the loop refunds and lists what `ProcessExpired` says |
| Contract.RemittanceContract.RaiseRemittanceDispute | src/lib.rs:1048-1076 | result and new state are those of `RaiseDispute` |
| Contract.RemittanceContract.ResolveRemittanceDispute | src/lib.rs:1078-1117 | result and new state are those of `ResolveDispute` |
| Contract.RemittanceContract.BatchSettleWithNetting | src/lib.rs:2389-2546 | loading, netting, validation, payments, fees and completion together give `BatchSettle` |
| Contract.RemittanceContract.ExecuteTransfers | src/lib.rs:2462-2514 | the transfer loop pays and totals what `PayNets` says |
| Contract.RemittanceContract.WithdrawAccumulatedFees | src/lib.rs:1429-1447 | result and new state are those of `WithdrawFees` |
| Contract.RemittanceContract.ExecuteFeeWithdrawal | src/multisig.rs:186-197 | result and new state are those of `ExecuteWithdrawal` |
| Contract.RemittanceContract.SafeAddAccumulatedFee | src/fee_management.rs:67-105 | result and new state are those of `SafeAddFee` |
| Contract.RemittanceContract.TriggerFlush | src/fee_management.rs:170-203 | result and new state are those of `Flush` |
| Contract.RemittanceContract.OpenEscrow | src/lib.rs:2035-2081 | result and new state are those of `CreateEscrow` |
| Contract.RemittanceContract.ReleaseLockedEscrow | src/lib.rs:2083-2107 | result and new state are those of `ReleaseEscrow` |
| Contract.RemittanceContract.RefundLockedEscrow | src/lib.rs:2109-2132 | result and new state are those of `RefundEscrow` |
| Contract.RemittanceContract.RefundExpiredEscrows | src/lib.rs:2150-2197 | the loop refunds and lists what `ProcessExpiredEscrows` says |
| Netting.ComputeNetSettlements | src/netting.rs:71-145 | the result is one transfer for each pair with a non-zero net, in key order, with the skipped ids; batches over 50 are refused and an overflowing unchecked sum traps |
| Netting.AccumulateNets | src/netting.rs:105-121 | the accumulation loop yields every pair's signed sum and fee sum, or traps exactly when a partial sum leaves i128 |
| NettingLaws.PositionsPreserved | src/netting.rs:71-145 | for every address, inflow minus outflow over the net transfers equals that over the pending remittances |
| NettingLaws.OrderIndependent | src/netting.rs:71-161 | any permutation of the batch gives the identical list of net transfers |
| NettingLaws.TransfersExact | src/netting.rs:122-140 | exactly the pairs with a non-zero net get a transfer, each one, in increasing order |
| NettingLaws.VolumeNeverGrows | src/netting.rs:105-144 | the net amounts add up to at most the pending amounts |
| NettingLaws.FeesAccounted | src/netting.rs:105-144 | emitted fees are the pending fees less those of fully offset pairs |
| NettingLaws.ValidateNetSettlement | src/netting.rs:192-243 | both loops compute the checked totals, and the result is their comparison |
| NettingLaws.ValidationMeaning | src/netting.rs:192-243 | validation accepts if and only if all partial sums fit an i128 and the fee totals agree |
| NettingLaws.ValidationExact | src/netting.rs:192-243 | netting's own output is accepted if and only if the sums fit and the dropped fees total zero |
| NettingLaws.AccumulationSafe | src/netting.rs:105-121 | at most 50 amounts and fees of at most MAX/50 cannot overflow the unchecked sums |
| NettingLaws.OrderNeverMatters | src/netting.rs:71-161 | within those bounds every permutation of a batch is accumulated without overflow and gives the same transfers and skipped ids |
| NettingLaws.OrderCanDecide | src/netting.rs:105-121 | beyond them one order of three flows, with positive fees, overflows and another does not |
| NettingOrders.AllOrdersFitIff | src/netting.rs:105-121 | no order of non-negative flows overflows if and only if for every pair the forward sum, the backward sum and the fee sum each fit an i128 |
| NetPayments.PaysWhatIsOwed | src/netting.rs:105-140 | of any two different parties one is paid by the other if and only if the other's pending remittances to it exceed its own, the transfer is the excess, and it carries the fees of all those between the two |
| NettingLaws.BoundedBatchValidates | src/netting.rs:71-243 | within those bounds netting succeeds and validates exactly when no fee is dropped |
| SenderVolume.GetSenderRollingVolume | src/storage.rs:858-871 | the loop returns the saturating sum of the buckets in the window |
| SenderVolume.RecordSenderVolume | src/storage.rs:873-924 | the loop prunes and adds as `Record` says |
| SenderVolume.ReplayAgrees | src/storage.rs:873-924 | in every run the buckets answer each later query as the unpruned log would, and strictly increase |
| SenderVolume.FewBuckets | src/storage.rs:873-924 | at most 31 buckets are stored |
| SenderVolume.RollingBetween | src/storage.rs:858-924 | for any query time the result lies between the true volume of the last 29 and of the last 30 days |
| SenderVolume.RecordRaisesRolling | src/storage.rs:873-924 | recording a transfer raises the rolling volume by exactly its amount |
| DailyLimit.EnforceDailySendLimit | src/lib.rs:131-175 | the loop prunes, totals and checks as `Enforce` says |
| DailyLimit.RollingTotalIsTrue | src/lib.rs:131-155 | the total from the pruned list is the total of the full accepted history in the window |
| DailyLimit.WindowNeverExceeds | src/lib.rs:157-174 | while the configured limit, which may change, is never above a bound, no window of the corridor sums to more |
| DailyLimit.LimitHolds | src/lib.rs:131-175 | with positive timestamps that is every window (t − 86400, t] |
| DailyLimit.LimitFailsAtTimeZero | src/lib.rs:139-155 | at time zero two requests of the full limit are both accepted |
| DailyLimit.HoldsIffPastZero | src/lib.rs:139-155 | the limit holds for every accepted log that starts at a given time or later if and only if that time is not zero |
| SendLimits.RunExplains | src/lib.rs:131-175 | in every time-ordered run a sender's stored transfers are the replay of the accepted creations, each in the corridor of its destination country, a batch counting once with its total |
| SendLimits.NoWindowExceeds | src/lib.rs:131-175 | so over every run, through whichever entry points a sender creates, no 24 hours of a corridor exceed the largest limit in force |
| SendLimits.CountryLimit | src/lib.rs:600-604 | a creation towards a country succeeds only within the limit of that country and is recorded there, once; one that is over it is refused for that |
| SendLimits.GlobalLimit | src/lib.rs:466-471 | without a destination the global limit holds in the same way |
| SendLimits.RouteWithinLimit | src/lib.rs:600-604 | in every reachable state a creation towards a country succeeds only if all that was accepted towards it in the last 24 hours and the new amount are within its limit |
| SlidingWindow.SlidingLimiter.CheckRateLimit | src/abuse_protection.rs:65-95 | result and stored entry are those of `Check` |
| SlidingWindow.FilterTimestampsInWindow | src/rate_limit.rs:226-235 | keeps exactly the timestamps in the window |
| SlidingWindow.CountTimestampsInWindow | src/rate_limit.rs:238-246 | counts them |
| SlidingWindow.StoredExactly | src/abuse_protection.rs:65-95 | after a request the stored timestamps are exactly the accepted requests in the window, and the stored count and window start are theirs |
| SlidingWindow.RejectedIffFull | src/abuse_protection.rs:65-95 | a request is rejected if and only if the window already holds the maximum |
| SlidingWindow.NeverLimited | src/abuse_protection.rs:65-72 | administrators are never limited and nothing is stored for them |
| SlidingWindow.WindowBound | src/abuse_protection.rs:65-95 | every closed 60-second window of every run holds at most the maximum |
| TumblingWindow.TumblingLimiter.CheckRateLimit | src/rate_limit.rs:95-147 | result and stored entry are those of `Check` |
| TumblingWindow.RunKeepsInv | src/rate_limit.rs:95-147 | each stored window accepts at most the maximum, even while the cooldown halves it |
| TumblingWindow.AcceptedIff | src/rate_limit.rs:95-147 | in every run a request is accepted if and only if the last window is over, and then starts one, or has accepted fewer than the limit of the moment: all of it, or half during the cooldown |
| TumblingWindow.HalvedInCooldown | src/rate_limit.rs:95-147 | a window that lies wholly in the cooldown accepts at most the halved maximum |
| TumblingWindow.IntervalBound | src/rate_limit.rs:95-147 | any closed interval of one window length holds at most twice the maximum |
| Governance.GovernanceStore.DoPropose | src/governance.rs:55-171 | result and new state are those of `Propose`, an error stores nothing |
| Governance.GovernanceStore.DoVote | src/governance.rs:176-209 | result and new state are those of `CastVote` |
| Governance.GovernanceStore.DoExecute | src/governance.rs:212-239 | result and new state are those of `Execute` |
| Governance.GovernanceStore.DispatchAction | src/governance.rs:350-444 | result and new state are those of `Dispatch` |
| Governance.GovernanceStore.DoExpire | src/governance.rs:245-271 | result and new state are those of `Expire` |
| Governance.GovernanceStore.DoMigrate | src/governance.rs:277-308 | result and new state are those of `Migrate` |
| Governance.GovernanceStore.CleanupExpiredProposals | src/governance.rs:320-344 | the loop removes what `Cleanup` says |
| GovernanceLaws.QuorumAttainable | src/governance.rs:277-413 | in every run 1 ≤ quorum ≤ stored admin count ≤ number of admins |
| GovernanceLaws.ExecutedOnceAfterTimelock | src/governance.rs:176-239 | each id executes at most once, not before approval time plus the timelock in force then, and after at least a quorum of distinct votes |
| GovernanceLaws.FeeGuardExact | src/governance.rs:55-271 | the active fee proposal is stored exactly while it is the unique live fee update |
| GovernanceLaws.CountIsVoters | src/governance.rs:176-209 | the approval count is the number of distinct recorded voters |
| GovernanceLaws.ApprovableIffFresh | src/governance.rs:176-209 | a pending proposal can be voted through if and only if some current admin has not voted on it |
| GovernanceLaws.StuckProposalReachable | src/governance.rs:176-413 | a run that leaves a proposal pending with its quorum met and no vote left |
| GovernanceEffects.SettingsAreVotes | src/governance.rs:350-444 | over every run an address is a registered agent if and only if the last executed registration or removal of it was a registration, an admin likewise, and fee, cooldown, reputation threshold, tokens, quorum and timelock are what the last change of each left; admin count, admin list and legacy admin follow |
| GovernanceEffects.ProposalsAreCalls | src/governance.rs:55-171 | every stored proposal was made by an admin's call, with that call's action and time and the lifetime then in force |
| GovernanceEffects.ExecutedWasProposed | src/governance.rs:212-239 | so the executed action is one that an admin proposed under that id |
| GovernanceGuards.ProposesIff | src/governance.rs:55-171 | in every reachable state a proposal is accepted if and only if it comes from an admin, the contract is not paused, and the action is one that can be proposed |
| GovernanceGuards.VotesIff | src/governance.rs:176-209 | a vote if and only if an admin casts it, once, on a pending proposal; it is recorded, and approves at the quorum |
| GovernanceGuards.ExecutesIff | src/governance.rs:212-239 | an execution if and only if an admin asks for it, the proposal is approved and past its timelock, and its action can still be carried out |
| GovernanceGuards.ExpiresIff | src/governance.rs:245-271 | a proposal is removed if and only if it is pending or approved and its lifetime is over |
| GovernanceGuards.CleansExactly | src/governance.rs:320-344 | a cleanup removes exactly the finished proposals it lists |
| GovernanceGuards.MigratesIff | src/governance.rs:277-308 | the setup succeeds if and only if the legacy admin makes it, once, with an attainable quorum |
| CircuitBreaker.Breaker.DoEmergencyPause | src/circuit_breaker.rs:38-84 | result and new state are those of `Pause` |
| CircuitBreaker.Breaker.DoEmergencyUnpause | src/circuit_breaker.rs:100-162 | result and new state are those of `Unpause` |
| CircuitBreaker.Breaker.DoVoteUnpause | src/circuit_breaker.rs:175-210 | result and new state are those of `VoteUnpause` |
| CircuitBreakerLaws.PausedIffLatestActive | src/circuit_breaker.rs:38-162 | paused holds exactly when the latest pause is active, and its record then exists |
| CircuitBreakerLaws.TimelockNeverSkipped | src/circuit_breaker.rs:100-140 | in reachable states the nested optional lookup blocks exactly when the timelock has not passed |
| CircuitBreakerLaws.GatedUnpauseSafe | src/circuit_breaker.rs:100-210 | every unpause but the legacy one came after the full timelock with at least quorum distinct votes for that pause |
| CircuitBreakerLaws.PausedBelowQuorum | src/circuit_breaker.rs:175-210 | while the quorum is not lowered a paused contract has fewer votes than the quorum |
| CircuitBreakerLaws.LoweringIff | src/lib.rs:1971-1984 | lowering the quorum breaks that exactly when the votes already reach the new one |
| CircuitBreakerLaws.EnoughVotesButPaused | src/circuit_breaker.rs:100-210 | then, in every run, each further vote is refused and an admin can lift the pause exactly once the timelock has passed |
| CircuitBreakerLaws.LoweredQuorumExample | src/circuit_breaker.rs:38-210 | a run from initialization that gets there |
| BreakerEffects.KeysTellTheRun | src/circuit_breaker.rs:38-162 | over every run the n-th pause record is that of the n-th accepted pause, paused means that the latest pause was not lifted, each is lifted at most once, the last unpause time is that of the last one lifted, and the settings are the last accepted ones |
| BreakerEffects.AcceptedIff | src/circuit_breaker.rs:38-162 | an admin may pause exactly while the contract is not paused, and lift the pause exactly after the timelock with a quorum of votes |
| BreakerEffects.VoteIff | src/circuit_breaker.rs:175-210 | a vote is accepted exactly from an admin who has not voted, below the quorum; it counts once, and lifts the pause if it reaches the quorum |
| BreakerEffects.SettersIff | src/lib.rs:1950-1984 | only admins change timelock, cooldown and quorum, within their bounds |
| Multisig.MultisigStore.ProposeOperation | src/multisig.rs:72-112 | result and new state are those of `Propose`, an error stores nothing |
| Multisig.MultisigStore.ApproveOperation | src/multisig.rs:118-155 | result and new state are those of `Approve` |
| Multisig.MultisigStore.ExpireOperation | src/multisig.rs:161-173 | result and new state are those of `Expire` |
| Multisig.MultisigStore.SetMultisigConfig | src/multisig.rs:45-63 | result and new state are those of `Configure` |
| Multisig.ExecutedOnceByThreshold | src/multisig.rs:72-206 | over every run an operation executes at most once, in its lifetime, with exactly the threshold's number of distinct approvals |
| Multisig.ApprovalsAreCalls | src/multisig.rs:118-155 | every counted approval was its own successful call by somebody who was an admin then |
| Multisig.LateApprovalChangesNothing | src/multisig.rs:127-132 | a late approval fails and leaves the operation stored; expiring it still works |
| MultisigEffects.HostIsOperations | src/multisig.rs:181-206 | over every run rate and strategy are those of the last executed fee update, the contract is paused exactly if the last executed pause or unpause was a pause, and the fees are gone after an executed withdrawal; only executed operations and the rest of the contract change them |
| MultisigEffects.HostIsExecutions | src/multisig.rs:181-206 | if nothing else does, they are what the recorded executions made of the first ones |
| MultisigEffects.OperationsAreCalls | src/multisig.rs:72-112 | every pending or executed operation was proposed by an admin's call, with that call's kind, rate and recipient and the threshold and lifetime of that moment |
| MultisigEffects.ProposesIff | src/multisig.rs:72-112 | a proposal is accepted if and only if it comes from an admin and, at a threshold of one, can be carried out |
| MultisigEffects.ApprovesIff | src/multisig.rs:118-155 | an approval if and only if an admin gives it, once, within the lifetime, and the operation can be carried out if it reaches the threshold |
| MultisigEffects.ExpiresIff | src/multisig.rs:161-173 | an operation is removed if and only if its lifetime is over |
| MultisigEffects.ConfiguresIff | src/multisig.rs:45-63 | an admin sets threshold and lifetime, neither to zero; pending operations keep theirs |
| FeeService.GetDiscountedFeeBps | src/fee_service.rs:298-311 | the tier search returns the lower of base rate and reached tier |
| FeeService.FeesWithBreakdown | src/fee_service.rs:165-222 | the parts of a breakdown are non-negative and add up to the amount |
| FeeService.BreakdownSucceeds | src/fee_service.rs:165-222 | within its domain the breakdown never fails |
| FeeService.PercentageMonotone | src/fee_service.rs:363-375 | percentage fees are monotone in amount and rate |
| FeeService.DynamicAtMostPercentage | src/fee_service.rs:379-398 | the tiered strategy never charges more than its base percentage |
| FeeService.SplittingSavesLittle | src/fee_service.rs:363-375 | splitting an amount into n parts lowers the percentage fee by at most n − 1 |
| FeeSchedule.StoredFee | src/fee_service.rs:134-149 | the fee of a creation in closed form: token rate or platform rate, 150 basis points from a volume of 10,000 on, tiers of 80% and 60%, flat fees, never below one |
| FeeSchedule.StoredFeeIff | src/fee_service.rs:363-410 | it exists for exactly the positive amounts whose product with the rate fits |
| FeeSchedule.SenderFee | src/fee_service.rs:116-132 | a single creation charges the same for the rolling volume and the new amount, whose sum is checked |
| FeeSchedule.PayoutFees | src/fee_service.rs:165-222 | platform fee, protocol fee and net amount of a payout in closed form, without token rate and discount |
| FeeSchedule.PayoutFeesIff | src/fee_service.rs:165-222 | they exist for exactly the positive amounts whose products fit and that cover both fees |
| FeeSchedule.RouteFeeIs | src/fee_service.rs:225-290 | the fee along a route is that of the route's strategy |
| FeeSchedule.RouteFeeIff | src/fee_service.rs:225-290 | it exists for exactly the positive amounts whose products fit and that cover both fees, if the country names fit the corridor id |
| FeeSchedule.ConsistentIff | src/fee_service.rs:52-72 | the check of a breakdown passes if and only if its parts are not negative and add up |
| FeeSchedule.TieredWithin | src/fee_service.rs:376-398 | where the rate does not fall the tiered fee grows with the amount |
| FeeSchedule.TierDrops | src/fee_service.rs:376-398 | one stroop more can lower it, at either tier boundary |
| Bytes.I128ToBigEndian | examples/settlement-id-generator.js:121-150 | the invert-and-carry writer produces v mod 2^128 big-endian for every i128 |
| Bytes.ResidueInjective | examples/settlement-id-generator.js:121-150 | those sixteen bytes determine the number |
| CanonicalEncoding.ComputeSettlementPreimage | src/hashing.rs:94-128 | the appended buffer is the concatenation of the six encoded fields |
| CanonicalEncoding.SettlementLayout | src/hashing.rs:94-128 | where each field stands: the id in the first eight bytes, the two addresses, amount and fee modulo 2^128 in sixteen each, the expiry or zero in the last eight |
| CanonicalEncoding.SettlementPreimageDetermines | src/hashing.rs:94-128 | for a prefix-free address encoding two pre-images are equal if and only if all fields are, an absent expiry counting as zero |
| CanonicalEncoding.TaggedUnionIsPrefixFree | src/hashing.rs:151-156 | a tagged union as in section 4.15 of RFC 4506 is prefix-free when the bodies of each case are |
| CanonicalEncoding.AddressesArePrefixFree | src/hashing.rs:151-156 | so is the layout of addresses: a value tag, a kind tag, for accounts a key tag, and 32 bytes |
| CanonicalEncoding.SettlementPreimagesOfAddresses | src/hashing.rs:94-156 | with that layout two pre-images are equal if and only if all fields are |
| CanonicalEncoding.ComputeRecipientPreimage | src/recipient_verification.rs:92-126 | the appended buffer is the tagged, length-prefixed form; over-long strings trap |
| CanonicalEncoding.RecipientLayout | src/recipient_verification.rs:92-126 | a one and the address, or a two and both strings after their lengths |
| CanonicalEncoding.RecipientPreimageDetermines | src/recipient_verification.rs:92-126 | two recipient pre-images are equal if and only if the details are |
| Migration.ExportBatch | src/migration.rs:627-661 | the loop exports what `Export` says |
| Migration.MigrationStore.ImportMigrationBatch | src/migration.rs:668-702 | result and new state are those of `Import`, an error stores nothing |
| Migration.MigrationStore.LockForExport | src/lib.rs:3174-3195 | result and new state are those of `Lock` |
| Migration.MigrationStore.AbortMigration | src/migration.rs:462-479 | result and new state are those of `Abort` |
| Migration.BatchesPartition | src/migration.rs:627-661 | the batches partition the ids 1 to the counter, in order, none repeated |
| Migration.RoundTrip | src/migration.rs:627-702 | exporting all batches and importing them in order reproduces the remittance map |
| Migration.OnlyExpectedBatch | src/migration.rs:668-684 | a batch is accepted if and only if it is the expected one and its digest is intact |
| Migration.RepeatedBatch | src/migration.rs:668-702 | an accepted batch is accepted again at once only if it was the whole migration |
| Migration.AllExportedIff | src/migration.rs:627-661 | exporting every batch succeeds if and only if the end of the last one fits 32 bits |
| Migration.TruncationLosesAll | src/migration.rs:636-641 | with a counter of 2^32 nothing can be exported |
| MigrationRuns.FlagUpIff | src/migration.rs:662-702 | over every run of exports, imports and aborts the lock is up if and only if a migration was begun, by an export or a first batch of several, and none was finished since, by a last batch or an abort |
| MigrationRuns.AbortIff | src/migration.rs:462-479 | an abort succeeds exactly then, keeps what was imported, and makes batch 0 expected again |
| MigrationRuns.ExpectedIsCount | src/migration.rs:668-702 | the batches imported since the last end are numbered 0, 1, .. and the next number is expected |
| MigrationRuns.FlagOfImports | src/migration.rs:668-702 | without exports the lock is up exactly between the first and the last batch |
| MigrationRuns.AcceptedAgainIff | src/migration.rs:668-702 | an already imported number is accepted again if and only if a migration has ended since and exactly that many batches were imported after it |
| MigrationRuns.MigrationBlocks | src/lib.rs:443-445 | while a migration is under way creation, batch creation and confirmation are refused |
| MigrationLock.RouteNotBlocked | src/lib.rs:587-659 | creation along a route succeeds or fails as it would without the lock |
| MigrationLock.OnlyThreeBlocked | src/lib.rs:432-2546 | of all steps of a run exactly those three: each is refused with the lock up, and whether any other succeeds does not depend on it |
| SettlementFlags.SettlementStore.LoadOrMigrate | src/storage.rs:602-644 | returned flags and rewritten records are those of `Load` |
| SettlementFlags.SettlementStore.SetSettlementHash | src/storage.rs:653-661 | the new records are those of `RaiseExecuted` |
| SettlementFlags.SettlementStore.SetSettlementEventEmitted | src/storage.rs:1071-1079 | the new records are those of `RaiseEmitted` |
| SettlementFlags.LoadMeaning | src/storage.rs:602-644 | a read never changes what the records of any id mean |
| SettlementFlags.PackedLayout | src/storage.rs:558-644 | bit 0 is the execution and bit 1 the event, and an unpacked id is read from the combined record or else from the two flags |
| SettlementFlags.LoadMoves | src/storage.rs:602-644 | the first read of an id packs it and removes what it was read from, and nothing else |
| SettlementFlags.SetMeaning | src/storage.rs:653-1079 | a set raises its own flag of its own id and nothing else |
| SettlementFlags.RefinesTwoBooleans | src/storage.rs:558-661 | over any sequence of reads and sets a flag is up exactly if it was at first or was set |

## Left out

- Authorization, roles, KYC, agent caps, cooldowns, payout proofs and recipient checks at payout: one accept-or-reject input (`Env.admit`); reputation, token whitelist, corridor cap and settlement configuration of single creations: another (`Env.screened`). Their order among the errors is not modelled.
- Idempotency keys: a repeated key returns the earlier id after the amount has already been recorded against the daily limit.
- Analytics counters other than processing and completed volume, agent statistics, indexes by sender and agent, events, logging, storage lifetimes.
- More than one token; the token's own i128 bound on balances.
- `confirm_batch_payout` is a run of `Confirm` steps; `create_batch_remittance` is `BatchCreate`; `withdraw_integrator_fees` always fails because nothing ever adds integrator fees.
- `add_processing_volume`, `sub_processing_volume`, `get_disbursed_amount` and `add_disbursed_amount` are modelled as checked additions, subtractions and lookups, in the style of `add_completed_volume` (src/storage.rs:1591-1598).
- Legacy admin entry points in governance runs, role assignments, multi-signature pausing in circuit-breaker runs.
- Import in ledger runs: it writes records without the accounting the other entry points keep. The migration lock itself is a setting there.
- SHA-256 and signatures: properties are about pre-images, and a batch digest is any function of the batch. That the Rust and JavaScript address bytes coincide is not claimed.
- `execute_transaction` and `retry_transaction` (src/lib.rs:3075-3100), which also take in tokens and store remittances, with a fee that may be zero; the rest of `src/transaction_controller.rs`, `src/contract_upgrade.rs`, asset verification, health, schema migration and rollback snapshots, the cooldown checks of `src/abuse_protection.rs`.
- Netting.ComputeNetSettlements: the host lists map keys in its own order of pairs; the model uses the order of the address text, which fixes one order independent of insertion as the host does.
- LedgerRuns.LosesIffShortfall: requires that the contract is neither an agent nor the treasury, since a payment to itself hides a loss; `LedgerRuns.GainNonNegative` does not.
- BatchCreation.BatchRefinesSingles: error codes of failing runs are not compared, and the count of created remittances, which only single creation increments, is not modelled.
- Contract.RemittanceContract.ConfirmPayout: the settlement flag is written with the completed record, not before the transfers; nothing can be observed between the two within one invocation.
- CircuitBreaker: the pause reasons are four names.
