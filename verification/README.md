# BlueSafe protocols, verified

A Dafny model of the stateful protocols behind BlueSafe, a rental-deposit service on the XRP
Ledger, with proofs about whole runs of them.

- **Verifier-panel disputes** (`PanelDraw`, `Ruling`, `DisputeProtocol`, `DisputeInvariants`,
  `DisputeRulings`, `DisputeLaws`, `DisputeService`). A roster of verifiers, a random panel per dispute, votes,
  a ruling, and a judgment that submits several ledger transactions. A judgment may be suspended
  at any of its awaits, other calls may run meanwhile, and any submission may fail.
- **Transaction tracking** (`TxTracking`, `TxInvariants`, `TxDelivery`, `TxPending`, `TxLaws`,
  `TxStore`, `DelayedJobs`, `PolicyWorker`, `PolicyDelays`, `PolicyLaws`, `PolicyLapse`). One tracked hash is written by
  tracking and execution requests, the stream, the policy worker, refreshes and backfills; a
  validated result settles the dispute waiting for it. Delayed jobs are leased to the policy
  worker.
- **Notification outbox and delivery** (`Outbox`, `OutboxInvariants`, `OutboxExact`,
  `OutboxRuns`, `OutboxPotential`, `OutboxRounds`, `OutboxDelays`, `OutboxLaws`, `OutboxStale`,
  `OutboxStore`). Idempotent
  enqueue, claim, dispatch, stale recovery, operator retry, and a second retrying worker in front
  of the provider.
- **Audit paging and CSV export** (`AuditStore`, `AuditPaging`, `AuditOrders`, `AuditCsv`).
- **Settlement accounting** on ledger closes (`Settlements`, with `Decimal`).
- **Token bucket**, **preimage conditions**, **monthly reconciler** (`TokenBucket`,
  `PreimageCondition`, `Reconciler`).

Each protocol is a state with step functions and a `Run` over a list of events; invariants are
proved for every run. What each operation does is also said over the records themselves, apart
from the step functions (the `Laws` modules and the lemmas named `...Meaning`). Where the service updates objects in place, a class with the same fields
and loops is proved to perform exactly these steps, so what holds of runs holds of the object.
`Common` holds the shared vocabulary. `dafny verify dfyconfig.toml` checks everything.

One step is one HTTP request, one repository call, or one worker step on one row, taken as
atomic. The exceptions are spelled out as separate events: a judgment at each await, an outbox
claim and its dispatch, a policy tick's listing, a policy job's claim and its work. Clocks,
random draws, fresh ids, provider and ledger answers are arguments of the steps and range over
all values.

Findings. Where code and comment disagree the model follows the code.

- The preimage encoder promises one-byte lengths for 1 to 127 bytes, but the outer length of
  the fulfillment is two larger: at 126 and 127 bytes it is no short form and the result is
  unreadable (`PreimageCondition.FulfillmentReadableIff`). Restoring the condition works for all
  127 lengths because the decoder never looks at that byte.
- Audit lists are sorted with `localeCompare` and cursors compared with `>`. Paging by a given
  size is exact if and only if the two agree at the page ends (`AuditOrders.WalkExactIff`), and
  for all sizes if and only if the sorted list ascends in the cursor's order. Ids "a" and "B"
  are a counterexample. The service itself stores ids of the form `aud_` and sixteen lower-case
  hex digits (services/be2-ops/src/utils.ts:9, services/be2-ops/src/utils.ts:78), so these two do
  not occur in it.
- `settlementDeterministicId` replaces every other character by an underscore, so two contract
  ids can share a row and one close then counts twice. The counts of a row stay right in all
  runs if and only if no other id in use sanitizes alike (`Settlements.RowCountsDistinctClosesIff`).
  This is about the function: the only place that creates contracts makes ids of letters,
  digits and underscore (services/be2-ops/src/index.ts:416), so the collision cannot be produced
  through `/v1/contracts`. The contracts-touched total equals the sum of the counts regardless.
- A dispatched outbox row is final if and only if no claim on it is still open
  (`OutboxExact.DispatchIsFinalIff`). A claim that goes stale stays open and can undo the
  dispatch (`OutboxStale.StaleClaimLosesDispatch`). Bijection, attempt bounds and dispatched
  content survive even that.
- Stale claims break the bound on notifications per row for every configuration
  (`OutboxStale.StaleClaimsBreakTheBound`). Until a row's next retry or recovery it holds if and
  only if the notifications made, and the attempts left to its open claims and to the row while
  it is pending, come to at most maxDispatchAttempts (`OutboxPotential.BoundHoldsIff`).
- After an operator retry, notifications of the rounds before may still be delivered, so the
  provider calls since the retry can exceed one round's bound (`OutboxStale.CallsCarryOver`).
  They do not if and only if, when the operator retries, no claim on the row is open and all it
  has caused is sent or dead-lettered (`OutboxRounds.RetryBoundIff`); over the life of a row the
  calls are bounded by the number of rounds (`OutboxExact.LifetimeCalls`).
- The policy worker's waits for one hash can shrink when a lease lapses: a late claim requeues
  with the attempts it remembers (`PolicyLapse.LapsedLeaseShrinks`). They never do if and only if
  no requeue is by such a claim (`PolicyDelays.DelaysNeverDecreaseIff`), and that is so when every
  claim is made before the leases of the open ones run out (`PolicyDelays.DelaysNeverDecrease`).
- A tick that listed a row before another tick gave it up recreates its job; that is the only way
  it comes back (`PolicyWorker.JobComesBackIff`, `PolicyLapse.StaleListingRecreatesJob`). It is
  then deleted without a probe.
- The reconciler pays a contract-month more than once exactly when two of its payments went
  unrecorded, or one did and it was paid and recorded later (`Reconciler.PaidTwiceIff`,
  `Reconciler.LostRecordPaysTwice`).
- The execution request applies the live status before it makes the dispute pending, so a
  pending dispute may already have a validated transaction (`TxPending.ExecuteMakesPending`). Only
  another validated report settles it; the policy worker passes it over
  (`TxPending.SettledByReportIff`, `TxPending.PolicyNeverSettles`).
- Reusing a hash for a second execution takes it from the first dispute, which then stays
  pending for good (`TxPending.KeepsHashIff`, `TxPending.SharedHashOrphans`).
- A report that is not validated takes a validated row back to pending validation
  (`TxPending.LosesValidationIff`). Dispute statuses are not touched by it
  (`TxDelivery.UnvalidatedReportsDoNotMatter`).
- A judgment of which one submission fails is stuck: the dispute is ruled, so it can be neither
  judged again nor withdrawn (`DisputeInvariants.FailedForGood`).

## Model

| member | source | states |
|---|---|---|
| `PanelDraw.PartialShuffle` | packages/xrpl-core/src/dispute/DisputeService.ts:175-180 | The in-place loop leaves the array equal to the recursive shuffle of its old contents, for every draw sequence in range. |
| `PanelDraw.SwapAt` | packages/xrpl-core/src/dispute/DisputeService.ts:178-178 | Exchanges two slots and nothing else. |
| `PanelDraw.ShuffledIsPermutation` | packages/xrpl-core/src/dispute/DisputeService.ts:160-181 | The array stays a permutation of the eligible pool. |
| `PanelDraw.PanelDistinct` | packages/xrpl-core/src/dispute/DisputeService.ts:160-181 | The panel holds distinct members of the pool. |
| `PanelDraw.EveryPanelIsDrawn` | packages/xrpl-core/src/dispute/DisputeService.ts:160-181 | Every ordered panel of pool members is reached by a draw sequence, and which one is computed. |
| `PanelDraw.PanelHasOneDraw` | packages/xrpl-core/src/dispute/DisputeService.ts:160-181 | Two draw sequences giving the same ordered panel are equal; with the previous row, draws and ordered panels are in bijection, so uniform draws give a uniform panel. |
| `Ruling.CountVotes` | packages/xrpl-core/src/dispute/DisputeService.ts:371-379 | The counting loop returns the cardinalities of the three sets of voters. |
| `Ruling.TallyTotal` | packages/xrpl-core/src/dispute/DisputeService.ts:371-379 | Every vote is counted for exactly one ruling. |
| `Ruling.TallyWithinPanel` | packages/xrpl-core/src/dispute/DisputeService.ts:183-191 | One vote per panel member: the tally never exceeds the panel. |
| `Ruling.OneMajority` | packages/xrpl-core/src/dispute/DisputeService.ts:272-279 | At most one ruling holds a majority, so the order of the checks is irrelevant. |
| `Ruling.RulingMeaning` | packages/xrpl-core/src/dispute/DisputeService.ts:272-285 | A majority decides at any time; the call throws exactly when voting is open and there is none; after the deadline tenant or landlord win exactly when strictly ahead of both others. |
| `Ruling.MajorityIsFinal` | packages/xrpl-core/src/dispute/DisputeService.ts:272-285 | A majority survives any further votes, equals the plurality result, and no later call comes out differently. |
| `DisputeLaws.PanelIsAvailable` | packages/xrpl-core/src/dispute/DisputeService.ts:160-181 | Said over the records: selection throws exactly when fewer than panelSize registered verifiers are active, not excluded by address, not of the excluded region and of no excluded brokerage; otherwise it returns panelSize distinct ones of these. |
| `DisputeLaws.SubmissionMeaning` | packages/xrpl-core/src/dispute/DisputeService.ts:117-152 | A dispute is accepted exactly from a lease party with enough such verifiers besides the two parties; it opens for seven days, without votes, and nothing else changes. |
| `DisputeLaws.RosterFollowsEvents` | packages/xrpl-core/src/dispute/DisputeService.ts:100-109 | After every run a verifier is active, with the region and brokerages of its first registration, exactly if it was registered and not deactivated since. |
| `DisputeLaws.DeactivatedIsNeverDrawn` | packages/xrpl-core/src/dispute/DisputeService.ts:160-181 | After a deactivation no dispute submitted in any continuation has the verifier on its panel. |
| `DisputeInvariants.SelectionMeaning` | packages/xrpl-core/src/dispute/DisputeService.ts:160-181 | Selection in the model’s own terms: as many distinct members of the pool as asked for, or a throw. |
| `DisputeInvariants.PanelIsNeutral` | packages/xrpl-core/src/dispute/DisputeService.ts:117-152 | The panel of a new dispute holds registered verifiers and neither party. |
| `DisputeInvariants.StepKeeps` | packages/xrpl-core/src/dispute/DisputeService.ts:100-268 | Every call, and every continuation of a suspended judgment whether its submission succeeds or fails, keeps the whole protocol invariant. |
| `DisputeInvariants.ReachableOk` | packages/xrpl-core/src/dispute/DisputeService.ts:100-268 | Every state reachable by any interleaving at await points satisfies the invariant. |
| `DisputeInvariants.RulingIsFinal` | packages/xrpl-core/src/dispute/DisputeService.ts:354-360 | Once a dispute is ruled, no continuation of the run changes its ruling or votes, and it can no longer be withdrawn. |
| `DisputeInvariants.TrackRecord` | packages/xrpl-core/src/dispute/DisputeService.ts:256-263 | In every reachable state casesHandled is the number of disputes the verifier voted in, votesWithMajority the number of finished judgments it agreed with, and the second never exceeds the first. |
| `DisputeLaws.VoteMeaning` | packages/xrpl-core/src/dispute/DisputeService.ts:183-191 | A vote is accepted exactly from a panel member who has not voted, on an open dispute; it is stored as cast and changes nothing else but the voter’s number of cases. |
| `DisputeLaws.CastVoteStands` | packages/xrpl-core/src/dispute/DisputeService.ts:183-191 | An accepted verdict stands as cast in every continuation. |
| `DisputeLaws.TallyIsVotesCast` | packages/xrpl-core/src/dispute/DisputeService.ts:371-379 | In every run the tally of a dispute is, for each ruling, the number of accepted votes for it. |
| `DisputeLaws.WithdrawalMeaning` | packages/xrpl-core/src/dispute/DisputeService.ts:193-197 | Only the claimant withdraws, only an open dispute, and nothing else changes. |
| `DisputeLaws.StepWithdraws` | packages/xrpl-core/src/dispute/DisputeService.ts:193-197 | A dispute becomes withdrawn by no other step, and then never changes; claimant and terms of a dispute never change. |
| `DisputeLaws.JudgmentMeaning` | packages/xrpl-core/src/dispute/DisputeService.ts:226-229 | A dispute is ruled exactly when it is open and the ruling can be computed, with that ruling. |
| `DisputeLaws.SubmissionAnswered` | packages/xrpl-core/src/dispute/DisputeService.ts:229-254 | A refused submission fails the judgment and changes nothing else; an accepted one puts exactly the next transaction of the plan on the ledger. |
| `DisputeLaws.PlanPays` | packages/xrpl-core/src/dispute/DisputeService.ts:322-347 | What each address gets: the tenant who wins the floor of 70% of the stake, the insurance pool the rest, nobody else anything. |
| `DisputeLaws.PlanOrder` | packages/xrpl-core/src/dispute/DisputeService.ts:229-254 | The order of settlement: deposit, stake escrow, payments, judgment NFT; the stake escrow is finished exactly in plans that complete, before any payment. |
| `DisputeLaws.LedgerPaysWhatIsDue` | packages/xrpl-core/src/dispute/DisputeService.ts:215-268 | In every reachable state the ledger has paid no address more for a dispute than it is due, and exactly that once the judgment has finished. |
| `DisputeInvariants.SettledOnce` | packages/xrpl-core/src/dispute/DisputeService.ts:215-268 | A dispute is judged at most once and never both withdrawn and ruled; what the ledger accepted is a prefix of the plan of its one ruling, all of it once finished, and pays out at most the stake. |
| `DisputeInvariants.FailedForGood` | packages/xrpl-core/src/dispute/DisputeService.ts:215-268 | A judgment that failed stays failed in every continuation: its dispute cannot be judged again and the ledger accepts nothing more for it. |
| `DisputeRulings.StoredRuling` | packages/xrpl-core/src/dispute/DisputeService.ts:226-229 | In every reachable state a stored ruling is the plurality of the votes cast, whichever check produced it. |
| `DisputeRulings.ReachableMajority` | packages/xrpl-core/src/dispute/DisputeService.ts:272-285 | Once a reachable dispute has a majority for r, in every continuation of the run that majority stands and is the only one, a judgment at any time rules r, and the stored ruling is r or still missing. |
| `DisputeRulings.StepExtends` | packages/xrpl-core/src/dispute/DisputeService.ts:183-191 | No step removes or changes a vote, a panel or a deadline. |
| `DisputeInvariants.PlanMeaning` | packages/xrpl-core/src/dispute/DisputeService.ts:229-243 | The deposit is returned exactly when the landlord does not win and released exactly when he does; only a tenant win pays out, and then exactly the stake. |
| `DisputeProtocol.ShareWithinStake` | packages/xrpl-core/src/dispute/DisputeService.ts:322-347 | The tenant gets the floor of 70% of the stake, the pool the rest. |
| `DisputeServiceObject.DisputeService.RegisterVerifier` | packages/xrpl-core/src/dispute/DisputeService.ts:100-103 | Performs the protocol step on the object, or throws with the same message and changes nothing. |
| `DisputeServiceObject.DisputeService.DeactivateVerifier` | packages/xrpl-core/src/dispute/DisputeService.ts:105-109 | Likewise for deactivation. |
| `DisputeServiceObject.DisputeService.EligibleAddresses` | packages/xrpl-core/src/dispute/DisputeService.ts:160-170 | The filter loop collects exactly the eligible addresses in roster order. |
| `DisputeServiceObject.DisputeService.SelectVerifiers` | packages/xrpl-core/src/dispute/DisputeService.ts:160-181 | Copy, in-place shuffle and slice return the panel of the protocol, or throw when too few are eligible. |
| `DisputeServiceObject.DisputeService.SubmitDispute` | packages/xrpl-core/src/dispute/DisputeService.ts:117-152 | Both parties are excluded from the draw; the new dispute is stored open, without votes. |
| `DisputeServiceObject.DisputeService.RequireOpen` | packages/xrpl-core/src/dispute/DisputeService.ts:354-360 | Missing, withdrawn and ruled disputes are told apart, in that order. |
| `DisputeServiceObject.DisputeService.CollectVote` | packages/xrpl-core/src/dispute/DisputeService.ts:183-191 | One vote per panel member of an open dispute; the voter’s casesHandled rises with it. |
| `DisputeServiceObject.DisputeService.WithdrawDispute` | packages/xrpl-core/src/dispute/DisputeService.ts:193-197 | Only the claimant withdraws, and only an open dispute. |
| `DisputeServiceObject.DisputeService.ComputeRuling` | packages/xrpl-core/src/dispute/DisputeService.ts:272-285 | The checks in source order compute the ruling of the model. |
| `DisputeServiceObject.DisputeService.BeginJudgment` | packages/xrpl-core/src/dispute/DisputeService.ts:226-229 | The ruling is stored before anything is sent. |
| `DisputeServiceObject.DisputeService.Resume` | packages/xrpl-core/src/dispute/DisputeService.ts:229-268 | One submission answered: its hash is recorded and the next one becomes due, a failure abandons the judgment, the last one credits the voters. |
| `DisputeServiceObject.DisputeService.CreditVoters` | packages/xrpl-core/src/dispute/DisputeService.ts:258-263 | The closing loop raises votesWithMajority of exactly the voters who agreed. |
| `TxInvariants.ReachableOk` | services/be2-ops/src/services/xrpl-tx-reconcile.ts:29-51 | Over all writers, `validated_success` holds exactly for validated rows of class success; at most one hash carries a given dispute; decided disputes have exactly one decision. |
| `TxInvariants.StepRow` | services/be2-ops/src/services/xrpl-tx-reconcile.ts:29-42 | Each writer, the policy worker’s give-up and the simulated backfill included, keeps the relation between tracking status, validated flag and class. |
| `TxInvariants.LeavesPendingByLink` | services/be2-ops/src/services/xrpl-tx-reconcile.ts:44-51 | A dispute leaves `execution_pending` only through the validated transaction linked to it, to `executed` exactly when its class is success. |
| `TxInvariants.StepLink` | services/be2-ops/src/index.ts:864-895 | Only an execution request links a hash to a dispute, and only while the dispute is decided. |
| `TxInvariants.StepMoves` | services/be2-ops/src/index.ts:357-361 | One request moves a dispute only along filed/under_review, decided, pending, executed or rejected. |
| `TxInvariants.StageNeverFalls` | services/be2-ops/src/index.ts:1202-1275 | Over every run the stage of a dispute never falls; executed and rejected are final. |
| `TxInvariants.EntersOnce` | services/be2-ops/src/index.ts:1550-1688 | Every status past review is entered at most once in a run. |
| `TxInvariants.OneExecution` | services/be2-ops/src/index.ts:1458-1529 | A dispute has at most one decision, becomes pending at most once, and is executed or rejected at most once, never both. |
| `TxDelivery.DeliverReachesEnd` | services/be2-ops/src/services/xrpl-tx-reconcile.ts:7-84 | Delivering validated results ends in a state given by the set of hashes heard of alone. |
| `TxDelivery.OrderAndRepetitionDoNotMatter` | services/be2-ops/src/services/xrpl-tx-reconcile.ts:7-84 | From every reachable state, two delivery sequences over the same hashes, in any order and with any repetition, end in the same rows (timestamps aside) and dispute statuses. |
| `TxDelivery.ReportedDisputeIsSettled` | services/be2-ops/src/services/xrpl-tx-reconcile.ts:44-51 | A pending dispute whose hash is reported ends executed or rejected by that report’s class, whatever else is delivered. |
| `TxDelivery.UnvalidatedReportsDoNotMatter` | services/be2-ops/src/services/xrpl-tx-reconcile.ts:44-51 | With unvalidated reports mixed in anywhere, dispute statuses still depend only on which hashes a validated report came of. |
| `TxDelivery.TwoHashesWouldRace` | services/be2-ops/src/services/xrpl-tx-reconcile.ts:44-51 | If two hashes carried one dispute, the order of delivery would decide; the link invariant is what excludes it. |
| `TxLaws.MergeReflects` | services/be2-ops/src/services/xrpl-tx-reconcile.ts:12-41 | Said over codes: after a report the class is success, retryable or final_fail exactly for the prefixes tes, ter, tem and manual_review otherwise; status, flag, ledger and fields follow the report. |
| `TxLaws.ReportMeaning` | services/be2-ops/src/services/xrpl-tx-reconcile.ts:7-42 | A report changes the row of its hash, and no other. |
| `TxLaws.SettledByCode` | services/be2-ops/src/services/xrpl-tx-reconcile.ts:44-51 | A pending dispute is settled for good by the first validated report of its hash: executed exactly when the code begins with tes, rejected for any other code or none. |
| `TxLaws.ReportSparesOthers` | services/be2-ops/src/services/xrpl-tx-reconcile.ts:44-51 | A report leaves every other dispute alone, and an unvalidated one all of them. |
| `TxLaws.SuccessIsTes` | services/be2-ops/src/services/xrpl-tx-reconcile.ts:35-41 | In every reachable state `validated_success` holds exactly for validated rows whose code begins with tes. |
| `TxLaws.WatchedAfterReport` | services/be2-ops/src/utils.ts:22-29 | After a report a row is in the policy set exactly if it is not validated and its code begins with tes, ter or tem; without a code it leaves the set. |
| `TxLaws.CandidateIsWatched` | services/be2-ops/src/services/xrpl-tx-policy.worker.ts:48-53 | The policy set, field by field. |
| `TxLaws.TrackMeaning` | services/be2-ops/src/index.ts:864-895 | Tracking a hash: a new row is pending with nothing known, an old one keeps what the ledger has said of it. |
| `TxLaws.PatchMeaning` | services/be2-ops/src/index.ts:357-361 | Filed and under_review exchange, and no other patch is accepted. |
| `TxLaws.DecisionMeaning` | services/be2-ops/src/index.ts:1458-1529 | A decision is accepted exactly on a filed or reviewed dispute. |
| `TxLaws.ExecutionMeaning` | services/be2-ops/src/index.ts:1550-1688 | An execution is accepted exactly for a decided dispute whose hash is not reported as of another type; it tracks the hash for the dispute and leaves every other row and dispute alone. |
| `TxLaws.MissMeaning` | services/be2-ops/src/services/xrpl-tx-policy.worker.ts:160-192 | A miss counts; the one that exhausts the budget hands the row over, with a code of its own only if it had none. |
| `TxLaws.BackfillMeaning` | services/be2-ops/src/index.ts:1953-1982 | The simulated backfill: terQUEUED the first time, the given code after that, validated unless that is retryable. |
| `TxLaws.AccountMeaning` | services/be2-ops/src/services/xrpl-tx-policy.worker.ts:88-94 | A row without an account takes the reported one, trimmed; nothing else changes. |
| `TxPending.ExecuteMakesPending` | services/be2-ops/src/index.ts:1627-1644 | An accepted execution request leaves the dispute pending and linked; its row is then validated exactly when the live reply was, or, without a reply, when it already had been. |
| `TxPending.SettledByReportIff` | services/be2-ops/src/services/xrpl-tx-reconcile.ts:44-51 | A dispute that is pending with a validated row leaves that status exactly by a validated report of its hash, or by tracking the hash with such a reply; probes and the simulated backfill pass it over. |
| `TxPending.PolicyNeverSettles` | services/be2-ops/src/services/xrpl-tx-policy.worker.ts:140-145 | No run of the policy worker alone settles such a dispute. |
| `TxPending.KeepsHashIff` | services/be2-ops/src/index.ts:881-881 | A dispute under execution keeps a linked hash exactly as long as no later execution request uses that hash. |
| `TxPending.OrphanStaysPending` | services/be2-ops/src/services/xrpl-tx-reconcile.ts:44-51 | A pending dispute that lost its hash stays pending in every continuation. |
| `TxPending.SharedHashOrphans` | services/be2-ops/src/index.ts:881-881 | A run in which two decided disputes are executed with one hash: the first is pending without a hash, in every continuation. |
| `TxPending.LosesValidationIff` | services/be2-ops/src/services/xrpl-tx-reconcile.ts:29-42 | A validated row loses its flag by exactly an unvalidated report of its hash, or a tracking or accepted execution request with such a live reply. |
| `TxTracking.TrimMeaning` | services/be2-ops/src/services/xrpl-tx-reconcile.ts:12-15 | Trimming a reported account cuts off white space only, and all of it at both ends. |
| `TxStore.Tracker.ApplyLiveTxStatus` | services/be2-ops/src/services/xrpl-tx-reconcile.ts:7-84 | Fields assigned one by one and saved give the merged row and the resolved dispute; an unknown hash changes nothing. |
| `TxStore.Tracker.UpsertTrackedTx` | services/be2-ops/src/index.ts:864-895 | An existing row keeps its progress and takes the new type, network and any given account or dispute. |
| `TxStore.Tracker.PatchDisputeStatus` | services/be2-ops/src/index.ts:1202-1275 | Only filed and under_review exchange; anything else is refused unchanged. |
| `TxStore.Tracker.PostDecision` | services/be2-ops/src/index.ts:1458-1529 | A decision is recorded once, from filed or under_review. |
| `TxStore.Tracker.PostExecution` | services/be2-ops/src/index.ts:1550-1688 | The hash is tracked and the live status applied before the dispute becomes pending; a type mismatch is refused. |
| `TxStore.Tracker.SimulateOne` | services/be2-ops/src/index.ts:1953-1982 | One row of the simulated backfill, including the apply that overwrites its status. |
| `TxStore.Tracker.SimulateBackfill` | services/be2-ops/src/index.ts:1953-1982 | The whole loop is a run of such steps. |
| `DelayedJobs.ClaimMeaning` | services/be2-ops/src/repository/memory-repository.ts:367-392 | A claim returns at most `limit` due jobs, none twice, in run-after order; an eligible job is left behind only when the claim is full and is then no earlier than any claimed one. |
| `DelayedJobs.ClaimIsExclusive` | services/be2-ops/src/repository/memory-repository.ts:367-392 | After a claim at time t returned a job, no interleaving of claims returns it before t + lockTtl unless it was bumped or deleted. |
| `DelayedJobs.LeaseExcludes` | services/be2-ops/src/repository/memory-repository.ts:367-392 | The same for any lease already held. |
| `DelayedJobs.StepValid` | services/be2-ops/src/repository/memory-repository.ts:361-415 | Every operation keeps job ids distinct and the insertion order complete. |
| `DelayedJobs.ClaimTakes` | services/be2-ops/src/repository/memory-repository.ts:367-392 | A claim takes only jobs of the kind whose time has come and whose lease, if any, is over, and with room left all of them; it leases each until now plus the lock time and changes nothing else. |
| `DelayedJobs.StepMeaning` | services/be2-ops/src/repository/memory-repository.ts:361-415 | What creating, deleting and bumping do to a job, and that they touch no other. |
| `DelayedJobs.PutOffUntil` | services/be2-ops/src/repository/memory-repository.ts:398-415 | A job bumped to t is not claimed before t in any run that does not bump or delete it again. |
| `DelayedJobs.JobStore.CreateDelayedJobIfAbsent` | services/be2-ops/src/repository/memory-repository.ts:361-365 | Creates the job only if its id is new. |
| `DelayedJobs.JobStore.ClaimDueDelayedJobs` | services/be2-ops/src/repository/memory-repository.ts:367-392 | The claim loop leases exactly the picked jobs and leaves the others alone. |
| `DelayedJobs.JobStore.DeleteDelayedJob` | services/be2-ops/src/repository/memory-repository.ts:394-396 | Removes the job and its place in the insertion order. |
| `DelayedJobs.JobStore.BumpDelayedJob` | services/be2-ops/src/repository/memory-repository.ts:398-415 | Reschedules an existing job and drops its lease. |
| `PolicyWorker.BackoffGrows` | services/be2-ops/src/services/xrpl-tx-policy.worker.ts:36-40 | Requeue delays never decrease with the attempts, never exceed the cap, and double up to it. |
| `PolicyWorker.OneJobPerHash` | services/be2-ops/src/services/xrpl-tx-policy.worker.ts:110-123 | Over every run each hash has at most one job, named after it. |
| `PolicyWorker.ProbesAreBounded` | services/be2-ops/src/services/xrpl-tx-policy.worker.ts:129-220 | A hash nothing is heard of gets at most max(1, maxNotFoundProbes - retries so far) probes, however the probes of overlapping ticks follow one another and whatever other requests write to its row; when it is no longer probed it is marked manual_review. |
| `PolicyWorker.StaysGivenUp` | services/be2-ops/src/services/xrpl-tx-policy.worker.ts:48-53 | While nothing is heard of it, a row that is no candidate is never probed again and its status, class, retries and result stay. |
| `PolicyWorker.GivingUpDeletesJob` | services/be2-ops/src/services/xrpl-tx-policy.worker.ts:160-192 | The probe that exhausts the budget deletes the job. |
| `PolicyWorker.NoTickRecreatesJob` | services/be2-ops/src/services/xrpl-tx-policy.worker.ts:110-123 | Once a hash was given up, no tick that lists the rows from then on recreates its job. |
| `PolicyWorker.JobComesBackIff` | services/be2-ops/src/services/xrpl-tx-policy.worker.ts:78-123 | A missing job comes back by exactly one kind of step: a tick that had listed the row while it was still an overdue candidate. |
| `PolicyLaws.EnqueueMeaning` | services/be2-ops/src/services/xrpl-tx-policy.worker.ts:110-123 | A tick makes a job exactly for a row of the policy set not checked for the timeout, unless there is one: due at once, without attempts or lease. |
| `PolicyLaws.JobComesBackByListing` | services/be2-ops/src/services/xrpl-tx-policy.worker.ts:78-123 | The same condition for a job that comes back, field by field. |
| `PolicyLaws.WorkMeaning` | services/be2-ops/src/services/xrpl-tx-policy.worker.ts:129-220 | A worked job of a row outside the policy set is deleted; a report is applied and the job deleted; a miss counts and the job goes with the last one; otherwise it waits the interval doubled once per attempt, at most fourteen times, capped. |
| `PolicyLaws.ClaimingMeaning` | services/be2-ops/src/services/xrpl-tx-policy.worker.ts:125-125 | A claim remembers of each job its hash, its attempts and the end of its lease. |
| `PolicyLaws.MissingMeaning` | services/be2-ops/src/services/xrpl-tx-policy.worker.ts:79-84 | The tick tries to fill in the account of listed rows of the policy set without one, up to the cap. |
| `PolicyDelays.DelaysNeverDecreaseIff` | services/be2-ops/src/services/xrpl-tx-policy.worker.ts:191-219 | For a hash nothing is heard of, in every run whatever the leases: the requeue delays never decrease if and only if no requeue is by a claim whose next wait is below the wait of the stored attempts. |
| `PolicyDelays.DelaysNeverDecrease` | services/be2-ops/src/services/xrpl-tx-policy.worker.ts:191-219 | They never decrease and never exceed the cap when every claim is made before lockedUntil, lockTtlMs after its claim, of each claim still open. |
| `PolicyLapse.LapsedLeaseShrinks` | services/be2-ops/src/services/xrpl-tx-policy.worker.ts:191-219 | A run from the empty store, silent about the hash, in which a lease lapses and the delays are 2, 4 and again 2 seconds; the condition of the row above fails in it. |
| `PolicyLapse.LapseIsLate` | services/be2-ops/src/services/xrpl-tx-policy.worker.ts:125-125 | In that run the second claim comes exactly when the lease of the first, still open, has run out. |
| `PolicyLapse.StaleListingRecreatesJob` | services/be2-ops/src/services/xrpl-tx-policy.worker.ts:78-123 | A run from the empty store in which one tick lists a row, another gives it up and deletes its job, and the first brings the job back. |
| `PolicyDelays.LeasedNotPicked` | services/be2-ops/src/repository/memory-repository.ts:376-384 | While its lease runs, a claimed job is not claimed again. |
| `PolicyDelays.StepFresh` | services/be2-ops/src/services/xrpl-tx-policy.worker.ts:125-129 | With claims in time, a claimed job has one claim, and it agrees with the stored record. |
| `PolicyWorker.Worker.Tick` | services/be2-ops/src/services/xrpl-tx-policy.worker.ts:78-220 | An undisturbed tick is the run: fill in missing accounts up to the cap, enqueue candidates by their age on a fresh clock, claim once, work each claimed job at its own time. |
| `PolicyWorker.Worker.FillAccount` | services/be2-ops/src/services/xrpl-tx-policy.worker.ts:88-94 | The account of a row that lacks one becomes the trimmed account reported, if there is any. |
| `OutboxInvariants.StepKeeps` | services/be2-ops/src/services/notification-outbox.worker.ts:28-103 | Every step, stale claims included, keeps the outbox invariant. |
| `OutboxInvariants.ReachableOk` | services/be2-ops/src/services/notification-outbox.worker.ts:28-103 | Every reachable state satisfies it. |
| `OutboxRuns.RowsAreConsistent` | services/be2-ops/src/repository/memory-repository.ts:207-274 | In every run: keys and rows in bijection, attempts below the maximum unless dead and exactly the maximum when dead, every dispatched row names an existing notification with the row’s event type, recipient, channel and payload. |
| `OutboxRuns.OneRowPerItem` | services/be2-ops/src/services/notification-fanout-enqueue.ts:28-63 | However often an item is enqueued it has one row, and enqueueing it again changes nothing. |
| `OutboxRuns.ClaimMeaning` | services/be2-ops/src/repository/memory-repository.ts:214-231 | A claim takes at most `limit` pending rows, oldest first; a pending row waits only behind older ones. |
| `OutboxRuns.DueMeaning` | services/be2-ops/src/repository/memory-repository.ts:191-205 | A delivery batch holds only due notifications, none sent or dead-lettered; a due one waits only behind older ones. |
| `OutboxRuns.ClosedForGood` | services/be2-ops/src/repository/memory-repository.ts:191-205 | A sent or dead-lettered notification never changes, is never delivered and never listed again, in any continuation. |
| `OutboxRuns.CallsAreBounded` | services/be2-ops/src/services/notification.worker.ts:23-106 | Each notification reaches the provider at most maxAttempts times: once per recorded failure plus the success; it is dead-lettered exactly when the attempts are used up. |
| `OutboxDelays.CalledIff` | services/be2-ops/src/services/notification.worker.ts:23-37 | The provider is called exactly for a notification neither sent nor dead-lettered whose retry time, if any, has come. |
| `OutboxDelays.ListedIff` | services/be2-ops/src/repository/memory-repository.ts:191-205 | It is listed for delivery only then, and with room in the batch exactly then. |
| `OutboxDelays.AnswerMeaning` | services/be2-ops/src/services/notification.worker.ts:38-105 | A success ends a notification; a failure counts, ends it exactly at the maxAttempts-th, and else sets the next time to now plus min(maxBackoff, initialBackoff * 2^failures). |
| `OutboxDelays.RetryWaits` | services/be2-ops/src/services/notification.worker.ts:97-105 | After a failed call at t that was not the last: until the next call, in every continuation, the notification is neither listed nor called for before t plus that wait, and from then on it is. |
| `OutboxDelays.CallsAreSpaced` | services/be2-ops/src/services/notification.worker.ts:19-21 | In every run the i-th call for a notification and the next lie at least min(maxBackoff, initialBackoff * 2^i) apart. |
| `OutboxDelays.CallTimesAreAll` | services/be2-ops/src/services/notification.worker.ts:108-114 | These are all its calls. |
| `OutboxDelays.DelayValues` | services/be2-ops/src/services/notification.worker.ts:19-21 | The waits: twice the initial one first, then doubling up to the cap. |
| `OutboxRuns.DelaysGrow` | services/be2-ops/src/services/notification.worker.ts:19-21 | The waits never shrink and never exceed the cap. |
| `OutboxExact.BoundedCalls` | services/be2-ops/src/services/notification-outbox.worker.ts:28-103 | With claims finishing before they go stale, a row has caused at most maxDispatchAttempts notifications since its last retry or recovery, and at most maxDispatchAttempts * maxAttempts provider calls for them. |
| `OutboxExact.LifetimeCalls` | services/be2-ops/src/services/notification-outbox.worker.ts:28-103 | Over a whole run with r retries and recoveries of a row, all notifications it ever caused got at most (r + 1) * maxDispatchAttempts * maxAttempts provider calls altogether, whenever they were made. |
| `OutboxPotential.StepSpends` | services/be2-ops/src/services/notification-outbox.worker.ts:28-103 | Whatever claims are open, a step that does not reset a row adds a notification to it only at the cost of at least one unit of the attempts left to its open claims and to the row itself. |
| `OutboxPotential.MostMade` | services/be2-ops/src/services/notification-outbox.worker.ts:28-103 | In every state the invariant allows and for every n: every continuation without a reset of the row keeps its notifications within n if and only if those made plus those potential are at most n. |
| `OutboxPotential.BoundHoldsIff` | services/be2-ops/src/services/notification-outbox.worker.ts:28-103 | The exact condition for the bound of maxDispatchAttempts notifications, in every state of every run. |
| `OutboxPotential.TimelyKeepsTheBound` | services/be2-ops/src/services/notification-outbox.worker.ts:28-103 | After a run with timely claims the bound holds in every continuation, timely or not, until the row’s next reset. |
| `OutboxRounds.MostCalls` | services/be2-ops/src/services/notification.worker.ts:23-106 | For every k: the provider calls for everything a row ever caused rise by at most k in every continuation without a reset of it if and only if the calls owed to its open notifications, plus maxAttempts for each notification it can still make, are at most k. |
| `OutboxRounds.RetryBoundIff` | services/be2-ops/src/index.ts:2111-2146 | In every state of every run: after the operator’s retry, and until the next reset, those calls stay within maxDispatchAttempts * maxAttempts if and only if no claim on the row is open and everything it caused so far is sent or dead-lettered. |
| `OutboxStale.CallsCarryOver` | services/be2-ops/src/index.ts:2111-2146 | A run in which notifications from before a retry are delivered after it: the calls since the retry alone exceed one round’s bound. |
| `OutboxStale.StaleClaimsBreakTheBound` | services/be2-ops/src/services/notification-outbox.worker.ts:28-103 | Without timely claims, for every configuration, a run that makes maxDispatchAttempts + 1 notifications for one row since its last reset. |
| `OutboxExact.StepExact` | services/be2-ops/src/services/notification-outbox.worker.ts:28-103 | Under that assumption one worker holds a row at a time, its copy is the stored row, and the count of notifications stays within the attempts. |
| `OutboxExact.DispatchIsFinalIff` | services/be2-ops/src/services/notification-outbox.worker.ts:66-73 | Every continuation of any run leaves a dispatched row as it is if and only if no claim on it is still open. |
| `OutboxExact.DispatchedForGood` | services/be2-ops/src/services/notification-outbox.worker.ts:66-73 | In a run with timely claims there is never an open claim on a dispatched row: its dispatch is final, whatever follows. |
| `OutboxExact.DispatchedChangesOnlyByOpenClaim` | services/be2-ops/src/services/notification-outbox.worker.ts:28-103 | The one step that can rewrite a dispatched row is the dispatch of another claim on it that is still open, and no step opens a new one. |
| `OutboxExact.OpenClaimUndoesDispatch` | services/be2-ops/src/services/notification-outbox.worker.ts:40-103 | Such a claim, failing, puts the row back to pending or dead; succeeding, it makes the row name a second notification. |
| `OutboxStale.StaleClaimLosesDispatch` | services/be2-ops/src/services/notification-outbox.worker.ts:28-103 | A concrete run in which this happens: the notification exists and the row no longer names it. |
| `OutboxLaws.EnqueueMeaning` | services/be2-ops/src/repository/memory-repository.ts:207-212 | A known key changes nothing; any other item becomes one untried pending row. |
| `OutboxLaws.ClaimedMeaning` | services/be2-ops/src/repository/memory-repository.ts:214-231 | A claim marks exactly its batch as processing since now, hands out their copies in order and leaves every other row alone. |
| `OutboxLaws.DispatchMeaning` | services/be2-ops/src/services/notification-outbox.worker.ts:40-103 | A dispatch closes its claim and rewrites its row from the copy, field by field, for each of its three outcomes. |
| `OutboxLaws.RecoverMeaning` | services/be2-ops/src/repository/memory-repository.ts:260-274 | Recovery returns to pending exactly the rows processing since before the limit, with their attempts. |
| `OutboxLaws.RetryMeaning` | services/be2-ops/src/index.ts:2111-2146 | A retry is accepted exactly for a dead row, which then starts afresh. |
| `OutboxLaws.EveryItemHasARow` | services/be2-ops/src/services/notification-fanout-enqueue.ts:28-63 | With the outbox on, every item of an enqueued list has a row afterwards. |
| `OutboxLaws.EveryItemIsQueued` | services/be2-ops/src/services/notification-fanout-enqueue.ts:66-89 | With it off, every item is a queued notification of its own. |
| `OutboxStore.Store.AppendNotificationOutbox` | services/be2-ops/src/repository/memory-repository.ts:207-212 | Inserts exactly when the idempotency key is new. |
| `OutboxStore.Store.ClaimNotificationOutboxPending` | services/be2-ops/src/repository/memory-repository.ts:214-231 | Sort, slice and the marking loop claim exactly the batch of the model. |
| `OutboxStore.Store.UpdateNotificationOutbox` | services/be2-ops/src/repository/memory-repository.ts:233-240 | Replaces the row and moves its key if that changed. |
| `OutboxStore.Store.RecoverStaleNotificationOutboxProcessing` | services/be2-ops/src/repository/memory-repository.ts:260-274 | The loop returns exactly the stale processing rows to pending. |
| `OutboxStore.Store.DispatchOneOutboxRow` | services/be2-ops/src/services/notification-outbox.worker.ts:40-103 | Save, emit and update with the failure branch, writing back from the worker’s copy. |
| `OutboxStore.Store.RetryOutboxRow` | services/be2-ops/src/index.ts:2111-2146 | A dead row starts over with no attempts; missing and living rows are refused. |
| `OutboxStore.Store.RunOutboxFanoutTick` | services/be2-ops/src/services/notification-outbox.worker.ts:28-38 | A tick is the run: recover, claim, dispatch each claim, and abandon the rest if an error aborts it; it keeps the invariant and leaves no claim open. |
| `OutboxStore.Store.EnqueueFanoutNotificationItems` | services/be2-ops/src/services/notification-fanout-enqueue.ts:21-90 | The loop is a run of enqueues, or of direct notifications when the outbox is off. |
| `OutboxStore.Store.ProcessOneNotification` | services/be2-ops/src/services/notification.worker.ts:23-106 | One provider answer gives sent, failed with dead letter, or a scheduled retry; a provider that throws changes nothing and the call throws, as it does when a call after the save throws. |
| `OutboxStore.Store.ProcessBatch` | services/be2-ops/src/services/notification.worker.ts:108-114 | The batch listed as due is delivered one by one until its end or the first throw; each is still due when its turn comes. |
| `AuditStore.ListAscends` | services/be2-ops/src/repository/memory-repository.ts:284-297 | Where locale order agrees with code-unit order on the keys, the list holds exactly the matching logs in strictly ascending cursor order. |
| `AuditStore.ListMeaning` | services/be2-ops/src/repository/memory-repository.ts:284-297 | The list holds exactly the logs of the given type and entity within the given times, both ends included. |
| `AuditStore.ListIsSorted` | services/be2-ops/src/repository/memory-repository.ts:293-296 | It is in order of time, then of id, by the locale. |
| `AuditStore.OffsetPageMeaning` | services/be2-ops/src/repository/memory-repository.ts:299-315 | An offset page is that part of the list, with the list’s length. |
| `AuditStore.LessMeaning` | services/be2-ops/src/repository/memory-repository.ts:338-340 | Text comparison: at the first difference the smaller character, or the end, comes first. |
| `AuditPaging.PageSize` | services/be2-ops/src/repository/memory-repository.ts:343-349 | A page has `limit` logs while there are as many, and hands out the cursor of its last one exactly when there are more. |
| `AuditPaging.CursorMeaning` | services/be2-ops/src/repository/memory-repository.ts:330-342 | Where a page starts: at the front, or at the first log after the cursor; an unreadable cursor is refused. |
| `AuditPaging.WalkReturnsEveryLog` | services/be2-ops/src/repository/memory-repository.ts:317-350 | With logs appended between requests, a finished walk returns every log present at the start exactly once and repeats nothing. |
| `AuditPaging.WalkReturnsTheList` | services/be2-ops/src/repository/memory-repository.ts:317-350 | Over an unchanging list a finished walk returns exactly the list, for every page size. |
| `AuditPaging.WalkFinishes` | services/be2-ops/src/repository/memory-repository.ts:317-350 | Whatever was appended before: once the list no longer changes, following nextCursor from any accepted cursor comes to an end. |
| `AuditPaging.StoreWalk` | services/be2-ops/src/repository/memory-repository.ts:284-350 | The same from the store’s side: any filter, stores that only grow; with nothing appended the result is listAudits(filter). |
| `AuditOrders.WalkExactIff` | services/be2-ops/src/repository/memory-repository.ts:326-350 | Walking by pages of a given size returns the sorted list if and only if at the end of every page the cursor leads to the log right behind. |
| `AuditOrders.WalkExactIffAscending` | services/be2-ops/src/repository/memory-repository.ts:326-350 | Every page size returns it if and only if it ascends in the cursor’s own order. |
| `AuditOrders.DisagreeingOrdersLoseALog` | services/be2-ops/src/repository/memory-repository.ts:326-340 | Under a locale order that ignores case, the walk over a store with ids "a" and "B" ends without the second log. |
| `AuditOrders.FoldingIsOrder` | services/be2-ops/src/repository/memory-repository.ts:326-329 | That order is a total preorder, as sorting needs. |
| `AuditPaging.FirstAfter` | services/be2-ops/src/repository/memory-repository.ts:326-340 | The first log after the cursor, or the length when there is none. |
| `AuditCsv.ExportCsv` | services/be2-ops/src/index.ts:2498-2522 | The paging loop terminates and writes mark, header and the first min(limit, total) logs in list order. |
| `AuditCsv.CellParses` | services/be2-ops/src/services/audit-csv.ts:3-6 | A reader by section 2 of RFC 4180 gets every cell back, whatever characters it holds. |
| `AuditCsv.RecordParses` | services/be2-ops/src/services/audit-csv.ts:22-37 | It gets every record back. |
| `AuditCsv.ExportRoundTrip` | services/be2-ops/src/index.ts:2498-2522 | The reader gets back exactly the nine field strings of each exported log, in order. |
| `AuditCsv.ExportReadsBack` | services/be2-ops/src/index.ts:2498-2522 | The whole export as such a reader sees it: after the byte order mark the nine column names, then for each of the first min(limit, total) logs a record with each column’s value under its name. |
| `Settlements.SettlementIdCollision` | services/be2-ops/src/services/settlement-ledger.ts:9-12 | Two contract-months share a row id exactly when their sanitized contract ids and their months agree. |
| `Settlements.LedgerKeyInjective` | services/be2-ops/src/repository/memory-repository.ts:171-181 | Ledger dedup keys identify the ledger, and no transaction event uses one. |
| `Settlements.TouchedTotalIsSum` | services/be2-ops/src/services/settlement-ledger.ts:34-48 | Over every run, whatever the ids, the contracts-touched total equals the sum of all ledgerCloseCount values. |
| `Settlements.RunCounts` | services/be2-ops/src/repository/memory-repository.ts:597-632 | Over every run, whatever the ids, a row counts each pair of contract and ledger it was touched for once: no close is lost and no replay counted. |
| `Settlements.RowIsItsOwnIff` | services/be2-ops/src/repository/memory-repository.ts:597-632 | So it counts exactly the distinct closes in its month while its contract was eligible and the row not archived, if and only if no close counted there for another contract. |
| `Settlements.RowCountsDistinctClosesIff` | services/be2-ops/src/services/settlement-ledger.ts:9-12 | For a set of contract ids in use: every run over them keeps the count of c’s row right if and only if no other id among them sanitizes like c. |
| `Settlements.RowCountsDistinctCloses` | services/be2-ops/src/repository/memory-repository.ts:597-632 | In particular for ids of letters, digits and underscore. |
| `Settlements.CollidingIdsShareARow` | services/be2-ops/src/services/settlement-ledger.ts:9-12 | Two contracts whose ids sanitize alike: one close counts twice in their shared row. |
| `Settlements.CollisionExists` | services/be2-ops/src/services/settlement-ledger.ts:9-12 | Two such contract ids. |
| `Settlements.SeenIffClosed` | services/be2-ops/src/services/xrpl-subscribe.worker.ts:110-123 | A ledger is known to the deduplication exactly when a close of it has been handled. |
| `Settlements.CloseMeaning` | services/be2-ops/src/repository/memory-repository.ts:597-632 | A close opens rows only for active or escrow-validated contracts, in its month, and otherwise only raises counts and notes the ledger; an archived row stays as it is. |
| `Settlements.PatchMeaning` | services/be2-ops/src/index.ts:339-349 | An operator moves a settlement forward or leaves it; nothing leaves the archive. |
| `Settlements.StatusNeverFalls` | services/be2-ops/src/index.ts:2224-2260 | Over every run a settlement’s status and count never go back, and its contract and month stay. |
| `Settlements.IdExample` | services/be2-ops/src/services/settlement-ledger.ts:9-12 | The shape of a row id. |
| `Settlements.SettlementStore.TryRecordIngestion` | services/be2-ops/src/repository/memory-repository.ts:171-181 | Accepts each key once. |
| `Settlements.SettlementStore.TouchSettlementsOnLedgerClose` | services/be2-ops/src/repository/memory-repository.ts:597-632 | The loop upserts one row per eligible contract, skips archived rows and returns how many it touched. |
| `Settlements.SettlementStore.HandleLedgerClosed` | services/be2-ops/src/services/xrpl-subscribe.worker.ts:110-140 | A replay changes nothing; a new close touches the rows and adds the same number to the counter. |
| `TokenBuckets.TokenBucket.TryConsume` | services/be2-ops/src/services/xrpl-subscribe-rate.ts:15-27 | Refill and consume as the model says. |
| `TokenBuckets.TokensInRange` | services/be2-ops/src/services/xrpl-subscribe-rate.ts:15-27 | The level stays between 0 and capacity. |
| `TokenBuckets.LevelIsSmallestBudget` | services/be2-ops/src/services/xrpl-subscribe-rate.ts:15-27 | The level is exactly the smallest budget any window ending now leaves. |
| `TokenBuckets.AcceptedIffAllWindowsAllow` | services/be2-ops/src/services/xrpl-subscribe-rate.ts:15-27 | A call is accepted exactly when every window ending at it has room for one more. |
| `TokenBuckets.WindowBound` | services/be2-ops/src/services/xrpl-subscribe-rate.ts:15-27 | Any window accepts at most capacity + refillPerSec * length calls. |
| `PreimageCondition.HexRoundTrip` | packages/xrpl-core/src/lib/hex.ts:10-12 | Hex text decodes to the bytes it was made from. |
| `PreimageCondition.FinishMatchesCreate` | packages/xrpl-core/src/escrow/EscrowService.ts:113-127 | For every accepted preimage, restoring from the hex fulfillment gives exactly the condition built, and EscrowFinish carries both. |
| `PreimageCondition.RestoreMeaning` | packages/xrpl-core/src/escrow/EscrowService.ts:157-166 | For any text: what is refused, and the condition of the bytes it announces otherwise. |
| `PreimageCondition.PlainFinish` | packages/xrpl-core/src/escrow/EscrowService.ts:113-127 | Without a fulfillment EscrowFinish carries neither it nor a condition. |
| `PreimageCondition.HexIsUpperCase` | packages/xrpl-core/src/lib/hex.ts:10-12 | Hex text has two upper-case characters a byte. |
| `PreimageCondition.ConditionIsReadable` | packages/xrpl-core/src/lib/condition.ts:31-36 | An independent reader finds fingerprint and cost in the condition. |
| `PreimageCondition.FulfillmentReadableIff` | packages/xrpl-core/src/lib/condition.ts:38-40 | The outer length byte is a short form, and the fulfillment readable, exactly up to 125 bytes. |
| `Reconciler.PaidAtMostOnce` | services/be1-xrpl/src/reconciler/reconciler.service.ts:109-212 | In every run payments exceed unrecorded ones by one exactly when a Matched row exists; with every save succeeding, each contract-month is paid at most once, by its Matched row’s amount. |
| `Reconciler.ReconcileMeaning` | services/be1-xrpl/src/reconciler/reconciler.service.ts:109-212 | A call pays exactly when no Matched row stands, the contract is there, locked and with an account, the usage is known and the ledger takes it; it records what happened exactly when it got that far and the row can be saved. |
| `Reconciler.PaidWhileLocked` | services/be1-xrpl/src/reconciler/reconciler.service.ts:109-140 | Whatever pays for a contract-month, its contract is locked at that moment and no Matched row stands. |
| `Reconciler.PassOneMeaning` | services/be1-xrpl/src/reconciler/reconciler.service.ts:63-77 | In a pass a retry is queued exactly when the call fails and the queue accepts. |
| `Reconciler.RetryMeaning` | services/be1-xrpl/src/reconciler/xrpl-tx-retry.processor.ts:24-36 | A queue retry is the same call, and leaves the queue unless it failed and is kept. |
| `Reconciler.PaidTwiceIff` | services/be1-xrpl/src/reconciler/reconciler.service.ts:109-212 | A contract-month is paid more than once exactly when two of its payments went unrecorded, or one did and a Matched row exists. |
| `Reconciler.LostRecordPaysTwice` | services/be1-xrpl/src/reconciler/reconciler.service.ts:165-186 | A run that pays twice because the record of the first payment was not saved. |
| `Reconciler.PassLeavesNoOneBehind` | services/be1-xrpl/src/reconciler/reconciler.service.ts:58-78 | After a monthly pass that ran to its end every locked contract has a Matched row or a queued retry. |
| `Reconciler.PassEndsIff` | services/be1-xrpl/src/reconciler/reconciler.service.ts:58-78 | It runs to its end exactly when no contract failed while the queue was refusing. |
| `Reconciler.StepKeeps` | services/be1-xrpl/src/reconciler/reconciler.service.ts:94-212 | Passes, manual triggers, queue retries and contract changes keep payments and rows balanced. |
| `Reconciler.ReconcilerService.ReconcileContract` | services/be1-xrpl/src/reconciler/reconciler.service.ts:109-212 | Skip, lookup failures, payment failure and record, each with its outcome. |
| `Reconciler.ReconcilerService.RunMonthlyReconcile` | services/be1-xrpl/src/reconciler/reconciler.service.ts:58-78 | One contract’s failure queues a retry and never stops the others; only a refusing queue stops the pass. |

## Left out

- Mobile app, design files, plan canvas: user interface only.
- The Postgres repository and its migrations: SQL run by a database; the memory repository is the store modelled here.
- XRPL client, KEPCO, IPFS, e-mail, KMS, webhooks: their answers and failures are arguments of the steps. A submission whose reply is lost after the ledger accepted it is not distinguished from one that failed.
- SHA-256, JSON and base64url: function parameters, of which only the digest length, and that decoding a cursor undoes encoding it on non-empty fields, is assumed.
- Amounts in issued currencies, summed through parseFloat.
- Authentication, roles, operator scopes, request schemas, configuration.
- Metrics, templates, channel routing and expandRecipientChannels (a plain product of two lists), apart from the contracts-touched counter.
- Reconnecting and subscription syncing of the stream worker. Stream events it throttles or drops as replays are events that do not occur in a run.
- Free-text and bookkeeping fields: lastError, updatedAt, confirmedAt, amount, currency and batch of a settlement, emitted domain events and audit writes. The count returned by stale recovery and the processed count of a manual reconcile.
- Strings are sequences of characters; code-unit order and per-code-unit sanitizing coincide with the source on characters of one UTF-16 unit. localeCompare is a parameter, a total preorder.
- Timestamps are integers, except in audit logs where the source compares them as text.
- Audit logs appended while a CSV export is running: the export is over one state of the store.
- Overlapping delivery ticks: notifications are delivered one at a time.
- Provider calls are counted when they are answered. One that throws leaves no trace in the store and is not counted; the provider of the service turns every error into an answer (services/be2-ops/src/services/notification.provider.ts:36-107).
- PolicyWorker.ProbesAreBounded: a policy job's probe tests, reads and writes its row in one step. A stream report, or the probe of another tick on a job whose lease has lapsed, arriving between the test and the write of one probe (services/be2-ops/src/services/xrpl-tx-policy.worker.ts:139-172) is not interleaved there; two such ticks can probe once more than the bound.
- OutboxExact.BoundedCalls: counts the notifications created since the row's last operator retry or stale recovery, and all provider calls made for them; OutboxRounds.RetryBoundIff and OutboxExact.LifetimeCalls count those of earlier rounds too.
- Reconciler.PassLeavesNoOneBehind: a queued retry may still run out of attempts in the queue, which is not modelled.
