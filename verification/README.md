# Verified model of the protected-position protocol, its planners, its streams and the paper ledger

The repository trades one perpetual contract on a futures venue, or on paper. This project models the four
parts of it whose correctness is hard to see by reading, and proves what they are for.

- **The protected-position protocol.** An intent is stored before anything is sent. The venue may accept,
  refuse or answer ambiguously; results are proved by looking identities up, committed, and recovered after a
  crash by queries alone. `Venue` is the environment: a net position, ordinary and algo orders by client id,
  requests in flight that land at any later time or never, and orders that fill in parts. Every state passed
  through is kept in a history, so that a statement about all of it is a statement about every crash point.
  Every request of a client, refused ones included, and every answer is kept too, so that what an operation did and
  what it went by can be stated to the last request.
  `ProtectionGuard` holds the facts a client may rely on while it waits and sends. `Revision`, `OwnedClose` and
  `EntryCoordinator` are the coordinators, `OwnedState` and `Lifecycle` the durable record, `Processes` any
  number of processes over one versioned store, `Orchestrator` one process, `CrashRecovery` a crash at any await
  followed by recovery. `Handover` joins the operations: what one leaves is what the next relies on. `EntryRuns`
  exhibits the runs of an entry that end badly.
- **Exact planning arithmetic.** `DecimalText` (decimal texts, read as real numbers), `Rounding`, `EntryPlan`,
  `ManagementPlan`, `MutationContract` (requests and derived identities).
- **Streamed state and its replay.** `OrderBook`, `PrivateState`, `PublicLane`, `PrivateLane`, `StreamReplay`.
- **The paper ledger.** `PaperLedger` (the account as functions), `PaperNumbers` (what each amount and outcome must be,
  apart from how it is computed) and `PaperEngine` (the engine as an object).

Objects whose methods update fields are classes proved against functions of their value; the laws are lemmas
about those functions. A thrown error is `Failure`, `None` or a refused report. Four premises about the venue
are used, each only where it is named: *truthful* (what an answer claims is so), *answering* (a query answers),
*prompt* (each request lands at once, and nothing else happens), and a *mood* (`Wild`: anything may happen;
`Calm`: no algo order triggers; `Frozen`: nothing happens; with or without later *fills* of an order that has
executed in part). One premise is about the store: *alone* (no other process writes).

## What the proofs found

- Tightening a stop can lower computed protected equity by one cent for a long position, never for a short one;
  the plan's weakening guard then refuses the tightening.
- An entry price that is not exact at eight decimals skips the whole risk block of a management plan: a plan
  that loosens the stop is then ready (`InexactEntryPriceSkipsTheGuards`).
- A live cancel whose order cannot be found stays pending, while recovery counts the same order as gone.
- A confirmed flatten closes what a partial entry had executed when it was looked up. On a venue where nothing but
  the two orders moves the position, it is flat if and only if the entry has filled no further since
  (`EntryCoordinator.LeftAt`); it always is after a full entry, or where orders fill at once. Otherwise the rest of the entry
  is left without any stop, and the record has let go of it (`EntryRuns.LateFillIsUnprotected`).
- Once an entry is confirmed flattened, recovery confirms it again exactly when the entry was partial or the
  unproven stop never arrived; otherwise it stays at `open_protected_target_pending`
  (`EntryRuns.LateStopStalls`). One invocation never has both a target and a close at the venue; two of the same
  entry can, and recovery then records a position that was flattened as open (`EntryRuns.TwoInvocationsReopen`).
- A close reported as partially filled with the full quantity is called confirmed by the coordinator and refused
  by the record.
- Replay of the private log loses a frame that finishes decoding between a connect and the socket's open
  (`LateFrameIsLostByReplay`), and applies one decoded after a stop that the lane does not
  (`FrameAfterStopIsReplayed`). Replay of the public log differs on a frame of another stream that cannot restart
  the lane (`ForeignFrameBreaksReplay`).
- Stopping the private lane while its restart timer is armed disables restarts; a stream that then expires while
  it synchronizes leaves it buffering what replay applies (`ExpiryWithoutRestart`).
- With a stressed exit dearer than the round trip allows, protected equity after an accepted entry falls short of
  its projection by any amount as the notional grows (`ProjectionFails`: for a stop at whole basis points, and for
  any stop once the exit is dearer by two); the engine then admits an entry that is at once below the daily loss
  boundary (`DearExitBreaksProjection`).

## Model

| member | source | states |
|---|---|---|
| Revision.RevisionCoordinator.Revise | src/venue/binance-usdm/protection-revision.ts:81-217 | What it sends, in order, which answers each step goes by and the whole result that follows from them, a refused reduction told apart from one that went out; from a covered position on a truthful venue, in every state passed through the current or the replacement stop covers what is left; the result carries the proofs it claims for arbitrary payloads; on a calm venue a finished revision leaves both replacements working and both old orders cancelled, and on a prompt venue every executable revision finishes with exactly its five requests landed in order |
| Revision.CoveredMeansProtected | src/venue/binance-usdm/protection-revision.ts:81-217 | A covered state is flat or has a working stop on the exit side at least as large as the position |
| Revision.PromptRuns | src/venue/binance-usdm/protection-revision.ts:109-216 | When each request lands at once, every lookup in between finds what it asks for |
| Revision.StageSpares | src/venue/binance-usdm/protection-revision.ts:138-200 | No request of a revision breaks what it relies on: the current stop is cancelled only after the replacement covers |
| Revision.SafeStop | src/venue/binance-usdm/protection-revision.ts:146-164 | Once the replacement stop is proven, after a proven reduction if one was planned, it covers all that is left |
| Revision.RevisionCoordinator.Reconcile | src/venue/binance-usdm/protection-revision.ts:219-293 | Recovery sends nothing and reports exactly what the answers prove, stage by stage; a proven pair it claims really covers the position, and it finishes whenever a finished live run left the venue so |
| Revision.CoveredIsRecoverable | src/venue/binance-usdm/protection-revision.ts:219-293 | Every state a covered revision can crash in satisfies the premise of sound recovery |
| OwnedClose.OwnedCloseCoordinator.CloseOwnedProtection | src/venue/binance-usdm/protection-revision.ts:295-367 | What it sends, in order, which answers it goes by and the whole result, a refused close told apart from one that went out; while the position is not flat no owned order is being cancelled and the stop covers it; a proven close leaves net exposure zero; on a prompt venue every executable close finishes with exactly its requests landed |
| OwnedClose.OwnedCloseCoordinator.ReconcileOwnedProtectionClose | src/venue/binance-usdm/protection-revision.ts:369-401 | Sends nothing and reports exactly what the answers prove; a close it claims has emptied the position; it finishes whenever a finished live close left the venue so |
| OwnedClose.KeptIsProtected | src/venue/binance-usdm/protection-revision.ts:321-366 | Every state of a close is flat or has the owned stop working at least at the size of the position |
| OwnedClose.ToSold | src/venue/binance-usdm/protection-revision.ts:336-345 | A proven close empties the position, after which its orders may be cancelled |
| EntryCoordinator.EntryProtection.CreateProtectedEntry | src/venue/binance-usdm/protection-coordinator.ts:92-194 | What it sends, in order, which answers each step goes by and the whole result; an entry that is seen without a proven stop has its executed quantity closed, unless the venue refuses that very order; on a truthful venue an open outcome is covered by its stop, a confirmed flatten leaves at most, and when only these orders move the position exactly, what the entry has filled since it was looked up, and its proofs are complete; on a prompt venue every executable entry opens with exactly its three requests landed, and one whose stop cannot be shown is flattened with exposure as it was |
| EntryCoordinator.EntryProtection.EmergencyFlatten | src/venue/binance-usdm/protection-coordinator.ts:514-555 | The close of the executed quantity is the one thing it sends; it is confirmed exactly when an answer proves a fill of that amount, which a truthful venue then calls filled; on a prompt venue that shows it, always |
| EntryCoordinator.UnprotectedIsFlattened | src/venue/binance-usdm/protection-coordinator.ts:114-158 | Whatever was answered, an entry seen and not protected ends with the close of its executed quantity as the last request |
| EntryCoordinator.PromptCloses | src/venue/binance-usdm/protection-coordinator.ts:126-158 | On a prompt venue an entry whose stop cannot be shown is filled and closed again, and the exposure is what it was |
| EntryCoordinator.LeftAt | src/venue/binance-usdm/protection-coordinator.ts:514-555 | After a confirmed flatten the position is at most what the entry has filled beyond the close, nothing if the entry was full or orders fill at once; when only these orders move the position it is flat if and only if the entry has filled no further |
| EntryRuns.LateFillIsUnprotected | src/venue/binance-usdm/protection-coordinator.ts:114-125 | For every plan and every partial amount, a run whose answers prove a confirmed flatten that the record accepts and which leaves the rest of the entry with no stop |
| EntryRuns.LateStopStalls | src/venue/binance-usdm/protection-coordinator.ts:126-158 | A run of one invocation that is flat and whose recovery stays at `open_protected_target_pending` |
| EntryRuns.TwoInvocationsReopen | src/venue/binance-usdm/owned-protection-state.ts:142-145 | A run of two invocations of one entry that is flat and that recovery proves open to the record |
| Handover.OpenStartsCovered | src/venue/binance-usdm/owned-protection-state.ts:236-313 | What a proven open leaves is what the first revision of that position starts from |
| Handover.OpenStartsOwned | src/venue/binance-usdm/owned-protection-state.ts:236-313 | And what a close of it starts from |
| Handover.RevisedStartsCovered | src/venue/binance-usdm/owned-protection-state.ts:315-395 | What a revision leaves, finished or not, is what the next revision of the owned position starts from |
| Handover.RevisedStartsOwned | src/venue/binance-usdm/owned-protection-state.ts:315-395 | And what a close of it starts from |
| EntryCoordinator.EntryProtection.ReconcileProtectedEntry | src/venue/binance-usdm/protection-coordinator.ts:196-302 | Sends nothing and reports exactly what the answers prove; what it records as open is covered and was not flattened; what it records as flattened leaves at most what the entry has filled since; a finished open is recovered as open; a finished flatten recovers to exactly one stated outcome |
| EntryCoordinator.PromptEntry | src/venue/binance-usdm/protection-coordinator.ts:106-124 | A filled entry resolved on a truthful, answering venue carries exactly the planned quantity, however the venue writes it |
| EntryCoordinator.FlattenConverges | src/venue/binance-usdm/protection-coordinator.ts:240-302 | After a confirmed flatten, recovery confirms it again if and only if the entry was partial or the stop is not shown |
| EntryCoordinator.EntryAgreement | src/venue/binance-usdm/owned-protection-state.ts:751-794 | For arbitrary payloads the record accepts an open result exactly when the entry executed the planned quantity, and a flatten exactly when a filled entry did and the close is called filled |
| EntryCoordinator.TargetMeansOpen | src/venue/binance-usdm/protection-coordinator.ts:155-172 | Within one invocation a target at the venue means that no close was sent |
| ProtectionGuard.EnvKeepsContained | src/venue/binance-usdm/protection-revision.ts:110-125 | Whatever the venue does with reduce-only orders, further fills included, the position neither grows nor flips and fills are accounted for |
| ProtectionGuard.EnvKeepsCovers | src/venue/binance-usdm/protection-revision.ts:138-164 | A covering stop keeps covering: it works, or it closes everything as it fires |
| ProtectionGuard.EnvKeepsOpened | src/venue/binance-usdm/protection-coordinator.ts:96-113 | The position of an entry never exceeds what it executed less what its close executed, however either fills |
| ProtectionGuard.EnvKeepsBalanced | src/venue/binance-usdm/protection-coordinator.ts:96-125 | And equals it while no algo order triggers and no other order can move it |
| ProtectionGuard.TruthfulFill | src/venue/binance-usdm/protection-coordinator.ts:600-636 | An order proof taken from a truthful answer is a fact about the venue |
| ProtectionGuard.TruthfulAlgo | src/venue/binance-usdm/protection-coordinator.ts:638-674 | An algo proof taken from a truthful answer is a working order of exactly that quantity and trigger |
| ProtectionGuard.AnsweredFill | src/venue/binance-usdm/protection-coordinator.ts:600-636 | An answering venue proves every such fact again |
| ProtectionGuard.AnsweredAlgo | src/venue/binance-usdm/protection-coordinator.ts:638-674 | And every working algo order |
| Lookups.LookupAlgo | src/venue/binance-usdm/protection-revision.ts:484-523 | Evidence always passes the record's own check; it is true on a truthful venue and found on an answering one |
| Lookups.LookupFill | src/venue/binance-usdm/protection-revision.ts:439-482 | The same for a full fill of the expected quantity |
| Lookups.ResolveFill | src/venue/binance-usdm/protection-revision.ts:403-437 | The placement's reply counts only when it proves the full fill itself |
| Lookups.CancelOwnedAlgo | src/venue/binance-usdm/protection-revision.ts:525-536 | Complete exactly on a proven cancel; an order that cannot be found stays pending |
| Lookups.InspectAlgoCleanup | src/venue/binance-usdm/protection-revision.ts:538-560 | A cancelled order is reported as such and only then, on a truthful and answering venue |
| Lookups.LookupOrdinaryFill | src/venue/binance-usdm/protection-coordinator.ts:473-491 | Any proven fill, partial ones too, with the venue's executed quantity |
| Lookups.ResolveOrdinaryFill | src/venue/binance-usdm/protection-coordinator.ts:430-460 | The placement's reply when it proves a fill, otherwise a lookup |
| Evidence.ProvenFillMatches | src/venue/binance-usdm/owned-protection-state.ts:901-916 | A produced fill proof passes the consumer's check if and only if the venue called the order filled |
| Evidence.ProvenAlgoMatches | src/venue/binance-usdm/owned-protection-state.ts:918-936 | A produced algo proof always passes the consumer's check |
| OwnedState.StateIsCanonical | src/venue/binance-usdm/owned-protection-state.ts:1009-1063 | Validation is idempotent: every stored state is its own canonical form |
| OwnedState.PendingIsCanonical | src/venue/binance-usdm/owned-protection-state.ts:1065-1140 | The same for a pending transition, whose plan is recovered from its stored request |
| OwnedState.NextStateMeaning | src/venue/binance-usdm/owned-protection-state.ts:983-1007 | When a next state is accepted, and every field of it |
| OwnedState.PendingIsOpen | src/venue/binance-usdm/owned-protection-state.ts:1065-1140 | A stored state never waits for a final result, nor for a request that is not valid or not its own |
| Lifecycle.StageEntryMeaning | src/venue/binance-usdm/owned-protection-state.ts:134-165 | From an idle record staging succeeds exactly for a valid request without an owner, and every field of what it stores |
| Lifecycle.StageRevisionMeaning | src/venue/binance-usdm/owned-protection-state.ts:167-198 | Exactly when the request's pointer is the durable one, with every field |
| Lifecycle.StageCloseMeaning | src/venue/binance-usdm/owned-protection-state.ts:200-234 | Exactly when the request's pointer is the durable one, with every field |
| Lifecycle.ApplyEntryMeaning | src/venue/binance-usdm/owned-protection-state.ts:236-313 | When a result applies to a pending entry, and every field of what it leaves: only terminal proven results clear it, an open one creates ownership; a rejection is refused |
| Lifecycle.ApplyRevisionMeaning | src/venue/binance-usdm/owned-protection-state.ts:315-395 | The same for a revision: ownership moves to its computed next with the pair proven, and pending clears with the cleanup |
| Lifecycle.ApplyCloseMeaning | src/venue/binance-usdm/owned-protection-state.ts:397-453 | The same for a close |
| Lifecycle.ApplyEntryUnstaged | src/venue/binance-usdm/owned-protection-state.ts:236-313 | When a result applies that was never staged, and every field of what it leaves |
| Lifecycle.ApplyRevisionUnstaged | src/venue/binance-usdm/owned-protection-state.ts:315-395 | The same for a revision, whose rejection then leaves ownership as it was |
| Lifecycle.ApplyCloseUnstaged | src/venue/binance-usdm/owned-protection-state.ts:397-453 | The same for a close |
| Lifecycle.WholeLifeConservation | src/venue/binance-usdm/owned-protection-state.ts:315-453 | In every reachable record the proven entry fill equals proven reductions plus what is owned; identity and direction are constant; closed means net zero |
| Lifecycle.RevisionNeverGoesBack | src/venue/binance-usdm/owned-protection-state.ts:315-395 | While a revision is pending, ownership that reached its next stays there |
| Lifecycle.PendingLeavesOnlyByProof | src/venue/binance-usdm/owned-protection-state.ts:236-453 | A pending transition is cleared only by a terminal result for the same request with complete proofs |
| Processes.RunsKeepInvariant | src/venue/binance-usdm/testnet-orchestrator.ts:108-314 | Over all interleavings of processes, crashes and competing writers, every effect was called under a commit of its own intent and the store is a run of the durable record |
| Processes.StageBeforeEffect | src/venue/binance-usdm/testnet-orchestrator.ts:245-251 | The step that calls an effect finds its canonical intent already committed |
| Processes.AtMostOnce | src/venue/binance-usdm/testnet-orchestrator.ts:188-261 | No two effects of revisions or closes are called for plans bound to one durable state |
| Processes.StoreConserves | src/venue/binance-usdm/testnet-orchestrator.ts:134-151 | Whatever is stored at any moment satisfies whole-life conservation |
| Processes.ClearedOnlyByProof | src/venue/binance-usdm/testnet-orchestrator.ts:265-314 | Pending leaves the store only by a proof-complete terminal result for the same request |
| Processes.CommitKeepsStore | src/storage/database.ts:89-126 | A compare-and-set over the version it was based on extends the run by exactly one transition |
| Processes.AppliedIsRecovered | src/venue/binance-usdm/owned-protection-state.ts:715-726 | The live path and recovery apply a result to the same canonical request, with the same outcome |
| Processes.LoneOperation | src/venue/binance-usdm/testnet-orchestrator.ts:108-263 | A process nobody disturbs commits its intent, calls its effect once under that commit and commits the result, and nothing else |
| Processes.LoneRecovery | src/venue/binance-usdm/testnet-orchestrator.ts:265-314 | And a recovery commits its result without any call |
| Processes.StaleWriteIsLost | src/storage/database.ts:89-126 | A write over a version that is no longer the last, or that the record refuses, changes nothing and ends its operation |
| Orchestrator.PermitCapsQuantity | src/venue/binance-usdm/testnet-orchestrator.ts:337-383 | A permit is valid if and only if it names this action, intent, symbol and plan, is in time, and caps the quantity as a number |
| Orchestrator.Repository.Save | src/venue/binance-usdm/owned-protection-state.ts:110-120 | Stores the canonical state exactly when nobody wrote since the version it is based on |
| Orchestrator.TestnetOrchestrator.ExecuteProtectedEntry | src/venue/binance-usdm/testnet-orchestrator.ts:108-153 | Nothing is sent without permit and committed intent; with no other writer the call is refused if and only if it is busy, not ready, not permitted or not what the record takes, and its result never conflicts; with others, only after one has written; what was sent and answered is the coordinator's; a result is refused by the record exactly when rejected or incompletely proven, on a truthful venue only when rejected; what is recorded is the result, field by field |
| Orchestrator.TestnetOrchestrator.ExecuteProtectionRevision | src/venue/binance-usdm/testnet-orchestrator.ts:212-263 | The same; a result is refused exactly when the reduction was rejected |
| Orchestrator.TestnetOrchestrator.ExecuteOwnedPositionClose | src/venue/binance-usdm/testnet-orchestrator.ts:155-210 | The same; whatever comes back applies |
| Orchestrator.TestnetOrchestrator.RecoverPending | src/venue/binance-usdm/testnet-orchestrator.ts:265-314 | Sends nothing, recovers what was pending from exactly what was answered, records it field by field, and conflicts only if another process wrote; from whatever a live run may leave, what it claims is so at the venue; it claims a finished transition whenever a finished live run left the venue so |
| Orchestrator.StagesExactly | src/venue/binance-usdm/owned-protection-state.ts:134-234 | The record stages a job if and only if it is a fresh or the very same pending entry, or a revision or close of exactly the position it owns, planned against exactly this state |
| CrashRecovery.CrashedEntry | src/venue/binance-usdm/testnet-orchestrator.ts:265-314 | From a crash at any await of a live entry, recovery only queries and its claims are so; with no other writer its result is recorded unless its proofs are incomplete |
| CrashRecovery.CrashedRevision | src/venue/binance-usdm/testnet-orchestrator.ts:265-314 | From a crash at any await of a live revision, the position is covered then and after recovery, a pair recovery calls proven covers what is left, and with no other writer the result is recorded |
| CrashRecovery.CrashedClose | src/venue/binance-usdm/testnet-orchestrator.ts:265-314 | From a crash at any await of a live close, owned orders are kept while the position is not flat, a close recovery calls proven has emptied it, and with no other writer the result is recorded |
| CrashRecovery.LostEntry | src/venue/binance-usdm/testnet-orchestrator.ts:141-150 | An open result lost in a crash is recovered by another process; with no other writer it is recorded with the same ownership and nothing pending |
| CrashRecovery.LostRevision | src/venue/binance-usdm/testnet-orchestrator.ts:251-260 | The same for a finished revision |
| CrashRecovery.LostClose | src/venue/binance-usdm/testnet-orchestrator.ts:198-207 | The same for a finished close |
| MutationContract.OrderIdInjective | src/venue/binance-usdm/mutation-contract.ts:336-342 | Different intents, and different purposes of one intent, never share a client id |
| MutationContract.OrderIdIsClientId | src/venue/binance-usdm/mutation-contract.ts:286-291 | A derived id always passes the client-id pattern |
| MutationContract.EntryDecides | src/venue/binance-usdm/mutation-contract.ts:82-114 | A request is valid if and only if its intent and symbol are and its amounts are positive numbers; the plan keeps each of them and names each order after the intent and its own purpose |
| MutationContract.OwnedDecides | src/venue/binance-usdm/mutation-contract.ts:293-310 | The same for an owned position, whose two orders must have valid and different names |
| MutationContract.RevisionDecides | src/venue/binance-usdm/mutation-contract.ts:116-163 | A revision is valid if and only if it is of a valid position, to positive prices, by a proper part of the quantity or by none but then to another price, under new names |
| MutationContract.CloseDecides | src/venue/binance-usdm/mutation-contract.ts:165-179 | A close is valid if and only if its intent and its position are |
| MutationContract.EntryIsCanonical | src/venue/binance-usdm/mutation-contract.ts:82-104 | A plan is recovered exactly from the request it is stored as |
| MutationContract.RevisionIsCanonical | src/venue/binance-usdm/mutation-contract.ts:116-163 | The same for a revision |
| MutationContract.CloseIsCanonical | src/venue/binance-usdm/mutation-contract.ts:165-179 | The same for a close |
| MutationContract.RevisionSplitsQuantity | src/venue/binance-usdm/mutation-contract.ts:140-163 | Reduction and remainder sum to the owned quantity; the successor is valid, keeps identity and uses two new identities |
| DecimalText.CanonicalIsFaithful | src/venue/binance-usdm/mutation-contract.ts:320-324 | Canonicalisation keeps the value and is idempotent |
| DecimalText.CanonicalDecides | src/venue/binance-usdm/mutation-contract.ts:320-324 | Two texts have one canonical form if and only if they denote one number |
| DecimalText.CanonicalPositiveIff | src/venue/binance-usdm/mutation-contract.ts:221-230 | The positive form exists exactly for plain texts of positive value |
| DecimalText.DecimalEqualsDecides | src/venue/binance-usdm/mutation-contract.ts:232-241 | Decides numeric equality |
| DecimalText.SubtractMeaning | src/venue/binance-usdm/mutation-contract.ts:198-219 | Succeeds exactly on a positive difference and prints it exactly and canonically |
| DecimalText.CompareDecides | src/venue/binance-usdm/testnet-orchestrator.ts:375-383 | Decides numeric order |
| DecimalText.ParseScaledMeaning | src/venue/binance-usdm/management-plan.ts:546-555 | What exact, floor and ceiling parsing return for every text and scale |
| DecimalText.PrintMeaning | src/venue/binance-usdm/management-plan.ts:625-629 | Printing is exact and canonical |
| DecimalText.PrintParseRoundTrip | src/venue/binance-usdm/entry-plan.ts:458-468 | Parsing what was printed gives the number back, at every scale |
| DecimalText.ParsePrintRoundTrip | src/venue/binance-usdm/entry-plan.ts:397-410 | Printing what was parsed exactly gives the canonical text back |
| DecimalText.SignedCentsIsFloor | src/venue/binance-usdm/management-plan.ts:567-580 | Signed parsing to cents is the floor, for negative amounts too, whenever that is a safe integer, and nothing otherwise |
| Rounding.GreatestCommonDivisor | src/venue/binance-usdm/entry-plan.ts:451-456 | The loop computes Euclid's gcd |
| Rounding.GcdCombination | src/venue/binance-usdm/entry-plan.ts:451-456 | Which divides both numbers and is an integer combination of them |
| Rounding.LcmIsLeast | src/venue/binance-usdm/entry-plan.ts:443-449 | The multiples of both steps are exactly the multiples of their lcm |
| Rounding.SignedFloorAdjunction | src/venue/binance-usdm/management-plan.ts:611-616 | The signed ratio is the floor |
| EntryPlan.AffordableIff | src/venue/binance-usdm/entry-plan.ts:279-300 | Through four nested roundings a quantity fits both budgets if and only if it is at most the raw quantity |
| EntryPlan.SizingIsOptimal | src/venue/binance-usdm/entry-plan.ts:279-300 | The chosen quantity is the largest affordable multiple of both steps |
| EntryPlan.PlannedLossCoversTrueLoss | src/venue/binance-usdm/entry-plan.ts:266-301 | Planned loss is never below the exact loss at the stop with both costs on the entry notional |
| EntryPlan.AppliedRateCoversTaker | src/venue/binance-usdm/entry-plan.ts:271-275 | The applied round trip is never below the estimate or twice the taker rate |
| EntryPlan.SizeEntry | src/venue/binance-usdm/entry-plan.ts:246-323 | Every number of the block, independently of its computation: the largest quantity on both step grids that respects both budgets, the rates, the day's boundary and floor; it throws exactly when a trade costs nothing or a number leaves the safe range, and pushes exactly the guards that fail; the margin and trade-risk guards cannot fire, the open-risk guard only when more risk was asked than policy allows |
| EntryPlan.Compile | src/venue/binance-usdm/entry-plan.ts:66-382 | Ready if and only if the inputs are acceptable, the sizing sound and the request valid; a ready plan's request denotes exactly the sized quantity and prices, and equity after the stop stays above the boundary and at the floor; exactly when it throws |
| EntryPlan.BlockersDecide | src/venue/binance-usdm/entry-plan.ts:74-212 | Nothing is pushed before the sizing if and only if the inputs are acceptable: context and day ready and fresh, the entry priced at the ask of a long and the bid of a short, stop and target on their sides and on the tick, leverage and risk within policy |
| ManagementPlan.TighteningBound | src/venue/binance-usdm/management-plan.ts:582-616 | Tightening the stop lowers computed protected equity by at most one cent long and never short |
| ManagementPlan.TighteningCanCostOneCent | src/venue/binance-usdm/management-plan.ts:362-377 | And the cent is reached |
| ManagementPlan.PlanReduction | src/venue/binance-usdm/management-plan.ts:280-307 | The reduction is the largest on both step grids within the requested share, never all of it, and the remainder is exactly the rest; what is pushed, exactly |
| ManagementPlan.PlanRisk | src/venue/binance-usdm/management-plan.ts:345-411 | Every number of the block, independently of its computation: the exit rate, equity and protected equity before and after, the day's loss boundary and floor, open risk and its limit; it throws exactly when a number leaves the safe range; no blocker if and only if the guards hold |
| ManagementPlan.RiskIsUnique | src/venue/binance-usdm/management-plan.ts:345-411 | Those conditions admit one answer only |
| ManagementPlan.PnlAdjunction | src/venue/binance-usdm/management-plan.ts:582-592 | Profit is the floor of the exact gain, for either direction |
| ManagementPlan.CostAdjunction | src/venue/binance-usdm/management-plan.ts:594-600 | A cost is the ceiling of its rate on the ceiled notional |
| ManagementPlan.BlockersDecide | src/venue/binance-usdm/management-plan.ts:101-332 | Nothing is pushed by the inputs if and only if they are acceptable: evidence complete, market uncrossed, stop and target on their sides of the mark and on the tick, a proper part to reduce, a valid day |
| ManagementPlan.CheckRisk | src/venue/binance-usdm/management-plan.ts:339-413 | The whole risk block: when it runs, when it throws, and that it pushes nothing if and only if equity, the day's record and the guards are right |
| ManagementPlan.Compile | src/venue/binance-usdm/management-plan.ts:89-494 | Ready if and only if everything passes, with the exact split, the exact risk and the canonical request of just that split; exactly when the compiler throws; what a ready plan guarantees, and exactly when one is ready without the guards |
| ManagementPlan.LinkKeepsEquity | src/venue/binance-usdm/management-plan.ts:362-411 | What one plan projects is a lower bound of what the next starts from |
| ManagementPlan.ProtectedEquityRatchet | src/venue/binance-usdm/management-plan.ts:345-411 | Along any chain of admitted plans protected equity never falls and stays above the boundary and at the floor that the day's start and the policy make |
| ManagementPlan.InexactEntryPriceSkipsTheGuards | src/venue/binance-usdm/management-plan.ts:281-350 | A concrete plan that is ready although it loosens the stop |
| OrderBook.Book.Ingest | src/venue/binance-usdm/order-book.ts:50-61 | The object follows the specification for every update |
| OrderBook.Book.LoadSnapshot | src/venue/binance-usdm/order-book.ts:63-84 | And for a snapshot with its buffered updates |
| OrderBook.Book.ApplyLive | src/venue/binance-usdm/order-book.ts:121-157 | And for a live update |
| OrderBook.LiveStepMeaning | src/venue/binance-usdm/order-book.ts:121-174 | An update is decided by its ids and symbol alone: an older one is ignored, a linked one of the same symbol is applied, and exactly anything else is a gap; with the whole next state and the reason |
| OrderBook.SnapshotPositionIndependence | src/venue/binance-usdm/order-book.ts:50-84 | From a reset book it does not matter where among the updates the snapshot arrives |
| OrderBook.GapFreezes | src/venue/binance-usdm/order-book.ts:50-61 | After a gap nothing changes the book |
| OrderBook.BookIsUnbrokenChain | src/venue/binance-usdm/order-book.ts:121-179 | A book is its snapshot followed by the chain of updates that link, and it gaps if and only if one neither is older nor links |
| OrderBook.LastMentionDecides | src/venue/binance-usdm/order-book.ts:227-235 | What a price shows depends only on its last mention |
| OrderBook.SynchronisedBook | src/venue/binance-usdm/order-book.ts:50-179 | The whole law: which levels a synchronised book shows on both sides, its id, times and symbol, and exactly when it is ready |
| PrivateState.State.Apply | src/venue/binance-usdm/private-state.ts:72-100 | The object follows the specification, with the array shorter than twice the window after every call |
| PrivateState.State.RememberEvent | src/venue/binance-usdm/private-state.ts:180-193 | Set, array and offset behave as a first-in first-out window |
| PrivateState.State.ReconcileWith | src/venue/binance-usdm/private-state.ts:102-163 | Reconciliation follows the specification and leaves the window alone |
| PrivateState.WindowIsFifo | src/venue/binance-usdm/private-state.ts:180-193 | The window is the last distinct effective events, each counted once |
| PrivateState.DuplicateIff | src/venue/binance-usdm/private-state.ts:72-100 | An event is a duplicate if and only if its body is among theirs, and then changes nothing |
| PrivateState.RunShowsLastMentions | src/venue/binance-usdm/private-state.ts:195-270 | After any run each of the three maps holds what it held, overlaid by everything the events that took effect report, in order |
| PrivateState.LastMentionShows | src/venue/binance-usdm/private-state.ts:195-270 | So a key shows its last mention, and otherwise what it showed before |
| PrivateState.RunShowsLastTimes | src/venue/binance-usdm/private-state.ts:72-100 | The stream has expired if an event that took effect said so, and the times are the last ones given |
| PrivateState.ReconcileReplaces | src/venue/binance-usdm/private-state.ts:102-163 | A snapshot replaces each part it brings by exactly what it lists, clears the expiry and leaves the rest |
| StreamReplay.ReplayEvidence | src/venue/binance-usdm/stream-replay.ts:29-116 | The loop is the fold over the records, each processed or ignored |
| PublicLane.StepRefinesIff | src/venue/binance-usdm/public-stream-lane.ts:91-291 | A step keeps live book and replay equal if and only if it is not a foreign frame that cannot restart the lane |
| PublicLane.ReplayRefinesPublicLane | src/venue/binance-usdm/public-stream-lane.ts:91-291 | For all interleavings with frames of the lane's own stream, replaying the log so far gives the live book, except between a stop and the next connect |
| PublicLane.RunHolds | src/venue/binance-usdm/public-stream-lane.ts:91-291 | In every run a gapped book is seen only with a reconnect armed, a waiting lane has its timer armed under its own epoch, and a running lane shows a ready book |
| PublicLane.FailureReconnects | src/venue/binance-usdm/public-stream-lane.ts:122-146 | A failure of the current connection drops the book and leads to a new connection under a new epoch |
| PublicLane.UnbrokenConnectionRuns | src/venue/binance-usdm/public-stream-lane.ts:148-258 | As long as no update breaks the chain the lane runs, in one epoch, with exactly the book of snapshot and chain |
| PublicLane.BrokenChainReconnects | src/venue/binance-usdm/public-stream-lane.ts:241-291 | And the first update that breaks it sends the lane back to reconnect |
| PublicLane.LaneObject.OnFrame | src/venue/binance-usdm/public-stream-lane.ts:207-258 | The handler follows the step function |
| PublicLane.ForeignFrameBreaksReplay | src/venue/binance-usdm/public-stream-lane.ts:207-258 | A run in which a foreign frame, decoded after its socket failed, leaves replay with a buffered update and the live book empty |
| PrivateLane.StepSimulatesIff | src/venue/binance-usdm/private-stream-lane.ts:100-316 | A step keeps live account and replay in step if and only if it is benign |
| PrivateLane.ReplayRefinesPrivateLane | src/venue/binance-usdm/private-stream-lane.ts:100-316 | For all runs of benign steps the account rebuilt from the log equals the live one after every handler |
| PrivateLane.FailureReconnects | src/venue/binance-usdm/private-stream-lane.ts:136-166 | A failure of the current connection leads through cleanup and timer to a new one, and leaves the account alone |
| PrivateLane.ConnectionFollows | src/venue/binance-usdm/private-stream-lane.ts:100-237 | Over a whole connection the account is the snapshot's with every event applied once and in order, those that came before it included |
| PrivateLane.OverflowReconnects | src/venue/binance-usdm/private-stream-lane.ts:210-237 | A buffer that overflows, or a stream that has expired, sends the lane back |
| PrivateLane.LateFrameIsLostByReplay | src/venue/binance-usdm/private-stream-lane.ts:210-237 | A run with every continuation in order, the late frame having arrived on an open socket, in which the two accounts differ |
| PrivateLane.FrameAfterStopIsReplayed | src/venue/binance-usdm/private-stream-lane.ts:210-237 | Such a run in which replay applies a frame decoded after the lane stopped |
| PrivateLane.ExpiryWithoutRestart | src/venue/binance-usdm/private-stream-lane.ts:268-310 | Such a run in which an expired stream is met with a restart pending that never comes, and the two accounts differ |
| PrivateLane.StopDuringBackoffDisablesRestarts | src/venue/binance-usdm/private-stream-lane.ts:69-88 | After a stop with a restart timer armed no failure restarts the lane until a cleanup completes |
| PrivateLane.LaneObject.OnFrame | src/venue/binance-usdm/private-stream-lane.ts:210-213 | The arrival of a frame follows the step function: one of another epoch, or of a lane not to run, is dropped |
| PrivateLane.LaneObject.OnMessage | src/venue/binance-usdm/private-stream-lane.ts:214-237 | And so does what happens once it is decoded |
| PrivateLane.LaneObject.OnSnapshot | src/venue/binance-usdm/private-stream-lane.ts:168-208 | And so does the reconciliation with its buffered frames |
| PaperLedger.RunsKeep | src/core/trading-engine.ts:361-661 | Over all runs: balance = initial equity + net of trades - fees held by positions; at most one position; stop and target strictly straddle the mark; no day's floor is lowered |
| PaperLedger.CloseKeeps | src/core/trading-engine.ts:580-661 | Closing any part conserves every cent and keeps stop and target |
| PaperLedger.MarkKeeps | src/core/trading-engine.ts:161-214 | A mark move leaves a position open only above the loss boundary and at the floor |
| PaperLedger.FlattenKeeps | src/core/trading-engine.ts:144-159 | Flattening always ends flat and stopped |
| PaperLedger.SnapshotKeeps | src/core/risk-engine.ts:59-93 | A snapshot only raises the day's floor, whatever the policy says now |
| PaperLedger.SnapshotIsIdempotent | src/core/risk-engine.ts:42-112 | Reading the state twice records nothing new |
| PaperLedger.FlatIsRealised | src/core/trading-engine.ts:580-661 | A flat account holds its initial equity and what its trades netted |
| PaperLedger.SizingIsWithinBudget | src/core/risk-engine.ts:114-185 | Planned loss fits the risk budget and margin the free pot, on the quantity step |
| PaperLedger.ProjectionHolds | src/core/trading-engine.ts:404-446 | When the costs fit, right after an accepted entry protected equity is at most 2 cents below the projection that admitted it, and one more for each 20,000 basis points of stop distance beyond |
| PaperLedger.ProjectionError | src/core/risk-engine.ts:126-173 | For every policy and stop, the shortfall is the notional times the dearness of the exit, between bounds that only the roundings separate |
| PaperLedger.ProjectionFails | src/core/risk-engine.ts:126-173 | With a dearness above the basis point a stop distance may be rounded up by, the shortfall exceeds any amount on a notional large enough |
| PaperLedger.DearExitBreaksProjection | src/core/risk-engine.ts:24-40 | For every size of account, an accepted entry that is a quarter of the account short of its projection and at once below the daily loss boundary |
| PaperLedger.PartialIsPart | src/core/trading-engine.ts:543-557 | A partial close is a step multiple, at most the asked share, and leaves at least a step |
| PaperNumbers.PnlIsGain | src/domain/money.ts:44-54 | A profit is the exact gain to half a cent and has its sign, for both sides |
| PaperNumbers.CloseBooks | src/core/trading-engine.ts:580-661 | A close books one trade with that gain, its part of the entry fee and half the round trip, moves the balance by gain less fee, and never books a loss on a winner or a gain on a loser |
| PaperNumbers.EquityIsMarked | src/core/risk-engine.ts:16-22 | Equity is the balance and what the open position would book at the mark |
| PaperNumbers.RiskIsDistance | src/core/risk-engine.ts:24-40 | Open risk is the loss from the mark to the stop, if any is left, and the stressed cost of leaving |
| PaperNumbers.SnapshotMeaning | src/core/risk-engine.ts:42-112 | Every number and every reason of a snapshot, the raised floor and the loss boundary among them |
| PaperNumbers.SizeDecides | src/core/risk-engine.ts:114-185 | An entry is sized if and only if some quantity is admissible, and then at that one: the largest whose rounded-up notional fits budget and margin |
| PaperNumbers.ChosenIsLargest | src/core/risk-engine.ts:145-158 | Through the chain of floors, a step multiple fits if and only if it is at most the chosen one |
| PaperNumbers.EntryOutcome | src/core/trading-engine.ts:361-464 | Exactly when an entry is accepted, and the whole account it leaves |
| PaperNumbers.MarkOutcome | src/core/trading-engine.ts:161-214 | What a mark move does to the open position: stop at the mark, target at the target, flattened by the guards, or left alone |
| PaperNumbers.FlattenOutcome | src/core/trading-engine.ts:144-159 | Flattening books the position at the mark and stops the runtime |
| PaperNumbers.StopMoveOutcome | src/core/trading-engine.ts:484-516 | A stop moves if and only if it stays on its side and the amended account keeps the policy; nothing else changes |
| PaperNumbers.TargetMoveOutcome | src/core/trading-engine.ts:518-541 | A target moves if and only if it stays on its side |
| PaperNumbers.PartialDecides | src/core/trading-engine.ts:543-557 | A partial close takes the largest step multiple within its share, and is refused exactly when that is nothing or leaves less than a step |
| PaperEngine.Engine.Snapshot | src/core/risk-engine.ts:42-112 | The object follows the specification |
| PaperEngine.Engine.EnterPosition | src/core/trading-engine.ts:361-464 | The account afterwards is the specified one and keeps the invariant; what it opens is the largest quantity that fits budget and margin, with every guard respected |
| PaperEngine.Engine.CloseQuantity | src/core/trading-engine.ts:580-661 | The account afterwards is the specified one: the exact gain to half a cent is booked with its sign, less half the round trip, so that a winning close never books a loss |
| PaperEngine.Engine.UpdatePaperMark | src/core/trading-engine.ts:161-214 | The account afterwards is the specified one and need not be flattened; a touched stop closes at the mark and a touched target at the target |
| PaperEngine.Engine.FlattenAll | src/core/trading-engine.ts:144-159 | Ends flat and stopped, every cent accounted for |
| PaperEngine.Engine.MoveStopTo | src/core/trading-engine.ts:484-516 | A stop move that breaks the policy changes nothing, the day's record included |
| PaperEngine.Engine.MoveTargetTo | src/core/trading-engine.ts:518-541 | Keeps the invariant |
| PaperEngine.Engine.ReducePosition | src/core/trading-engine.ts:543-578 | Keeps the invariant |
| PaperEngine.Engine.SetPolicy | src/core/trading-engine.ts:123-128 | Keeps the invariant under any valid policy |

## Left out

- HTTP, signing, listen keys, redaction, the API server, configuration, file rotation and manifests: I/O. A venue call is an accepted, ambiguous or refused request and a later answer.
- SHA-256 and canonical JSON: hashes are taken as injective on canonical values, and stored JSON as the value itself.
- Freshness, schema strings, authority flags and other one-branch guards of plans and bindings enter as booleans or premises.
- `compileBinanceUsdmOwnedProtectionBinding`: a ready plan or binding is taken to name a durable state with nothing pending.
- `closeProtectedEntry` and `reconcileProtectedClose`: the orchestrator does not use them.
- `execution-context.ts`, `testnet-preflight.ts`, `testnet-authority.ts`, `market-stream-recorder.ts`, `opportunity-engine.ts`, `price-context.ts`: conjunctions of guards, repeats of the lanes, or floating-point heuristics.
- The coordinator class of `protection-revision.ts` is two classes here, one for revisions and one for closes; both take validated plans.
- An order's symbol does not select a position in `Venue`: there is one instrument. The unfilled rest of an order that expires is one that never fills.
- `stop` of the private lane writes its record when the listen key has been closed; the model writes it at once. Replay ignores that record.
- IEEE rounding and the safe-integer range of the paper engine: cents, units and basis points are integers and `Math.round` is floor(x + 1/2). The planners' checked numbers are checked as in the source; their unchecked sums are exact.
- Upper-casing and lower-casing of letters outside ASCII in symbols and UUIDs.
- A socket factory that throws inside the public lane's connect, and records that make replay throw.
- Books with differently written equal prices: the maps are keyed by the price text, as in the source.
- Intent replay, journal and receipts of the paper engine; a call is modelled as run to its end.
- Processes.AtMostOnce: says nothing of entries, whose identical pending request the source executes again.
- EntryCoordinator.EntryProtection.ReconcileProtectedEntry: does not promise that recovery after a flatten becomes terminal, because it need not.
- CrashRecovery.LostEntry: covers a lost open result only; a lost flatten recovers as `EntryCoordinator.FlattenConverges` says.
