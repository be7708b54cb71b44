# Paired-order execution: a Dafny model

This project models the paired-order execution protocol of the repository and proves what it
promises of every run. An *episode* sells a perpetual on Lighter and hedges it with a spot purchase
on Robinhood Chain; when something goes wrong both legs are unwound. Four layers take part: the
saga (`execution/src/saga.rs`), the durable store with its action queue, leases and venue-event log
(`coordinator/src/store.rs`), the workers that claim actions (`coordinator/src/worker.rs`), and the
intent arithmetic that sizes both legs (`execution/src/intent.rs`). Two further cores stand beside
it: the Robinhood signer's journal and writer (`signer/robinhood`), and the Lighter order book
(`runtime/src/lighter.rs`).

## How it is built

| files | content |
|---|---|
| `Saga`, `PairIntent`, `ExitAuthority`, `Decimal` | saga transitions and the mutable saga object, intent validation and hedge arithmetic, the two-stage exit authority, decimal amounts |
| `VenueLog` | sessions, frontier query, quarantine, routing and applying of venue events |
| `CoordinatorTypes`, `StoreOps`, `Store` | the tables, every store transaction as a function on database values, and the store object whose methods update its tables in place and are proved against those functions |
| `Worker`, `World` | the workers' pure decisions; the whole system as a state machine in which a run stops at every await |
| `CoreInvariant` … `OutsideSteps` | the invariant and its preservation by every step |
| `History`, `Coordinator` | what no step takes back; the theorems about all runs |
| `LostLease` | what a worker can still do without its lease |
| `Scenario`, `EntryScenario`, `SpotScenario`, `OverfillScenario` | runs in full: an order sent and a spot request handed over by a worker that lost its lease, and the overfill the saga refuses |
| `Journal`, `Writer` | nonce reservations, replacement families, Submit, the reconciliation pass |
| `OrderBook` | frames applied in place against a replay of the current epoch |

A run (`Worlds.After`) is any list of steps from the empty, halted deployment: clock ticks,
operator mode changes, halts, new intents, exits, recoveries, recorded venue events, claims, and one
await of one worker. A worker that is never scheduled again has crashed; one that is scheduled late
has stalled, and its lease may have been taken over meanwhile. Clocks, signers, venues, quotes,
draws from the operator sequence and fresh identifiers are inputs of a step, restricted only by
`Worlds.Admissible`. The invariant is written as a family of facets
(`WorldInvariants.Keeps`, `DbKeeps`) so that a proof opens one facet at a time.

Conventions: identifiers, hashes and UUIDs are natural numbers, zero standing for the empty one;
lease tokens and action ids are never reused; JSON payloads are records with optional fields.
Integer widths are explicit where the source checks them.

Where the source and its documentation differ, the model follows the source.
`docs/execution-control-plane.md` (lines 119-121) says an old process cannot rebroadcast an action
after another worker reclaimed it. It can, for orders and for spot requests, since the lease is not looked at
between the last durable write and the hand-over; the model says exactly when.
A Lighter order: exactly if the worker was authorized, with a transaction it can encode, when it lost the
lease (`Coordinator.LateSendsExactly`; the run for every sendable intent is `Scenarios.StalledWorkerSends`).
A spot request: exactly if the worker stood at its persisted request, or its claim had brought that request
along and it had not yet gone past it (`Coordinator.LateHandOversExactly`; the run for every hedgeable intent
is `SpotScenarios.StalledWorkerHandsOver`). Either way it repeats what is on record: one action is only ever
sent as one transaction (`Coordinator.OneTransactionPerAction`) or asked for as one request
(`Coordinator.OneRequestPerAction`), and nothing else it does without its lease changes an action,
an intent, an index or a nonce (`LostLeases.StaleIsHarmless`).

So the signer can still be asked for a hedge given up for an unwind: `SpotScenarios.GivenUpHedgeIsAsked` is the run, and
`Coordinator.FinishedIsAskedExactly` says when, namely while one of its workers stands ready to hand over the persisted
request. With no request on record it never is (`Coordinator.UnrequestedIsNeverHanded`). However often it is
asked and whatever was recovered in between, it is one purchase with one request id
(`Coordinator.OneHedgePerEpisode`).

The saga accepts every event a worker proposes but one: an overfill no larger than the recorded fill.
`OverfillScenarios.RefusedOverfillIsReached` is a run that gets there, and
`Coordinator.RefusedOverfillChangesNothing` says what the refusal leaves.

Two properties do not hold of one layer alone, and the model says exactly when they do. `Closed` does
not mean flat for the saga by itself (`Sagas.ClosedNeedNotBeFlat`, `Sagas.ClosesFlatExactly`); for the
composed system it does (`Coordinator.ClosedIsFlat`). The default exit price, rounded up when the
authority is built, is refused at send time unless 10000 divides mark times deviation
(`ExitAuthorities.DefaultPriceCanFail`, `ExitAuthorities.DefaultPricePassesExactly`).

## Model

| member | source | states |
|---|---|---|
| Coordinator.EveryRunIsSound | coordinator/src/worker.rs:137-1491 | in every run, with any interleaving, crash, stall or lease take-over, the whole invariant of database, runs, leases, sends and grants holds |
| Coordinator.ClosedIsFlat | coordinator/src/worker.rs:1400-1434 | a closed episode has unwound = filled > 0, and if it held spot a confirmed sale of exactly that amount at no less than the authority's minimum was applied |
| Coordinator.SendsAreAuthorized | coordinator/src/worker.rs:137-423 | every broadcast is the persisted, encodable transaction of an order action with a durable send authorization; an entry's also has a recorded grant |
| Coordinator.OneTransactionPerAction | coordinator/src/worker.rs:137-423 | however long the run goes on, one action is only ever broadcast as one transaction |
| Coordinator.VoidedEntriesAreNeverSent | coordinator/src/worker.rs:137-423 | an entry cancelled or expired by a worker was never broadcast and never will be |
| Coordinator.SentEntriesAreNeverVoided | coordinator/src/worker.rs:137-423 | an entry that was broadcast is never cancelled or expired by a worker later |
| Coordinator.LateSendsExactly | coordinator/src/worker.rs:300-423 | a worker that lost its lease can still send a Lighter order, some time, exactly if it was past its authorization with an encodable transaction when it lost it |
| Coordinator.LateHandOversExactly | coordinator/src/worker.rs:727-812 | a worker that lost its lease can still hand a spot request to the signer, some time, exactly if it stood at its persisted request, or carried one from its claim and was not past it, when it lost it |
| Coordinator.RequestsArePersisted | coordinator/src/worker.rs:1280-1315 | every request handed to the signer is the one on its action's row, and that row's request is for the amounts of its fill or of its authority |
| Coordinator.OneRequestPerAction | coordinator/src/worker.rs:1280-1315 | however long the run goes on, and whoever works on it, one spot action only ever asks for one request |
| Coordinator.OneHedgePerEpisode | coordinator/src/store.rs:2791-2942 | whatever was stalled, refused, failed safe or recovered, every purchase handed to the signer for one intent is the same request, its id included |
| Coordinator.UnrequestedIsNeverHanded | coordinator/src/worker.rs:1465-1491 | a spot action that ended with no request on record was never handed to the signer and never will be |
| Coordinator.FinishedIsAskedExactly | coordinator/src/worker.rs:1465-1491 | a finished spot action, such as a hedge given up for an unwind, can still be handed to the signer exactly if one of its workers stands ready to, and then its request is on record |
| Coordinator.HedgedIsDeltaNeutral | coordinator/src/worker.rs:849-937 | in every run a hedged saga holds exactly the target its fill calls for, and both legs carry the same exposure |
| Coordinator.LostStaysLost | coordinator/src/store.rs:1268-1393 | a lost lease never comes back, and a worker without one never becomes authorized later |
| LostLeases.ReachesExactly | coordinator/src/worker.rs:367-812 | an await broadcasts a Lighter order exactly if it is past its authorization with a transaction it can encode, hands a spot request over exactly at its request, and reaches outside in no other way |
| LostLeases.StaleNeverArms | coordinator/src/worker.rs:1122-1315 | without its lease a worker never comes by a spot request, and having handed one over it does not do so again |
| LostLeases.StaleIsHarmless | coordinator/src/store.rs:2580-2600 | without its lease no await of a worker changes an action, an intent, an index or a nonce, or authorizes a send |
| Scenarios.StalledWorkerSends | coordinator/src/worker.rs:339-423 | for every sendable intent there is a run in which its entry is sent by a worker whose lease already belongs to another |
| SpotScenarios.StalledWorkerHandsOver | coordinator/src/worker.rs:727-812 | for every hedgeable intent there is a run in which its purchase is handed to the signer by a worker whose lease already belongs to another |
| SpotScenarios.GivenUpHedgeIsAsked | coordinator/src/worker.rs:727-812 | for every hedgeable intent there is a run in which the purchase is finished and the saga unwinds, and the signer is then asked for the purchase |
| SpotScenarios.CanaryIsHedgeable | execution/src/intent.rs:363-416 | the intent of the source's tests is such an intent |
| Scenarios.CanaryIsValid | execution/src/intent.rs:363-416 | validation accepts the intent of the source's tests |
| Coordinator.HaltsFenceEntries | coordinator/src/store.rs:1422-1482 | for every entry authorization the number of halts at the claim equals the number at the authorization |
| Coordinator.HaltedClaimsAreRefused | coordinator/src/store.rs:1422-1482 | a worker whose claim is older than some halt is not authorized and changes nothing by asking |
| Coordinator.OneLiveActionThatFits | coordinator/src/store.rs:1815-2036 | at most one pending or leased action per intent, and its kind is the one the saga state calls for, so none in Hedged, Unhedged or a resolved state |
| Coordinator.OneActiveIntent | coordinator/src/store.rs:791-843 | at most one unresolved intent exists, and it is the active one |
| Coordinator.LeaseholdersAreNeverStale | coordinator/src/store.rs:2580-2600 | while its token is in the table a run's claimed saga, intent, kind and payload are the stored ones |
| Coordinator.LogReplaysToSaga | coordinator/src/store.rs:2735-2789 | replaying an intent's log from a new saga gives the stored saga, its version counts the log, and active means not resolved |
| Coordinator.EpisodesAreMonotone | coordinator/src/store.rs:2754-2789 | along a run fills and unwinds never decrease, the spot amount is written once, and a terminal saga never moves again |
| Coordinator.UnwindsConserve | coordinator/src/worker.rs:939-1120 | for every unwind order and its reconciliation, ordered amount plus amount unwound before equals the whole fill; a live order is for exactly what is left |
| Coordinator.SignedUnwindsMatch | coordinator/src/worker.rs:1579-1622 | every signed unwind is a reduce-only buy of its payload's amount at its authority's price, at or above the mark, under an authority for exactly the recorded spot |
| Coordinator.SalesFollowUnwinds | coordinator/src/worker.rs:1030-1055 | spot sales exist only once unwound = filled and spot > 0, and are for all of it |
| Coordinator.AutomaticUnwindsAreBounded | coordinator/src/store.rs:3052-3107 | the unwind orders created without operator authority never outnumber max_unwind_attempts |
| Coordinator.OrderIndexesAreUnique | coordinator/src/store.rs:3043-3159 | no two order actions share a client order index, signed or not, across intents, attempts and operator recovery |
| Coordinator.SignedOrdersCarryTheirIds | coordinator/src/worker.rs:1579-1622 | every signed order carries the index and the nonce of its own action |
| Coordinator.SpotIdsAreUnique | coordinator/src/store.rs:844-861 | no two intents share a spot-intent id, for the purchase or the sale, and an intent's own two differ |
| Coordinator.NoncesAreUnique | coordinator/src/store.rs:1600-1736 | no two actions ever hold the same nonce of one account and key |
| Coordinator.NoncesAreStable | coordinator/src/store.rs:1600-1736 | asking for an action's nonce again, any number of steps later, returns the first one |
| Coordinator.NewNoncesIncrease | coordinator/src/store.rs:1600-1736 | a new nonce exceeds every reserved one of its account and key and is not below the observed one |
| Coordinator.DecisionsAreAccepted | coordinator/src/worker.rs:578-725 | in every run the saga accepts the event a current leaseholder derives from any valid observation; an overfill is accepted exactly if it exceeds the recorded fill |
| Coordinator.RefusedOverfillChangesNothing | coordinator/src/worker.rs:1317-1343 | a refused overfill leaves the whole database as it was and sends the run to its fail-safe stop |
| OverfillScenarios.RefusedOverfillIsReached | coordinator/src/worker.rs:1735-1747 | a concrete run in which a leaseholder proposes an overfill no larger than the recorded fill |
| Coordinator.HedgesAreNeverRestored | coordinator/src/worker.rs:939-1120 | no run ever logs HedgeRestored |
| Coordinator.SubmissionsAreAccepted | coordinator/src/worker.rs:425-576 | the saga accepts every submission, cancellation, expiry or unwind a current leaseholder asks for |
| Coordinator.AppliedInOrder | coordinator/src/store.rs:2167-2232 | in every run an applied observation has no missing predecessor in its session and was neither late nor mismatched |
| Coordinator.AppliedOnceForAll | coordinator/src/store.rs:2167-2232 | once applied, an observation stays applied to that action for the rest of any run, and no later transaction applies it again |
| Coordinator.StepKeeps | coordinator/src/store.rs:610-2279 | every single step, of a worker or from outside, keeps the invariant |
| Histories.HistoryIsAppendOnly | coordinator/src/store.rs:2754-2789 | whatever the steps, logs only grow, finished actions never change, sends, spot hand-overs, grants, nonce reservations, recorded and applied events are never taken back, and no lease once lost is in the table again |
| CoreMoves.AdvanceKeepsInv | coordinator/src/store.rs:1815-2036 | closing an action, moving its saga and queueing its successor in one transaction keeps the table invariant |
| CoreMoves.EnqueueKeepsInv | coordinator/src/store.rs:3043-3132 | queueing keeps one live action per intent and the ownership and distinctness of order indexes |
| CoreRequests.ExitPlanFits | coordinator/src/store.rs:968-1080 | an accepted exit queues the remaining perp leg, or the spot leg exactly once the perp is flat |
| CoreRequests.RecoverySuccessorFits | coordinator/src/store.rs:2791-2942 | whatever stopped action recovery resumes from, the action it queues fits the saga state and its amounts |
| CoreRequests.CreateKeepsCore | coordinator/src/store.rs:791-889 | admitting an intent keeps the table invariant and registers order indexes and spot-intent ids to it that nobody else holds |
| WorkerFits.EntryObservationFits | coordinator/src/worker.rs:578-725 | every applied entry observation is accepted by the saga and queues a hedge for exactly the fill |
| WorkerFits.SpotObservationFits | coordinator/src/worker.rs:849-937 | exactly the confirmed settlement and target hedge the episode; any other applied observation starts an unwind of the whole fill |
| WorkerFits.UnwindObservationFits | coordinator/src/worker.rs:939-1120 | unwind progress, completion and retries are accepted, and a retry is for exactly the rest |
| WorkerFits.SaleObservationFits | coordinator/src/worker.rs:1370-1463 | an episode is closed only by a confirmed sale of its whole spot at or above the minimum |
| WorkerFits.EntrySubmissionFits | coordinator/src/worker.rs:425-576 | a submitted or ambiguous entry moves the saga on and queues its reconciliation |
| WorkerFits.UnwindSubmissionFits | coordinator/src/worker.rs:425-576 | a submitted or ambiguous unwind hands its transaction, amount, index, authority and operator flag on to its reconciliation |
| WorkerFits.SpotSubmissionFits | coordinator/src/worker.rs:814-847 | a spot submission hands over to a reconciliation that can be sized |
| WorkerFits.EmergencyFits | coordinator/src/worker.rs:1465-1491 | giving up a hedge starts an unwind of the whole fill |
| WorkerFits.RejectionFits | coordinator/src/worker.rs:137-423 | an entry that cannot have been sent may be cancelled or expired |
| WorkerFits.FailureFits | coordinator/src/store.rs:1903-1974 | the saga accepts a fail-safe stop's event, and the stopped row stays sound for its intent |
| WorkerFits.OverfillFits | coordinator/src/worker.rs:1317-1343 | a larger overfill is recorded whole and unwound whole |
| WorkerFits.DecidedStops | coordinator/src/worker.rs:1345-1368 | every stop a reconciling worker decides on is one the saga accepts |
| OrderSteps.SigningFits | coordinator/src/worker.rs:1579-1622 | the order a worker signs is the one its intent or exit authority describes |
| Stores.Transaction.MoveSaga | coordinator/src/store.rs:2754-2789 | state, version and log move together, and a refused event moves nothing |
| Stores.Transaction.AllocateOperatorIndex | coordinator/src/store.rs:3134-3159 | the first of at most sixteen draws that nobody holds is registered to the intent |
| Stores.Transaction.InsertAction | coordinator/src/store.rs:3109-3132 | an action key is used once per intent |
| Stores.Transaction.Admit | coordinator/src/store.rs:791-889 | the writes of an admission, refused exactly if an identifier or key is taken |
| Stores.Transaction.EnqueueAction | coordinator/src/store.rs:3043-3132 | attempts, operator indexes and unique keys are handled as the transaction on values says |
| Stores.Transaction.AdvanceAction | coordinator/src/store.rs:1815-1855 | closing, moving and queueing succeed or fail as one |
| Stores.Transaction.ReserveIdentifiers | coordinator/src/store.rs:844-876 | all identifiers of an intent are reserved exactly if none of them is taken |
| Stores.Transaction.ReserveAttempts | coordinator/src/store.rs:862-876 | the loop reserves the whole attempt range, or refuses exactly if a value in it is taken |
| Stores.Transaction.ResumeEpisode | coordinator/src/store.rs:968-1080 | the saga moves of an exit or recovery and its action succeed or fail as one |
| Stores.Store.Advanced | coordinator/src/store.rs:1815-2036 | a transaction commits as a whole, or its failure leaves the store as it was |
| Stores.Store.Complete | coordinator/src/store.rs:1815-1855 | a lease-fenced completion; on any error the store is unchanged |
| Stores.Store.Stop | coordinator/src/store.rs:1903-1974 | a lease-fenced stop; every stop but a rejection also halts |
| Stores.Store.Continue | coordinator/src/store.rs:1976-2036 | an ambiguous send halts and hands over to its reconciliation |
| Stores.Store.Reschedule | coordinator/src/store.rs:1857-1901 | only the holder lets go; then nobody holds the action, nobody can claim it before its time, and its payload and results are untouched |
| Stores.Store.TakeAction | coordinator/src/store.rs:1268-1393 | an action is taken only when nobody holds it, is then held by this worker and token alone, and the claim is a snapshot of what is stored |
| Stores.Store.AuthorizeEntry | coordinator/src/store.rs:1422-1482 | a claim older than the control version, or a mode other than active, is refused without a trace; otherwise only the holder's entry gains its authorization |
| Stores.Store.AssignNonce | coordinator/src/store.rs:1600-1736 | asking again changes nothing and returns the same nonce, a new one is at least the observed and the stored, and nobody else's reservation changes |
| Stores.Store.Create | coordinator/src/store.rs:791-889 | admission, identifiers and the entry action commit together or not at all |
| Stores.Store.Exit | coordinator/src/store.rs:891-1083 | an exit request moves the saga and queues its action, or changes nothing |
| Stores.Store.FindRecoverable | coordinator/src/store.rs:1138-1141 | the search returns the first stopped action with a successor, or nothing exactly if none has one |
| Stores.Store.Recover | coordinator/src/store.rs:1085-1178 | a recovery request moves the saga and queues the first recoverable action's successor, or changes nothing |
| Stores.Store.Record | coordinator/src/store.rs:610-789 | a new event extends or quarantines, an identical one is harmless, a conflicting one halts |
| Stores.Store.NextVenueEvent | coordinator/src/store.rs:2038-2165 | the oldest event already routed to the action, or else the candidate loop, which routes the first match and quarantines every mismatch before it |
| Stores.NextEventIsOwn | coordinator/src/store.rs:2038-2165 | whatever the order of candidates, the answer may be applied to the claimed action, and there is none only if no offered event matches it |
| Stores.Store.Apply | coordinator/src/store.rs:2167-2279 | consuming the event, closing the action and moving the saga succeed or fail as one |
| Stores.ScanKeepsInv | coordinator/src/store.rs:2085-2165 | whatever the loop routes, the log stays sound |
| Stores.ScanChoosesOwnEvent | coordinator/src/store.rs:2085-2165 | the loop chooses only an unapplied event about the claimed order that may be applied to it, and nothing only if no candidate matches |
| Stores.ScanIsSteps | coordinator/src/store.rs:2085-2165 | one round of the loop is one step of a reconciling run |
| VenueLogs.FrontierIsLongestExtension | coordinator/src/store.rs:2417-2469 | the row-number query computes exactly the longest contiguous extension of the frontier |
| VenueLogs.FrontierOfArrivals | coordinator/src/store.rs:610-789 | after any arrivals, repeated, late or contradictory, a session's last sequence is the greatest n with everything from the first to n kept |
| VenueLogs.ArrivalOrderIrrelevant | coordinator/src/store.rs:610-789 | the frontier depends only on the first event kept for the session and the set of sequences kept |
| VenueLogs.KeptIsAll | coordinator/src/store.rs:610-789 | nothing is dropped from arrivals that do not contradict each other |
| VenueLogs.RecordKeepsInv | coordinator/src/store.rs:610-789 | recording keeps the log consistent in any order of arrival |
| VenueLogs.RoutingKeepsInv | coordinator/src/store.rs:2085-2165 | only in-order events are ever matched or called mismatched |
| VenueLogs.AppliedEventsAreInOrder | coordinator/src/store.rs:2167-2232 | an applied event has every predecessor since its session began |
| VenueLogs.GapHealsExactly | coordinator/src/store.rs:2085-2120 | a gap-quarantined event becomes eligible exactly when the gap is filled |
| Sagas.ExecutionSaga.Step | execution/src/saga.rs:120-246 | the object moves exactly as the transition on values, and a refused event changes nothing |
| Sagas.RunsAreCoherent | execution/src/saga.rs:104-246 | unwound never exceeds filled, cancelled and expired mean no fill and no spot, FailedSafe is never reached, the version counts accepted events |
| Sagas.RunsAreMonotone | execution/src/saga.rs:120-246 | fills and unwinds never decrease, spot is written at most once, terminal states end the run |
| Sagas.ClosedNeedNotBeFlat | execution/src/saga.rs:223-225 | an accepted run that closes with any fill fully open |
| Sagas.ClosesFlatExactly | execution/src/saga.rs:201-225 | a closing transition ends flat exactly if it completes the unwind or nothing was left |
| PairIntents.HedgeIsDeltaNeutral | execution/src/intent.rs:240-264 | the hedge target, through multiplier and both decimal scales, is exactly the filled base amount |
| PairIntents.HedgeIsBounded | execution/src/intent.rs:240-264 | the minimum never exceeds the target, the settlement never the intent's |
| PairIntents.HedgeReturnedExactly | execution/src/intent.rs:240-264 | a hedge is returned exactly for fills in range whose target numerator fits 128 bits |
| PairIntents.EveryFillHedged | execution/src/intent.rs:240-264 | every fill in range can be hedged when the full product fits |
| PairIntents.ScaleUnitsExact | execution/src/intent.rs:345-357 | rescaling answers only when the value is the same quantity in the new decimals |
| PairIntents.AcceptedFillsRespectCaps | coordinator/src/worker.rs:1735-1747 | an accepted fill stays within the leg cap and, with its hedge, the gross cap |
| PairIntents.OrdinaryFillsAreWithinCap | coordinator/src/worker.rs:1735-1747 | no fill up to the order size at a price up to the larger of limit and mark is an overfill |
| PairIntents.OverfillsAreCaught | coordinator/src/worker.rs:1735-1747 | a fill above the order size or the intent's notional is an overfill |
| ExitAuthorities.BuiltIsAccepted | coordinator/src/worker.rs:1530-1558 | every authority the store builds is one the worker accepts |
| ExitAuthorities.BuiltMinimumPasses | coordinator/src/store.rs:1555-1566 | a built settlement minimum passes at send time exactly if its scaled value fits, and always when the expected output's does |
| ExitAuthorities.DefaultPricePassesExactly | coordinator/src/store.rs:1551-1554 | the default price passes the send check exactly if 10000 divides mark times deviation |
| ExitAuthorities.DefaultPriceCanFail | coordinator/src/store.rs:2702-2709 | a concrete quote whose default price the send check refuses |
| ExitAuthorities.AuthorizedPriceInBand | coordinator/src/store.rs:1484-1566 | an authorized price lies between the mark and the mark plus its deviation |
| ExitAuthorities.RequestedPriceSurvivesExactly | coordinator/src/store.rs:2680-2733 | a requested price survives both stages exactly if it meets the exact inequality |
| Decimals.PrintParse | coordinator/src/store.rs:3271-3285 | printing and parsing an amount is the identity |
| Decimals.ParseAcceptsExactly | coordinator/src/store.rs:3279-3285 | parsing accepts exactly the canonical decimal strings in range |
| Journals.RootKeepsInv | signer/robinhood/journal.go:193-213 | a root committed at a reserved nonce keeps families apart |
| Journals.ReplacementKeepsInv | signer/robinhood/journal.go:341-378 | a replacement extends its family at the end |
| Journals.SharedNonceMeansOneFamily | signer/robinhood/journal.go:153-220 | two records share a nonce only inside one family of one deployment and one spot intent |
| Journals.FamiliesAreLinear | signer/robinhood/journal.go:341-378 | no two members of a family stand at the same depth |
| Journals.FeesRise | signer/robinhood/writer.go:243-250 | of two members the deeper one pays strictly more on both fees |
| Journals.FamiliesAreBounded | signer/robinhood/writer.go:205-207 | a nonce is signed at most once plus the configured number of replacements |
| Journals.Journal.BeginNonce | signer/robinhood/journal.go:153-187 | the larger of stored and observed nonce is reserved and nothing is written yet |
| Journals.Journal.Existing | signer/robinhood/journal.go:222-249 | a request id is unknown, known with the same payload, or reused |
| Journals.Journal.Replacement | signer/robinhood/journal.go:296-339 | only signed, submitted or ambiguous records can be replaced |
| Journals.Journal.InsertReplacement | signer/robinhood/journal.go:341-378 | both rows change, or a changed target refuses and nothing does |
| Journals.Journal.SetSubmitted | signer/robinhood/journal.go:380-392 | only a signed, submitted or ambiguous row becomes submitted |
| Journals.Journal.SetAmbiguous | signer/robinhood/journal.go:394-406 | only a signed or confirmed row becomes ambiguous, and forgets its block |
| Journals.Journal.SetReceipt | signer/robinhood/journal.go:455-469 | a receipt is recorded whatever the status was |
| Journals.Journal.SetSuperseded | signer/robinhood/journal.go:471-479 | every other pending row of the intent and nonce becomes superseded and no other row changes |
| Journals.Journal.SetFinality | signer/robinhood/journal.go:481-495 | only a confirmed row is raised |
| Journals.Journal.Quarantine | signer/robinhood/journal.go:513-520 | a row is quarantined whatever its status was |
| Journals.NonceReservation.Commit | signer/robinhood/journal.go:193-213 | record and nonce advance together, once, or nothing changes |
| Writers.FeesStayOrdered | signer/robinhood/writer.go:577-591 | replacements pay strictly more on both fees and no tip exceeds its fee cap |
| Writers.Writer.Broadcast | signer/robinhood/writer.go:321-351 | can only be called for a transaction that is in the journal at that moment |
| Writers.Writer.Submit | signer/robinhood/writer.go:172-351 | either nothing is journaled and nothing sent, or one new row within all caps is journaled and then sent, with only a named target marked replaced |
| Writers.Writer.Target | signer/robinhood/writer.go:192-211 | a target must be replaceable, carry the same intent, and be neither too deep nor too old |
| Writers.Writer.Insert | signer/robinhood/writer.go:321-329 | one new row is journaled as a root or a replacement, or nothing is |
| Writers.Writer.RecordSend | signer/robinhood/writer.go:330-350 | only the sent row's status changes, and doubt closes the writer |
| Writers.Writer.Send | signer/robinhood/writer.go:321-351 | the journaled transaction is sent once and its status records the outcome |
| Writers.Writer.Reconcile | signer/robinhood/writer.go:378-463 | the loop does what the pass on values says and stops at the first trouble, a failed journal update included |
| Writers.Writer.SettleRecord | signer/robinhood/writer.go:397-461 | one record is settled as the pass on values says and everything sent stays journaled |
| Writers.Writer.Recover | signer/robinhood/writer.go:367-376 | the writer becomes ready exactly through a completed pass |
| Writers.Writer.SettleMinedRecord | signer/robinhood/writer.go:427-460 | receipt, siblings and finality leave the record at the status its block deserves, or stop after exactly the updates that succeeded |
| Writers.Writer.SettleMissingRecord | signer/robinhood/writer.go:403-423 | a missing record is downgraded and rebroadcast from the journal, a replaced one is only watched |
| Writers.CompletedPassSettles | signer/robinhood/writer.go:378-463 | after a completed pass every mined record has its block's status, every sibling is superseded or was terminal before and is as it was, and no status terminal at the start changed |
| Writers.MinedStandsAlone | signer/robinhood/writer.go:435-450 | every member of a mined record's family, wherever it came from, is superseded, or was terminal before the pass and is as it was |
| Writers.AnyPassKeepsSettledRows | signer/robinhood/writer.go:378-463 | even a pass that stops half-way changes no status that was terminal when it began |
| Writers.SettledRowChangesExactly | signer/robinhood/writer.go:398-402 | inside a pass a settled row changes exactly if its own record fails validation and its quarantine is written |
| OrderBooks.DecimalIsZero | runtime/src/lighter.rs:488-514 | accepts exactly digits with an optional non-empty fraction and is true exactly for zero |
| OrderBooks.ValidateLevels | runtime/src/lighter.rs:465-475 | accepts exactly the lists whose prices are positive and sizes well formed |
| OrderBooks.WriteLevels | runtime/src/lighter.rs:477-486 | each price ends with the last size written for it, zero sizes absent |
| OrderBooks.OrderBook.Apply | runtime/src/lighter.rs:403-409 | after any frames the book is the replay of its epoch, and a rejected frame leaves it empty |
| OrderBooks.OrderBook.ApplyValidated | runtime/src/lighter.rs:411-446 | a sound frame starts an epoch on an uninitialised book, and an initialised one takes only a frame that begins at its nonce |
| OrderBooks.OrderBook.Invalidate | runtime/src/lighter.rs:448-453 | the book is empty and uninitialised |
| OrderBooks.RejectionForgets | runtime/src/lighter.rs:403-453 | whatever made the book reject a frame, nothing from before it is left in the replay |
| OrderBooks.RejectedExactly | runtime/src/lighter.rs:411-463 | a frame is rejected exactly if it is malformed or does not begin at the book's nonce |
| OrderBooks.ShownSizes | runtime/src/lighter.rs:477-486 | a price is shown exactly with the last non-zero size written for it |

## Left out

- HTTP routes, HMAC authorization, KMS signing, RPC and websocket clients: their results are inputs.
- SQL text, JSON encoding, SHA-256 and string identifiers: typed records and natural numbers stand for them.
- Market-authority and promotion gates of `create_intent`: one admission verdict, an input.
- Rows that fail to decode at claim time: stored rows are well formed.
- The order in which `claim_action`, `next_venue_event` and `request_recovery` list rows: any claimable action, any order of candidates.
- Lease owner names beside the token, incident rows and action-event rows: written, never read back by the protocol.
- The copy of the nonce and its scope in an action's payload: the reservation table carries them.
- The 64-bit width of saga versions in the database: versions stay far below it; the saga's own saturation is modelled.
- Several worker processes sharing one database connection pool: each transaction is one atomic step.
- Back-off timing of `DeferReconcile` and the batch limit of `Pending`: a pass is given its records.
- Two signer processes inside one Submit: the source serializes Submit and Reconcile by a mutex, and so do the methods here.
- The fee columns' decimal text in the journal: fees are natural numbers.
- Floating-point research and portfolio code, contracts, product API and web: outside this protocol.
