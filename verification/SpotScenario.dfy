/**
 * The spot half of a lost lease, in full: an entry fills, a worker persists the purchase that hedges it and
 * stalls past its lease, a second worker takes the action over, is refused and starts the unwind, and
 * the first worker hands the purchase to the signer all the same.
 */
module SpotScenarios {
  import opened Common
  import opened CoordinatorTypes
  import opened StoreOps
  import opened WorkerDecisions
  import opened Worlds
  import opened WorldInvariants
  import opened LostLeases
  import opened Coordinator
  import opened Scenarios
  import opened EntryScenarios
  import S = Sagas
  import P = PairIntents
  import V = VenueLogs

  // The entry may be sent at `nowMs`, and its whole fill can be reported and hedged.
  predicate Hedgeable(i: P.PairIntent, nowMs: nat) {
    Sendable(i, nowMs) && i.limitPrice <= U32_MAX && P.SpotAmountsForFill(i, i.baseAmount).Some?
  }

  lemma CanaryIsHedgeable()
    ensures Hedgeable(CANARY, 1_000)
  {
    CanaryIsValid();
    P.EveryFillHedged(CANARY, CANARY.baseAmount);
  }

  // ---------------------------------------------------------------- the fill

  function Fill(i: P.PairIntent): (e: V.VenueEvent) {
    V.VenueEvent(V.LighterAuth, 1, 1, 0, i.id, V.PerpFilled,
                 V.PerpObservation(7, 9, i.clientOrderIndex, i.marketIndex, true, false, i.baseAmount, Some(i.limitPrice)),
                 1, 1)
  }

  predicate Told(w: World, i: P.PairIntent) {
    w.db.venue.events == map[1 := Fill(i)] && V.KeyOf(Fill(i)) in w.db.venue.sessions && w.db.venue.applied == map[]
  }

  lemma Tell(w: World, i: P.PairIntent, nowMs: nat)
    requires Hedgeable(i, nowMs) && i.id in w.db.core.intents && w.db.venue == V.EMPTY
    ensures var n := Next(w, RecordEvent(Fill(i), 1));
            && Told(n, i) && n.db.venue.routes == map[]
            && n.db.core == w.db.core && n.db.now == w.db.now && n.runs == w.runs
  {
    assert V.ValidEvent(Fill(i));
    assert V.IdentityOf(Fill(i)) !in w.db.venue.byIdentity && V.KeyOf(Fill(i)) !in w.db.venue.sessions;
  }

  lemma Choose(w: World, i: P.PairIntent, nowMs: nat, row: ActionRow)
    requires Waiting(w, i, Submitted(i), row) && Claimed(w, i, 2, Start, Submitted(i), NO_RESULTS)
    requires Told(w, i) && w.db.venue.routes == map[]
    ensures var n := Next(w, WorkOn(2, Reading(nowMs, 3, Some(1))));
            && Waiting(n, i, Submitted(i), row) && Claimed(n, i, 2, Chosen(1), Submitted(i), NO_RESULTS)
            && Told(n, i) && n.db.venue.routes == map[1 := V.Matched(2)]
            && n.db.now == w.db.now && n.runs.Keys == w.runs.Keys
  {
    WorkAtStart(w, 2, Reading(nowMs, 3, Some(1)));
    assert V.Candidate(w.db.venue, 1);
    assert PayloadMatches(ReconcilePerp, i, NO_PAYLOAD.(txHash := Some(9)), NO_RESULTS, Fill(i).observation);
  }

  lemma DecideFill(c: Claim, i: P.PairIntent, nowMs: nat)
    requires Hedgeable(i, nowMs) && c.intent == i && c.saga == Submitted(i) && c.kind == ReconcilePerp
    requires c.results == NO_RESULTS && c.payload == NO_PAYLOAD.(txHash := Some(9))
    ensures Decide(c, V.PerpFilled, Fill(i).observation, nowMs) == HedgeFill(i.baseAmount)
  {
    P.OrdinaryFillsAreWithinCap(i, i.baseAmount, i.limitPrice);
  }

  // ---------------------------------------------------------------- the purchase

  function Filled(i: P.PairIntent): (s: S.Saga) { S.Saga(i.id, S.State.PerpFilled, 3, i.baseAmount, 0, 0) }

  function WholeFill(i: P.PairIntent): (p: Payload) { NO_PAYLOAD.(filledBase := Some(i.baseAmount)) }

  function Purchase(i: P.PairIntent, results: Results, status: Status): (r: ActionRow) {
    ActionRow(i.id, SubmitSpot, HedgeSpotKey, WholeFill(i), results, status, 0)
  }

  // What the purchase of the whole fill asks for.
  function Ask(i: P.PairIntent): (r: SpotRequest)
    requires P.SpotAmountsForFill(i, i.baseAmount).Some? && i.baseAmount > 0
  {
    RequestFor(3, SubmitSpot, i, WholeFill(i)).value
  }

  predicate Hedging(w: World, i: P.PairIntent, row: ActionRow) {
    && i.id in w.db.core.intents && w.db.core.intents[i.id].intent == i && w.db.core.intents[i.id].saga == Filled(i)
    && w.db.core.actions.Keys == {1, 2, 3} && w.db.core.cursors == map[]
    && w.db.core.actions[1].key == EntryPerpKey && w.db.core.actions[2].key == ReconcileEntryKey
    && w.db.core.actions[3] == row
  }

  // Worker `t` of the purchase.
  predicate Buying(w: World, i: P.PairIntent, t: nat, worker: nat, pc: Pc, results: Results) {
    && t in w.runs && w.runs[t].pc == pc
    && var c := w.runs[t].claim;
    && c.actionId == 3 && c.worker == worker && c.token == t && c.intent == i && c.saga == Filled(i)
    && c.kind == SubmitSpot && c.payload == WholeFill(i) && c.results == results
  }

  lemma FillApplies(db: Db, i: P.PairIntent)
    requires i.baseAmount > 0
    requires i.id in db.core.intents && db.core.intents[i.id].intent == i && db.core.intents[i.id].saga == Submitted(i)
    requires db.core.actions.Keys == {1, 2} && db.core.actions[1].key == EntryPerpKey && db.core.cursors == map[]
    requires db.core.actions[2] == Reconciliation(i, NO_RESULTS, Leased(Lease(1, 2, 60)), 0) && db.now == 0
    requires db.venue.events == map[1 := Fill(i)] && V.KeyOf(Fill(i)) in db.venue.sessions
    requires db.venue.routes == map[1 := V.Matched(2)] && db.venue.applied == map[]
    ensures var next := NextAction(SubmitSpot, HedgeSpotKey, WholeFill(i));
            var r := ApplyVenueEvent(db, 2, 1, 2, 1, Some(S.Event.PerpFilled(i.baseAmount)), true, Some(7), Some(next), 3, []);
            && r.DbOk? && r.db.now == 0
            && i.id in r.db.core.intents && r.db.core.intents[i.id].intent == i && r.db.core.intents[i.id].saga == Filled(i)
            && r.db.core.actions.Keys == {1, 2, 3} && r.db.core.cursors == map[]
            && r.db.core.actions[1].key == EntryPerpKey && r.db.core.actions[2].key == ReconcileEntryKey
            && r.db.core.actions[3] == Purchase(i, NO_RESULTS, Pending)
  {
    var after := db.core.actions[2].(status := Succeeded, results := NO_RESULTS.(orderId := Some(7)), availableAt := 1);
    var closed := db.core.actions[2 := after];
    assert forall a | a in closed :: closed[a].key == EntryPerpKey || closed[a].key == ReconcileEntryKey;
  }

  lemma FillCommits(w: World, i: P.PairIntent, nowMs: nat)
    requires Hedgeable(i, nowMs) && Claimed(w, i, 2, Chosen(1), Submitted(i), NO_RESULTS) && Told(w, i)
    ensures ReconcileChosen(w, 2, 1, Reading(nowMs, 3, None))
            == Commit(w, 2, ApplyVenueEvent(w.db, 2, 1, 2, 1, Some(S.Event.PerpFilled(i.baseAmount)), true, Some(7),
                                            Some(NextAction(SubmitSpot, HedgeSpotKey, WholeFill(i))), 3, []), Done)
  {
    DecideFill(w.runs[2].claim, i, nowMs);
  }

  lemma ApplyFill(w: World, i: P.PairIntent, nowMs: nat)
    requires Hedgeable(i, nowMs) && w.db.now == 0
    requires Waiting(w, i, Submitted(i), Reconciliation(i, NO_RESULTS, Leased(Lease(1, 2, 60)), 0))
    requires Claimed(w, i, 2, Chosen(1), Submitted(i), NO_RESULTS) && Told(w, i)
    requires w.db.venue.routes == map[1 := V.Matched(2)]
    ensures var n := Next(w, WorkOn(2, Reading(nowMs, 3, None)));
            Hedging(n, i, Purchase(i, NO_RESULTS, Pending)) && n.db.now == 0 && n.runs.Keys == w.runs.Keys
  {
    WorkAtChosen(w, 2, 1, Reading(nowMs, 3, None));
    FillApplies(w.db, i);
    FillCommits(w, i, nowMs);
  }

  lemma PurchaseIsClaimable(db: Db, i: P.PairIntent, worker: nat, t: nat, results: Results, status: Status)
    requires i.id in db.core.intents && db.core.intents[i.id].intent == i && db.core.intents[i.id].saga == Filled(i)
    requires 3 in db.core.actions && db.core.actions[3] == Purchase(i, results, status) && worker > 0
    requires status.Pending? || (status.Leased? && status.lease.expiresAt <= db.now)
    ensures ClaimAction(db, 3, worker, t, 60)
            == Some((PutAction(db, 3, Purchase(i, results, Leased(Lease(worker, t, db.now + 60)))),
                     Claim(3, worker, t, i, Filled(i), SubmitSpot, WholeFill(i), results, db.control.version, db.control.halts)))
  {
  }

  lemma ClaimPurchase(w: World, i: P.PairIntent, worker: nat, t: nat, results: Results, status: Status) returns (s: Step)
    requires Hedging(w, i, Purchase(i, results, status)) && worker > 0 && t > 0 && TokensUpTo(w, t - 1)
    requires status.Pending? || (status.Leased? && status.lease.expiresAt <= w.db.now)
    ensures Admissible(s) && !s.WorkOn?
    ensures var n := Next(w, s);
            && Hedging(n, i, Purchase(i, results, Leased(Lease(worker, t, w.db.now + 60))))
            && Buying(n, i, t, worker, Start, results) && n.db.now == w.db.now && TokensUpTo(n, t)
  {
    PurchaseIsClaimable(w.db, i, worker, t, results, status);
    s := TakeLease(3, worker, t, 60);
  }

  lemma WorkAtSpotStart(w: World, t: nat, env: Env)
    requires t in w.runs && w.runs[t].pc.Start? && w.runs[t].claim.kind.SubmitSpot?
    ensures Next(w, WorkOn(t, env)) == SpotStart(w, t, env)
  {
  }

  // The first worker makes its request durable.
  lemma PersistPurchase(w: World, i: P.PairIntent, nowMs: nat, env: Env)
    requires Hedgeable(i, nowMs) && env.now == nowMs && w.db.now == 0
    requires Hedging(w, i, Purchase(i, NO_RESULTS, Leased(Lease(1, 3, 60)))) && Buying(w, i, 3, 1, Start, NO_RESULTS)
    ensures var n := Next(w, WorkOn(3, env));
            && Hedging(n, i, Purchase(i, NO_RESULTS.(request := Some(Ask(i))), Leased(Lease(1, 3, 60))))
            && Buying(n, i, 3, 1, Requested(Ask(i)), NO_RESULTS) && n.db.now == 0 && n.runs.Keys == w.runs.Keys
  {
    WorkAtSpotStart(w, 3, env);
    assert ExpectedRequest(w.runs[3].claim) == Some(Ask(i));
  }

  // The second worker finds the request in the row.
  lemma ResumePurchase(w: World, i: P.PairIntent, nowMs: nat, env: Env)
    requires Hedgeable(i, nowMs) && Buying(w, i, 4, 2, Start, NO_RESULTS.(request := Some(Ask(i))))
    ensures var n := Next(w, WorkOn(4, env));
            n.db == w.db && Buying(n, i, 4, 2, Requested(Ask(i)), NO_RESULTS.(request := Some(Ask(i))))
  {
    WorkAtSpotStart(w, 4, env);
    assert ExpectedRequest(w.runs[4].claim) == Some(Ask(i));
  }

  // ---------------------------------------------------------------- giving the hedge up

  function Refusing(nowMs: nat): (e: Env) { Reading(nowMs, 4, None).(spot := SpotRefused) }

  lemma RefusePurchase(w: World, i: P.PairIntent, nowMs: nat, q: SpotRequest, results: Results)
    requires Buying(w, i, 4, 2, Requested(q), results)
    ensures var n := Next(w, WorkOn(4, Refusing(nowMs))); n.db == w.db && Buying(n, i, 4, 2, MustUnwind, results)
  {
  }

  lemma HaltForUnwind(w: World, i: P.PairIntent, nowMs: nat, results: Results)
    requires Buying(w, i, 4, 2, MustUnwind, results)
    ensures var n := Next(w, WorkOn(4, Refusing(nowMs)));
            n.db.core == w.db.core && n.db.now == w.db.now && Buying(n, i, 4, 2, HaltedToUnwind, results)
  {
  }

  lemma UnwindIsScheduled(core: Core, i: P.PairIntent, row: ActionRow, now: nat)
    requires P.Valid(i) && i.id in core.intents && core.intents[i.id].intent == i && core.intents[i.id].saga == Filled(i)
    requires core.actions.Keys == {1, 2, 3} && core.cursors == map[]
    requires core.actions[1].key == EntryPerpKey && core.actions[2].key == ReconcileEntryKey
    requires row.intentId == i.id && row.key == HedgeSpotKey
    ensures var r := Advance(core, 3, row, Some(S.UnwindStarted), Some(EmergencyUnwind(i.baseAmount)), 4, [], now);
            && r.CoreOk? && i.id in r.core.intents && r.core.intents[i.id].saga.state.Unwinding?
            && 3 in r.core.actions && r.core.actions[3] == row
  {
    var closed := core.actions[3 := row];
    assert forall a | a in closed :: closed[a].key != EmergencyPerpKey;
  }

  lemma WorkAtHalted(w: World, t: nat, env: Env)
    requires t in w.runs && w.runs[t].pc == HaltedToUnwind
    ensures Next(w, WorkOn(t, env)) == ScheduleUnwind(w, t, env)
  {
  }

  lemma ScheduleTheUnwind(w: World, i: P.PairIntent, nowMs: nat, q: SpotRequest)
    requires P.Valid(i) && w.db.now == 61
    requires Hedging(w, i, Purchase(i, NO_RESULTS.(request := Some(q)), Leased(Lease(2, 4, 121))))
    requires Buying(w, i, 4, 2, HaltedToUnwind, NO_RESULTS.(request := Some(q)))
    ensures var n := Next(w, WorkOn(4, Refusing(nowMs)));
            && i.id in n.db.core.intents && n.db.core.intents[i.id].saga.state.Unwinding?
            && 3 in n.db.core.actions && n.db.core.actions[3].status.Succeeded?
  {
    WorkAtHalted(w, 4, Refusing(nowMs));
    var row := w.db.core.actions[3];
    UnwindIsScheduled(w.db.core, i, row.(status := Succeeded, results := row.results.(completion := None)), 61);
  }

  // ---------------------------------------------------------------- the run

  lemma UpToTold(i: P.PairIntent, nowMs: nat) returns (steps: seq<Step>)
    requires Hedgeable(i, nowMs)
    ensures Coordinator.Run(steps) && After(steps).db.now == 0 && TokensUpTo(After(steps), 1)
    ensures Waiting(After(steps), i, Submitted(i), Reconciliation(i, NO_RESULTS, Pending, 0))
    ensures Told(After(steps), i) && After(steps).db.venue.routes == map[]
  {
    var front := UpToWaiting(i, nowMs);
    Tell(After(front), i, nowMs);
    RunAppend(front, RecordEvent(Fill(i), 1));
    steps := front + [RecordEvent(Fill(i), 1)];
  }

  lemma UpToReconciliation(i: P.PairIntent, nowMs: nat) returns (steps: seq<Step>)
    requires Hedgeable(i, nowMs)
    ensures Coordinator.Run(steps) && After(steps).db.now == 0 && TokensUpTo(After(steps), 2)
    ensures Waiting(After(steps), i, Submitted(i), Reconciliation(i, NO_RESULTS, Leased(Lease(1, 2, 60)), 0))
    ensures Claimed(After(steps), i, 2, Start, Submitted(i), NO_RESULTS)
    ensures Told(After(steps), i) && After(steps).db.venue.routes == map[]
  {
    var front := UpToTold(i, nowMs);
    var s := ClaimReconciliation(After(front), i, 2, Submitted(i), NO_RESULTS, 0);
    RunAppend(front, s);
    steps := front + [s];
  }

  lemma UpToPurchase(i: P.PairIntent, nowMs: nat) returns (steps: seq<Step>)
    requires Hedgeable(i, nowMs)
    ensures Coordinator.Run(steps) && Hedging(After(steps), i, Purchase(i, NO_RESULTS, Pending))
    ensures After(steps).db.now == 0 && TokensUpTo(After(steps), 2)
  {
    steps := UpToReconciliation(i, nowMs);
    Choose(After(steps), i, nowMs, After(steps).db.core.actions[2]);
    RunAppend(steps, WorkOn(2, Reading(nowMs, 3, Some(1))));
    steps := steps + [WorkOn(2, Reading(nowMs, 3, Some(1)))];
    ApplyFill(After(steps), i, nowMs);
    RunAppend(steps, WorkOn(2, Reading(nowMs, 3, None)));
    steps := steps + [WorkOn(2, Reading(nowMs, 3, None))];
  }

  lemma UpToBuying(i: P.PairIntent, nowMs: nat) returns (steps: seq<Step>)
    requires Hedgeable(i, nowMs)
    ensures Coordinator.Run(steps) && After(steps).db.now == 0 && TokensUpTo(After(steps), 3)
    ensures Hedging(After(steps), i, Purchase(i, NO_RESULTS, Leased(Lease(1, 3, 60))))
    ensures Buying(After(steps), i, 3, 1, Start, NO_RESULTS)
  {
    var front := UpToPurchase(i, nowMs);
    var s := ClaimPurchase(After(front), i, 1, 3, NO_RESULTS, Pending);
    RunAppend(front, s);
    steps := front + [s];
  }

  lemma WaitOutLease(w: World, i: P.PairIntent, row: ActionRow, pc: Pc)
    requires Hedging(w, i, row) && Buying(w, i, 3, 1, pc, NO_RESULTS) && w.db.now == 0
    ensures var n := Next(w, Tick(61));
            Hedging(n, i, row) && Buying(n, i, 3, 1, pc, NO_RESULTS) && n.db.now == 61 && n.runs == w.runs
  {
  }

  lemma UpToRequest(i: P.PairIntent, nowMs: nat) returns (steps: seq<Step>)
    requires Hedgeable(i, nowMs)
    ensures Coordinator.Run(steps) && After(steps).db.now == 61 && TokensUpTo(After(steps), 3)
    ensures Hedging(After(steps), i, Purchase(i, NO_RESULTS.(request := Some(Ask(i))), Leased(Lease(1, 3, 60))))
    ensures Buying(After(steps), i, 3, 1, Requested(Ask(i)), NO_RESULTS)
  {
    var front := UpToBuying(i, nowMs);
    PersistPurchase(After(front), i, nowMs, Outside(nowMs));
    RunAppend(front, WorkOn(3, Outside(nowMs)));
    var asked := front + [WorkOn(3, Outside(nowMs))];
    WaitOutLease(After(asked), i, After(asked).db.core.actions[3], Requested(Ask(i)));
    RunAppend(asked, Tick(61));
    steps := asked + [Tick(61)];
  }

  // The lease has passed to the second worker.
  predicate TakenOver(w: World, i: P.PairIntent)
    requires P.SpotAmountsForFill(i, i.baseAmount).Some? && i.baseAmount > 0
  {
    && Hedging(w, i, Purchase(i, NO_RESULTS.(request := Some(Ask(i))), Leased(Lease(2, 4, 121)))) && w.db.now == 61
    && Buying(w, i, 3, 1, Requested(Ask(i)), NO_RESULTS)
  }

  lemma UpToTakeover(i: P.PairIntent, nowMs: nat) returns (steps: seq<Step>)
    requires Hedgeable(i, nowMs)
    ensures Coordinator.Run(steps) && TakenOver(After(steps), i)
    ensures Buying(After(steps), i, 4, 2, Start, NO_RESULTS.(request := Some(Ask(i))))
  {
    var front := UpToRequest(i, nowMs);
    var s := ClaimPurchase(After(front), i, 2, 4, NO_RESULTS.(request := Some(Ask(i))), Leased(Lease(1, 3, 60)));
    OtherStepsKeepRun(After(front), 3, s);
    RunAppend(front, s);
    steps := front + [s];
  }

  // The first worker's next await is a hand-over.
  lemma HandsOverLate(steps: seq<Step>, i: P.PairIntent, nowMs: nat, q: SpotRequest) returns (longer: seq<Step>)
    requires Coordinator.Run(steps) && Buying(After(steps), i, 3, 1, Requested(q), NO_RESULTS)
    ensures longer == steps + [WorkOn(3, Outside(nowMs))] && Coordinator.Run(longer)
    ensures After(longer).handed == After(steps).handed + [(3, q)]
  {
    RunAppend(steps, WorkOn(3, Outside(nowMs)));
    longer := steps + [WorkOn(3, Outside(nowMs))];
    ReachesExactly(After(steps), 3, Outside(nowMs));
  }

  /**
   * A spot request is handed over by a worker without the lease: of any hedgeable intent there is a run
   * in which the purchase already belongs to another worker when the first one asks the signer for it.
   */
  lemma StalledWorkerHandsOver(i: P.PairIntent, nowMs: nat) returns (before: seq<Step>, steps: seq<Step>)
    requires Hedgeable(i, nowMs)
    ensures Coordinator.Run(before) && steps == before + [WorkOn(3, Outside(nowMs))]
    ensures var w := After(before);
            && Stale(w, 3) && 4 in w.runs && Current(w.db, w.runs[4].claim)
            && w.runs[4].claim.actionId == w.runs[3].claim.actionId
    ensures After(steps).handed == After(before).handed + [(3, Ask(i))]
  {
    before := UpToTakeover(i, nowMs);
    steps := HandsOverLate(before, i, nowMs, Ask(i));
  }

  // What the second worker's awaits leave alone.
  lemma SecondWorks(steps: seq<Step>, i: P.PairIntent, env: Env, q: SpotRequest) returns (longer: seq<Step>)
    requires Coordinator.Run(steps) && env.quote.None? && Buying(After(steps), i, 3, 1, Requested(q), NO_RESULTS)
    ensures longer == steps + [WorkOn(4, env)] && Coordinator.Run(longer)
    ensures After(longer) == Next(After(steps), WorkOn(4, env)) && Buying(After(longer), i, 3, 1, Requested(q), NO_RESULTS)
  {
    RunAppend(steps, WorkOn(4, env));
    OtherStepsKeepRun(After(steps), 3, WorkOn(4, env));
    longer := steps + [WorkOn(4, env)];
  }

  lemma UpToHalt(i: P.PairIntent, nowMs: nat) returns (steps: seq<Step>)
    requires Hedgeable(i, nowMs)
    ensures Coordinator.Run(steps) && TakenOver(After(steps), i)
    ensures Buying(After(steps), i, 4, 2, HaltedToUnwind, NO_RESULTS.(request := Some(Ask(i))))
  {
    var held := NO_RESULTS.(request := Some(Ask(i)));
    steps := UpToTakeover(i, nowMs);
    ResumePurchase(After(steps), i, nowMs, Refusing(nowMs));
    steps := SecondWorks(steps, i, Refusing(nowMs), Ask(i));
    RefusePurchase(After(steps), i, nowMs, Ask(i), held);
    steps := SecondWorks(steps, i, Refusing(nowMs), Ask(i));
    HaltForUnwind(After(steps), i, nowMs, held);
    steps := SecondWorks(steps, i, Refusing(nowMs), Ask(i));
  }

  /**
   * The signer is asked for a hedge already given up: of any hedgeable intent there is a run in which the
   * purchase is finished and the saga unwinds, and the signer is then asked for the purchase.
   */
  lemma GivenUpHedgeIsAsked(i: P.PairIntent, nowMs: nat) returns (before: seq<Step>, steps: seq<Step>)
    requires Hedgeable(i, nowMs)
    ensures Coordinator.Run(before) && steps == before + [WorkOn(3, Outside(nowMs))]
    ensures var core := After(before).db.core;
            && i.id in core.intents && core.intents[i.id].saga.state.Unwinding?
            && 3 in core.actions && core.actions[3].status.Succeeded?
    ensures After(steps).handed == After(before).handed + [(3, Ask(i))]
  {
    before := UpToHalt(i, nowMs);
    ScheduleTheUnwind(After(before), i, nowMs, Ask(i));
    before := SecondWorks(before, i, Refusing(nowMs), Ask(i));
    steps := HandsOverLate(before, i, nowMs, Ask(i));
  }
}
