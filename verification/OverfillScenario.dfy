/**
 * Another run in full: an entry is filled completely, then reported filled once more at a price that
 * breaks the intent's notional.  The worker calls it an overfill, and the saga refuses the event.
 */
module OverfillScenarios {
  import opened Common
  import opened CoordinatorTypes
  import opened StoreOps
  import opened WorkerDecisions
  import opened Worlds
  import opened Coordinator
  import opened Scenarios
  import opened EntryScenarios
  import S = Sagas
  import P = PairIntents
  import V = VenueLogs

  const NOW: nat := 1_000

  // ---------------------------------------------------------------- the two observations

  const WHOLE_FILL: V.VenueEvent := V.VenueEvent(
    V.LighterAuth, 1, 1, 0, CANARY.id, V.PerpPartial,
    V.PerpObservation(7, 9, 1, 101, true, false, 1_000_000, Some(25_000)), 1, 1)

  const DEAR_FILL: V.VenueEvent := V.VenueEvent(
    V.LighterAuth, 2, 1, 0, CANARY.id, V.PerpFilled,
    V.PerpObservation(7, 9, 1, 101, true, false, 1_000_000, Some(30_000)), 1, 1)

  lemma FillsAreValid()
    ensures V.ValidEvent(WHOLE_FILL) && V.ValidEvent(DEAR_FILL)
  {
  }

  lemma WholeFillIsOrdinary()
    ensures P.FillWithinCap(CANARY, Some(25_000), 1_000_000)
  {
    CanaryIsValid();
    P.OrdinaryFillsAreWithinCap(CANARY, 1_000_000, 25_000);
  }

  lemma CanaryScale()
    ensures P.Pow10(CANARY.baseDecimals + CANARY.priceDecimals) == 1_000_000_000
  {
    assert P.Pow10(3) == 1_000;
    P.Pow10Adds(6, 3);
    P.Pow10Adds(3, 3);
  }

  lemma DearFillIsAnOverfill()
    ensures !P.FillWithinCap(CANARY, Some(30_000), 1_000_000)
  {
    CanaryScale();
    P.OverfillsAreCaught(CANARY, 1_000_000, 30_000);
  }

  // ---------------------------------------------------------------- the stages

  const SUBMITTED: S.Saga := Submitted(CANARY)
  const PARTIAL: S.Saga := S.Saga(CANARY.id, S.PerpPartial, 3, 1_000_000, 0, 0)

  predicate Informed(w: World) {
    && w.db.venue.events == map[1 := WHOLE_FILL, 2 := DEAR_FILL]
    && V.KeyOf(WHOLE_FILL) in w.db.venue.sessions && V.KeyOf(DEAR_FILL) in w.db.venue.sessions
  }

  lemma Tell(w: World)
    requires Waiting(w, CANARY, SUBMITTED, Reconciliation(CANARY, NO_RESULTS, Pending, 0)) && w.db.venue == V.EMPTY
    ensures var n := Next(Next(w, RecordEvent(WHOLE_FILL, 1)), RecordEvent(DEAR_FILL, 2));
            && Informed(n) && n.db.venue.routes == map[] && n.db.venue.applied == map[]
            && n.db.core == w.db.core && n.db.now == w.db.now && n.runs == w.runs
  {
    FillsAreValid();
    var told := Next(w, RecordEvent(WHOLE_FILL, 1));
    assert told.db.venue.events == map[1 := WHOLE_FILL];
    assert V.IdentityOf(DEAR_FILL) !in told.db.venue.byIdentity;
    assert V.KeyOf(DEAR_FILL) !in told.db.venue.sessions;
  }

  lemma Routes(w: World, t: nat, e: nat, s: S.Saga, results: Results)
    requires Claimed(w, CANARY, t, Start, s, results) && Informed(w) && (e == 1 || e == 2)
    requires results.orderId.None? || results.orderId == Some(7)
    requires e !in w.db.venue.routes && e !in w.db.venue.applied
    ensures var venue := w.db.venue.(routes := w.db.venue.routes[e := V.Matched(2)]);
            ReconcileStart(w, t, Reading(NOW, 3, Some(e)))
            == Goto(w.(db := w.db.(venue := venue)), t, Chosen(e))
  {
    var o := w.db.venue.events[e];
    assert V.Candidate(w.db.venue, e);
    assert PayloadMatches(ReconcilePerp, CANARY, NO_PAYLOAD.(txHash := Some(9)), results, o.observation);
  }

  lemma Choose(w: World, t: nat, e: nat, s: S.Saga, results: Results, row: ActionRow)
    requires Waiting(w, CANARY, s, row) && Claimed(w, CANARY, t, Start, s, results) && Informed(w) && (e == 1 || e == 2)
    requires results.orderId.None? || results.orderId == Some(7)
    requires e !in w.db.venue.routes && e !in w.db.venue.applied
    ensures var n := Next(w, WorkOn(t, Reading(NOW, 3, Some(e))));
            && Waiting(n, CANARY, s, row) && Claimed(n, CANARY, t, Chosen(e), s, results) && Informed(n)
            && n.db.venue == w.db.venue.(routes := w.db.venue.routes[e := V.Matched(2)])
            && n.db.now == w.db.now && n.runs.Keys == w.runs.Keys
  {
    WorkAtStart(w, t, Reading(NOW, 3, Some(e)));
    Routes(w, t, e, s, results);
  }

  lemma DecideWholeFill(c: Claim)
    requires c.intent == CANARY && c.saga == SUBMITTED && c.kind == ReconcilePerp && c.results == NO_RESULTS
    requires c.payload == NO_PAYLOAD.(txHash := Some(9))
    ensures Decide(c, WHOLE_FILL.kind, WHOLE_FILL.observation, NOW)
            == Apply(Some(S.PerpPartiallyFilled(1_000_000)), false, None)
  {
    WholeFillIsOrdinary();
  }

  lemma WholeFillApplies(db: Db)
    requires CANARY.id in db.core.intents && db.core.intents[CANARY.id].intent == CANARY
    requires db.core.intents[CANARY.id].saga == SUBMITTED && db.now == 0
    requires db.core.actions.Keys == {1, 2} && db.core.actions[1].key == EntryPerpKey && db.core.cursors == map[]
    requires db.core.actions[2] == Reconciliation(CANARY, NO_RESULTS, Leased(Lease(1, 2, 60)), 0)
    requires db.venue.events == map[1 := WHOLE_FILL, 2 := DEAR_FILL] && V.KeyOf(WHOLE_FILL) in db.venue.sessions
    requires db.venue.routes == map[1 := V.Matched(2)] && db.venue.applied == map[]
    ensures var r := ApplyVenueEvent(db, 2, 1, 2, 1, Some(S.PerpPartiallyFilled(1_000_000)), false, Some(7), None, 3, []);
            && r.DbOk? && r.db.venue == db.venue.(applied := map[1 := 2]) && r.db.now == 0
            && CANARY.id in r.db.core.intents && r.db.core.intents[CANARY.id].intent == CANARY
            && r.db.core.intents[CANARY.id].saga == PARTIAL
            && r.db.core.actions.Keys == {1, 2} && r.db.core.actions[1].key == EntryPerpKey && r.db.core.cursors == map[]
            && r.db.core.actions[2] == Reconciliation(CANARY, NO_RESULTS.(orderId := Some(7)), Pending, 1)
  {
  }

  lemma ApplyWholeFill(w: World)
    requires Waiting(w, CANARY, SUBMITTED, Reconciliation(CANARY, NO_RESULTS, Leased(Lease(1, 2, 60)), 0)) && w.db.now == 0
    requires Claimed(w, CANARY, 2, Chosen(1), SUBMITTED, NO_RESULTS) && Informed(w)
    requires w.db.venue.routes == map[1 := V.Matched(2)] && w.db.venue.applied == map[]
    ensures var n := Next(w, WorkOn(2, Reading(NOW, 3, None)));
            && Waiting(n, CANARY, PARTIAL, Reconciliation(CANARY, NO_RESULTS.(orderId := Some(7)), Pending, 1)) && Informed(n)
            && n.db.venue.routes == map[1 := V.Matched(2)] && n.db.venue.applied == map[1 := 2]
            && n.db.now == 0 && n.runs.Keys == w.runs.Keys
  {
    WorkAtChosen(w, 2, 1, Reading(NOW, 3, None));
    WholeFillApplies(w.db);
    WholeFillCommits(w);
  }

  lemma WholeFillCommits(w: World)
    requires Claimed(w, CANARY, 2, Chosen(1), SUBMITTED, NO_RESULTS) && Informed(w)
    ensures ReconcileChosen(w, 2, 1, Reading(NOW, 3, None))
            == Commit(w, 2, ApplyVenueEvent(w.db, 2, 1, 2, 1, Some(S.PerpPartiallyFilled(1_000_000)), false, Some(7), None, 3,
                                            []), Done)
  {
    DecideWholeFill(w.runs[2].claim);
  }

  lemma DecideDearFill(c: Claim)
    requires c.intent == CANARY && c.saga == PARTIAL && c.kind == ReconcilePerp
    requires c.results == NO_RESULTS.(orderId := Some(7)) && c.payload == NO_PAYLOAD.(txHash := Some(9))
    ensures Decide(c, DEAR_FILL.kind, DEAR_FILL.observation, NOW) == Overfill(1_000_000)
  {
    DearFillIsAnOverfill();
  }

  lemma DearFillHalts(w: World)
    requires Claimed(w, CANARY, 3, Chosen(2), PARTIAL, NO_RESULTS.(orderId := Some(7))) && Informed(w)
    ensures ReconcileChosen(w, 3, 2, Reading(NOW, 3, None)) == HaltAnd(w, 3, OverfillHalted(2, 1_000_000))
  {
    DecideDearFill(w.runs[3].claim);
  }

  lemma HaltOnDearFill(w: World, row: ActionRow)
    requires Waiting(w, CANARY, PARTIAL, row) && Informed(w)
    requires Claimed(w, CANARY, 3, Chosen(2), PARTIAL, NO_RESULTS.(orderId := Some(7)))
    ensures var n := Next(w, WorkOn(3, Reading(NOW, 3, None)));
            && Waiting(n, CANARY, PARTIAL, row) && n.db.now == w.db.now
            && Claimed(n, CANARY, 3, OverfillHalted(2, 1_000_000), PARTIAL, NO_RESULTS.(orderId := Some(7)))
  {
    WorkAtChosen(w, 3, 2, Reading(NOW, 3, None));
    DearFillHalts(w);
  }

  // ---------------------------------------------------------------- the run

  lemma UpToInformed() returns (steps: seq<Step>)
    ensures Coordinator.Run(steps) && Waiting(After(steps), CANARY, SUBMITTED, Reconciliation(CANARY, NO_RESULTS, Pending, 0))
    ensures Informed(After(steps)) && After(steps).db.now == 0 && TokensUpTo(After(steps), 1)
    ensures After(steps).db.venue.routes == map[] && After(steps).db.venue.applied == map[]
  {
    CanaryIsValid();
    var front := UpToWaiting(CANARY, NOW);
    Tell(After(front));
    RunAppend(front, RecordEvent(WHOLE_FILL, 1));
    RunAppend(front + [RecordEvent(WHOLE_FILL, 1)], RecordEvent(DEAR_FILL, 2));
    steps := front + [RecordEvent(WHOLE_FILL, 1)] + [RecordEvent(DEAR_FILL, 2)];
  }

  lemma UpToFirstClaim() returns (steps: seq<Step>)
    ensures Coordinator.Run(steps)
    ensures Waiting(After(steps), CANARY, SUBMITTED, Reconciliation(CANARY, NO_RESULTS, Leased(Lease(1, 2, 60)), 0))
    ensures Informed(After(steps))
    ensures Claimed(After(steps), CANARY, 2, Start, SUBMITTED, NO_RESULTS) && After(steps).db.now == 0
    ensures After(steps).db.venue.routes == map[] && After(steps).db.venue.applied == map[]
    ensures TokensUpTo(After(steps), 2)
  {
    var front := UpToInformed();
    var s := ClaimReconciliation(After(front), CANARY, 2, SUBMITTED, NO_RESULTS, 0);
    RunAppend(front, s);
    steps := front + [s];
  }

  lemma UpToPartial() returns (steps: seq<Step>)
    ensures Coordinator.Run(steps)
    ensures Waiting(After(steps), CANARY, PARTIAL, Reconciliation(CANARY, NO_RESULTS.(orderId := Some(7)), Pending, 1))
    ensures Informed(After(steps)) && After(steps).db.now == 1
    ensures After(steps).db.venue.routes == map[1 := V.Matched(2)] && After(steps).db.venue.applied == map[1 := 2]
    ensures TokensUpTo(After(steps), 2)
  {
    steps := UpToFirstClaim();
    Choose(After(steps), 2, 1, SUBMITTED, NO_RESULTS, After(steps).db.core.actions[2]);
    RunAppend(steps, WorkOn(2, Reading(NOW, 3, Some(1))));
    steps := steps + [WorkOn(2, Reading(NOW, 3, Some(1)))];
    ApplyWholeFill(After(steps));
    RunAppend(steps, WorkOn(2, Reading(NOW, 3, None)));
    steps := steps + [WorkOn(2, Reading(NOW, 3, None))];
    RunAppend(steps, Tick(1));
    steps := steps + [Tick(1)];
  }

  /**
   * The one event a saga refuses its worker is really proposed: in this run a leaseholder stands
   * at an overfill no larger than the recorded fill, and its next await changes nothing.
   */
  lemma RefusedOverfillIsReached() returns (steps: seq<Step>)
    ensures Coordinator.Run(steps) && 3 in After(steps).runs
    ensures After(steps).runs[3].pc == OverfillHalted(2, 1_000_000) && After(steps).runs[3].claim.saga.filled == 1_000_000
    ensures Holds(After(steps).db, 2, 1, 3)
    ensures Next(After(steps), WorkOn(3, Reading(NOW, 3, None))).db == After(steps).db
    ensures Next(After(steps), WorkOn(3, Reading(NOW, 3, None))).runs[3].pc == Poison
  {
    var told := NO_RESULTS.(orderId := Some(7));
    steps := UpToPartial();
    var s := ClaimReconciliation(After(steps), CANARY, 3, PARTIAL, told, 1);
    RunAppend(steps, s);
    steps := steps + [s];
    Choose(After(steps), 3, 2, PARTIAL, told, After(steps).db.core.actions[2]);
    RunAppend(steps, WorkOn(3, Reading(NOW, 3, Some(2))));
    steps := steps + [WorkOn(3, Reading(NOW, 3, Some(2)))];
    HaltOnDearFill(After(steps), After(steps).db.core.actions[2]);
    RunAppend(steps, WorkOn(3, Reading(NOW, 3, None)));
    steps := steps + [WorkOn(3, Reading(NOW, 3, None))];
    RefusedOverfillChangesNothing(steps, 3, 2, 1_000_000, Reading(NOW, 3, None));
  }
}
