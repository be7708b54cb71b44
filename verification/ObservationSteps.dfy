/** Reconciling against the venue log keeps the world invariant. */
module ObservationSteps {
  import opened Common
  import opened CoordinatorTypes
  import opened StoreOps
  import opened WorkerDecisions
  import opened Worlds
  import opened CoreInvariants
  import opened CoreSteps
  import opened CoreMoves
  import opened WorkerFits
  import opened WorldInvariants
  import opened WorldSteps
  import opened WorkSteps
  import S = Sagas
  import V = VenueLogs

  // ---------------------------------------------------------------- choosing an event

  lemma RouteKeepsDb(db: Db, e: nat, route: V.Route)
    requires DbInv(db) && V.Candidate(db.venue, e) && (route.Matched? || route == V.Quarantined(V.Mismatch))
    ensures DbInv(db.(venue := V.AddRoute(db.venue, e, route)))
  {
    var n := db.(venue := V.AddRoute(db.venue, e, route));
    VenueOf(db);
    V.RoutingKeepsInv(db.venue, e, route);
    forall f ensures DbKeeps(n, f) {
      assert DbKeeps(db, f);
      if f.SignatureFacet? {
        forall b | b in n.core.actions ensures SignedNonce(n, b) { assert SignedNonce(db, b); }
      } else if f.ClosureFacet? {
        forall i | i in n.core.intents && SoldOut(n.core.intents[i].saga) ensures SaleConfirmed(n.core, n.venue, i) {
          var x :| SaleOf(db.core, db.venue, i, x);
          assert SaleOf(n.core, n.venue, i, x);
        }
      }
    }
  }

  lemma RouteKeepsWorld(w: World, e: nat, route: V.Route)
    requires WorldInv(w) && V.Candidate(w.db.venue, e) && (route.Matched? || route == V.Quarantined(V.Mismatch))
    ensures WorldInv(w.(db := w.db.(venue := V.AddRoute(w.db.venue, e, route))))
  {
    DbOf(w);
    RouteKeepsDb(w.db, e, route);
    AsideKeepsWorld(w, w.db.(venue := V.AddRoute(w.db.venue, e, route)));
  }

  lemma ChooseKeeps(w: World, t: nat, e: nat)
    requires Working(w, t) && Reconciles(w.runs[t].claim.kind)
    ensures WorldInv(Goto(w, t, Chosen(e)))
  {
    RunOf(w, t);
    PcKeepsWorld(w, t, Chosen(e));
  }

  lemma OverdueKeeps(w: World, t: nat)
    requires Working(w, t)
    ensures WorldInv(HaltAnd(w, t, Retrying))
  {
    RunOf(w, t);
    HaltAndKeepsWorld(w, t, Retrying);
  }

  lemma ReconcileStartKeeps(w: World, t: nat, env: Env)
    requires Working(w, t) && Reconciles(w.runs[t].claim.kind)
    ensures WorldInv(ReconcileStart(w, t, env))
  {
    var c := w.runs[t].claim;
    var venue := w.db.venue;
    match env.event {
      case None => if env.overdue { OverdueKeeps(w, t); } else { RetryKeeps(w, t, env); }
      case Some(e) =>
        if e !in venue.events || venue.events[e].intentId != c.intent.id || !KindListens(c.kind, venue.events[e].kind) {
        } else if e in venue.routes && venue.routes[e] == V.Matched(c.actionId) && e !in venue.applied {
          ChooseKeeps(w, t, e);
        } else if V.Candidate(venue, e) {
          if PayloadMatches(c.kind, c.intent, c.payload, c.results, venue.events[e].observation) {
            RouteKeepsWorld(w, e, V.Matched(c.actionId));
            ChooseKeeps(w.(db := w.db.(venue := V.AddRoute(venue, e, V.Matched(c.actionId)))), t, e);
          } else {
            RouteKeepsWorld(w, e, V.Quarantined(V.Mismatch));
          }
        }
    }
  }

  // ---------------------------------------------------------------- applying it

  // An event applied to the action, with what the action asks of the saga and the queue.
  predicate Observes(row: ActionRow, irow: IntentRow, o: V.VenueEvent, after: ActionRow, e: Option<S.Event>,
                     next: Option<NextAction>)
  {
    && HandsOver(row, irow, after, e, next)
    && after.results.signed.None? && !after.status.Leased?
    && (SoldOut(Moved(irow, e).saga) ==>
          && o.kind.SpotUnwindConfirmed? && o.observation.SpotObservation?
          && o.observation.spotIntentId == irow.intent.spotUnwindId && o.observation.amountIn == irow.saga.spot
          && row.kind.ReconcileUnwindSpot? && after.status.Succeeded? && row.payload.authority.Some?
          && o.observation.amountOut >= row.payload.authority.value.minimumOut
          && Moved(irow, e).saga.spot == irow.saga.spot)
  }

  lemma AppliedVenue(log: V.VenueLog, e: nat, a: nat)
    requires V.Inv(log) && V.ApplyTo(log, e, a).Some?
    ensures V.Inv(V.ApplyTo(log, e, a).value) && VenueGrows(log, V.ApplyTo(log, e, a).value)
    ensures e in log.events && V.ApplyTo(log, e, a).value.events == log.events
    ensures e in V.ApplyTo(log, e, a).value.applied && V.ApplyTo(log, e, a).value.applied[e] == a
  {
    V.ApplyingKeepsInv(log, e, a);
  }

  lemma SaleWitness(core: Core, next: Core, log: V.VenueLog, nlog: V.VenueLog, a: nat, after: ActionRow, e: nat,
                    event: Option<S.Event>, successor: Option<NextAction>)
    requires a in core.actions && after.intentId in core.intents && e in log.events
    requires log.events[e].intentId == after.intentId
    requires Observes(core.actions[a], core.intents[after.intentId], log.events[e], after, event, successor)
    requires SoldOut(Moved(core.intents[after.intentId], event).saga)
    requires a in next.actions && next.actions[a] == after
    requires after.intentId in next.intents && next.intents[after.intentId] == Moved(core.intents[after.intentId], event)
    requires nlog.events == log.events && e in nlog.applied && nlog.applied[e] == a
    ensures SaleConfirmed(next, nlog, after.intentId)
  {
    assert SaleOf(next, nlog, after.intentId, e);
  }

  lemma ApplySucceeds(db: Db, a: nat, worker: nat, token: nat, e: nat, event: Option<S.Event>, complete: bool,
                      orderId: Option<nat>, next: Option<NextAction>, id: nat, draws: seq<nat>, n: Db)
    requires ApplyVenueEvent(db, a, worker, token, e, event, complete, orderId, next, id, draws) == DbOk(n)
    ensures Leases(db, a, worker, token) && db.core.actions[a].intentId in db.core.intents
    ensures e in db.venue.events && db.venue.events[e].intentId == db.core.actions[a].intentId
    ensures V.ApplyTo(db.venue, e, a).Some?
    ensures var after := Applied(db.core.actions[a], complete, orderId, db.now + 1);
            && Advance(db.core, a, after, event, next, id, draws, db.now) == CoreOk(n.core)
            && n == db.(venue := V.ApplyTo(db.venue, e, a).value, core := n.core)
  {
  }

  lemma ObserveKeeps(w: World, t: nat, e: nat, event: Option<S.Event>, complete: bool, orderId: Option<nat>,
                     next: Option<NextAction>, id: nat, draws: seq<nat>)
    requires Working(w, t) && Reconciles(w.runs[t].claim.kind) && e in w.db.venue.events
    requires Current(w.db, w.runs[t].claim) && RowOf(w, t).intentId in w.db.core.intents ==>
               Observes(RowOf(w, t), w.db.core.intents[RowOf(w, t).intentId], w.db.venue.events[e],
                        Applied(RowOf(w, t), complete, orderId, w.db.now + 1), event, next)
    ensures var c := w.runs[t].claim;
            WorldInv(Commit(w, t, ApplyVenueEvent(w.db, c.actionId, c.worker, c.token, e, event, complete, orderId, next,
                                                  id, draws), Done))
  {
    var c := w.runs[t].claim;
    match ApplyVenueEvent(w.db, c.actionId, c.worker, c.token, e, event, complete, orderId, next, id, draws) {
      case DbErr(error) => FailKeepsWorld(w, t, error);
      case DbOk(n) =>
        ApplySucceeds(w.db, c.actionId, c.worker, c.token, e, event, complete, orderId, next, id, draws, n);
        ObservedKeeps(w, t, e, event, complete, orderId, next, id, draws, n);
    }
  }

  lemma ObservedKeeps(w: World, t: nat, e: nat, event: Option<S.Event>, complete: bool, orderId: Option<nat>,
                      next: Option<NextAction>, id: nat, draws: seq<nat>, n: Db)
    requires Working(w, t) && Current(w.db, w.runs[t].claim) && e in w.db.venue.events
    requires RowOf(w, t).intentId in w.db.core.intents
    requires Observes(RowOf(w, t), w.db.core.intents[RowOf(w, t).intentId], w.db.venue.events[e],
                      Applied(RowOf(w, t), complete, orderId, w.db.now + 1), event, next)
    requires w.db.venue.events[e].intentId == RowOf(w, t).intentId
    requires V.ApplyTo(w.db.venue, e, w.runs[t].claim.actionId).Some?
    requires var after := Applied(RowOf(w, t), complete, orderId, w.db.now + 1);
             && Advance(w.db.core, w.runs[t].claim.actionId, after, event, next, id, draws, w.db.now) == CoreOk(n.core)
             && n == w.db.(venue := V.ApplyTo(w.db.venue, e, w.runs[t].claim.actionId).value, core := n.core)
    ensures WorldInv(Goto(w.(db := n), t, Done))
  {
    var a := w.runs[t].claim.actionId;
    var after := Applied(RowOf(w, t), complete, orderId, w.db.now + 1);
    DbOf(w);
    VenueOf(w.db);
    AppliedVenue(w.db.venue, e, a);
    if SoldOut(Moved(w.db.core.intents[after.intentId], event).saga) {
      SaleRecorded(w.db, n, a, after, e, event, next, id, draws);
    }
    AdvanceKeepsWorld(w, t, n, after, event, next, id, draws);
  }

  lemma SaleRecorded(db: Db, n: Db, a: nat, after: ActionRow, e: nat, event: Option<S.Event>, next: Option<NextAction>,
                     id: nat, draws: seq<nat>)
    requires DbInv(db) && a in db.core.actions && after.intentId in db.core.intents && e in db.venue.events
    requires Observes(db.core.actions[a], db.core.intents[after.intentId], db.venue.events[e], after, event, next)
    requires db.venue.events[e].intentId == after.intentId
    requires SoldOut(Moved(db.core.intents[after.intentId], event).saga)
    requires Advance(db.core, a, after, event, next, id, draws, db.now) == CoreOk(n.core)
    requires n.venue.events == db.venue.events && e in n.venue.applied && n.venue.applied[e] == a
    ensures SaleConfirmed(n.core, n.venue, after.intentId)
  {
    CoreOf(db);
    AdvanceTouches(db.core, a, after, event, next, id, draws, db.now);
    SaleWitness(db.core, n.core, db.venue, n.venue, a, after, e, event, next);
  }

  // ---------------------------------------------------------------- the four reconciling kinds

  lemma EntryObserves(row: ActionRow, irow: IntentRow, c: Claim, o: V.VenueEvent, orderId: Option<nat>, at: nat)
    requires Held(row, irow, c) && c.kind.ReconcilePerp? && DecidePerp(c, o.kind, o.observation).Apply?
    ensures var d := DecidePerp(c, o.kind, o.observation);
            Observes(row, irow, o, Applied(row, d.complete, orderId, at), d.event, d.next)
  {
    EntryObservationFits(row, irow, c, o.kind, o.observation, orderId, at);
  }

  lemma SpotObserves(row: ActionRow, irow: IntentRow, c: Claim, o: V.VenueEvent, orderId: Option<nat>, at: nat)
    requires Held(row, irow, c) && c.kind.ReconcileSpot? && DecideSpot(c, o.kind, o.observation).Apply?
    requires V.ValidPayload(o.kind, o.observation)
    ensures var d := DecideSpot(c, o.kind, o.observation);
            Observes(row, irow, o, Applied(row, d.complete, orderId, at), d.event, d.next)
  {
    SpotObservationFits(row, irow, c, o.kind, o.observation, orderId, at);
  }

  lemma UnwindObserves(row: ActionRow, irow: IntentRow, c: Claim, o: V.VenueEvent, now: nat, orderId: Option<nat>, at: nat)
    requires Held(row, irow, c) && c.kind.ReconcileUnwind? && DecideUnwind(c, o.kind, o.observation, now).Apply?
    ensures var d := DecideUnwind(c, o.kind, o.observation, now);
            Observes(row, irow, o, Applied(row, d.complete, orderId, at), d.event, d.next)
  {
    UnwindObservationFits(row, irow, c, o.kind, o.observation, now, orderId, at);
  }

  lemma SaleObserves(row: ActionRow, irow: IntentRow, c: Claim, o: V.VenueEvent, orderId: Option<nat>, at: nat)
    requires Held(row, irow, c) && c.kind.ReconcileUnwindSpot? && DecideUnwindSpot(c, o.kind, o.observation).Apply?
    ensures var d := DecideUnwindSpot(c, o.kind, o.observation);
            Observes(row, irow, o, Applied(row, d.complete, orderId, at), d.event, d.next)
  {
    SaleObservationFits(row, irow, c, o.kind, o.observation, orderId, at);
  }

  /** Whatever a reconciling worker decides to apply, the saga accepts and the queue can carry on. */
  lemma DecisionObserves(row: ActionRow, irow: IntentRow, c: Claim, o: V.VenueEvent, now: nat, orderId: Option<nat>,
                         at: nat)
    requires Held(row, irow, c) && Reconciles(c.kind) && Decide(c, o.kind, o.observation, now).Apply?
    requires V.ValidEvent(o)
    ensures var d := Decide(c, o.kind, o.observation, now);
            Observes(row, irow, o, Applied(row, d.complete, orderId, at), d.event, d.next)
  {
    match c.kind
    case ReconcilePerp => EntryObserves(row, irow, c, o, orderId, at);
    case ReconcileSpot => SpotObserves(row, irow, c, o, orderId, at);
    case ReconcileUnwind => UnwindObserves(row, irow, c, o, now, orderId, at);
    case ReconcileUnwindSpot => SaleObserves(row, irow, c, o, orderId, at);
  }

  lemma StoredIsValid(w: World, e: nat)
    requires WorldInv(w) && e in w.db.venue.events
    ensures V.ValidEvent(w.db.venue.events[e])
  {
    DbOf(w);
    VenueOf(w.db);
    assert V.EventOk(w.db.venue, e);
  }

  lemma ApplyDecisionKeeps(w: World, t: nat, e: nat, env: Env)
    requires Working(w, t) && w.runs[t].pc == Chosen(e) && e in w.db.venue.events
    requires var o := w.db.venue.events[e];
             Decide(w.runs[t].claim, o.kind, o.observation, env.now).Apply?
    ensures WorldInv(ReconcileChosen(w, t, e, env))
  {
    var c := w.runs[t].claim;
    var o := w.db.venue.events[e];
    var d := Decide(c, o.kind, o.observation, env.now);
    var orderId := if o.observation.PerpObservation? then Some(o.observation.orderId) else None;
    RunOf(w, t);
    if Current(w.db, c) {
      CurrentIsHeld(w, t);
      StoredIsValid(w, e);
      DecisionObserves(RowOf(w, t), w.db.core.intents[RowOf(w, t).intentId], c, o, env.now, orderId, w.db.now + 1);
    }
    ObserveKeeps(w, t, e, d.event, d.complete, orderId, d.next, env.newId, env.draws);
  }

  lemma StopDecisionKeeps(w: World, t: nat, e: nat, env: Env)
    requires Working(w, t) && w.runs[t].pc == Chosen(e) && e in w.db.venue.events
    requires var o := w.db.venue.events[e];
             Decide(w.runs[t].claim, o.kind, o.observation, env.now).Stop?
    ensures WorldInv(ReconcileChosen(w, t, e, env))
  {
    var c := w.runs[t].claim;
    var o := w.db.venue.events[e];
    RunOf(w, t);
    if Current(w.db, c) {
      CurrentIsHeld(w, t);
      DecidedStops(RowOf(w, t), w.db.core.intents[RowOf(w, t).intentId], c, o.kind, o.observation, env.now);
    }
    FailSafeKeeps(w, t, Some(Decide(c, o.kind, o.observation, env.now).cause));
  }

  lemma OverfillDecided(c: Claim, k: V.VenueKind, o: V.Observation, now: nat)
    requires Decide(c, k, o, now).Overfill?
    ensures c.kind.ReconcilePerp?
  {
  }

  lemma ReconcileChosenKeeps(w: World, t: nat, e: nat, env: Env)
    requires Working(w, t) && w.runs[t].pc == Chosen(e)
    ensures WorldInv(ReconcileChosen(w, t, e, env))
  {
    if e in w.db.venue.events {
      var c, o := w.runs[t].claim, w.db.venue.events[e];
      match Decide(c, o.kind, o.observation, env.now) {
        case Apply(_, _, _) => ApplyDecisionKeeps(w, t, e, env);
        case Stop(_) => StopDecisionKeeps(w, t, e, env);
        case Overfill(fill) =>
          RunOf(w, t);
          OverfillDecided(c, o.kind, o.observation, env.now);
          HaltAndKeepsWorld(w, t, OverfillHalted(e, fill));
        case Poisoned =>
          RunOf(w, t);
          PoisonKeepsWorld(w, t);
      }
    }
  }

  // ---------------------------------------------------------------- overfills

  lemma RefusedOverfill(db: Db, a: nat, worker: nat, token: nat, e: nat, fill: nat, next: Option<NextAction>, id: nat,
                        draws: seq<nat>)
    requires Holds(db, a, worker, token) && db.core.actions[a].intentId in db.core.intents
    requires fill <= db.core.intents[db.core.actions[a].intentId].saga.filled
    ensures ApplyVenueEvent(db, a, worker, token, e, Some(S.PerpOverfilled(fill)), true, None, next, id, draws).DbErr?
    ensures IsPoison(ApplyVenueEvent(db, a, worker, token, e, Some(S.PerpOverfilled(fill)), true, None, next, id, draws).error)
  {
  }

  lemma OverfillObserves(row: ActionRow, irow: IntentRow, c: Claim, o: V.VenueEvent, fill: nat, at: nat)
    requires Held(row, irow, c) && c.kind.ReconcilePerp? && fill > c.saga.filled
    ensures Observes(row, irow, o, Applied(row, true, None, at), Some(S.PerpOverfilled(fill)), Some(EmergencyUnwind(fill)))
  {
    OverfillFits(row, irow, c, fill, at);
  }

  lemma ApplyOverfillKeeps(w: World, t: nat, e: nat, fill: nat, env: Env)
    requires Working(w, t) && w.runs[t].pc == OverfillHalted(e, fill)
    ensures WorldInv(ApplyOverfill(w, t, e, fill, env))
  {
    var c := w.runs[t].claim;
    RunOf(w, t);
    var next := Some(EmergencyUnwind(fill));
    var result := ApplyVenueEvent(w.db, c.actionId, c.worker, c.token, e, Some(S.PerpOverfilled(fill)), true, None, next,
                                  env.newId, env.draws);
    if result.DbErr? { FailKeepsWorld(w, t, result.error); }
    else {
      CurrentIsHeld(w, t);
      if fill <= c.saga.filled {
        RefusedOverfill(w.db, c.actionId, c.worker, c.token, e, fill, next, env.newId, env.draws);
        assert false;
      } else {
        OverfillObserves(RowOf(w, t), w.db.core.intents[RowOf(w, t).intentId], c, w.db.venue.events[e], fill, w.db.now + 1);
        ObserveKeeps(w, t, e, Some(S.PerpOverfilled(fill)), true, None, next, env.newId, env.draws);
      }
    }
  }
}
