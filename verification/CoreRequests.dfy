/** Requests from outside: creating an intent, starting an exit, recovering a stopped episode. */
module CoreRequests {
  import opened Common
  import opened CoordinatorTypes
  import opened StoreOps
  import opened CoreInvariants
  import opened CoreSteps
  import opened CoreMoves
  import S = Sagas
  import P = PairIntents
  import X = ExitAuthorities

  // ---------------------------------------------------------------- resuming

  function MovedAll(row: IntentRow, events: seq<S.Event>): (r: IntentRow)
    decreases |events|
  {
    if events == [] then row else MovedAll(Moved(row, Some(events[0])), events[1..])
  }

  lemma {:induction false} ResumeShape(core: Core, i: nat, events: seq<S.Event>, next: NextAction, id: nat,
                                       draws: seq<nat>, now: nat)
    requires i in core.intents && Resume(core, i, events, next, id, draws, now).CoreOk?
    ensures Resume(core, i, events, next, id, draws, now)
            == Enqueue(SetIntent(core, i, MovedAll(core.intents[i], events)), i, next, id, draws, now)
    decreases |events|
  {
    if events == [] {
      assert core.intents[i := core.intents[i]] == core.intents;
    } else {
      var moved := TransitionSaga(core, i, events[0]).core;
      ResumeShape(moved, i, events[1..], next, id, draws, now);
      var last := MovedAll(core.intents[i], events);
      assert moved.intents[i := last] == core.intents[i := last];
    }
  }

  ghost predicate MayResume(core: Core, i: nat, events: seq<S.Event>, next: NextAction) {
    && i in core.intents && !HasLive(core, i) && !next.kind.SubmitPerp?
    && (next.kind.SubmitSpot? ==> Joins(core, i, RecoveredId(next)))
    && var final := MovedAll(core.intents[i], events);
    && IntentOk(final, i) && final.intent == core.intents[i].intent
    && SagaAdvances(core.intents[i].saga, final.saga)
    && (Voided(final.log) ==> Voided(core.intents[i].log))
    && SuccessorOk(next, final)
  }

  lemma ResumedSuits(core: Core, i: nat, events: seq<S.Event>, next: NextAction)
    requires CoreInv(core) && MayResume(core, i, events, next)
    ensures Suits(core, i, MovedAll(core.intents[i], events))
  {
    forall a | a in core.actions && core.actions[a].intentId == i
      ensures !core.actions[a].Live()
      ensures core.actions[a].kind.SubmitPerp? && Voided(core.intents[i].log) ==> core.actions[a].status.Rejected?
    {
      assert Owned(core, a);
    }
  }

  lemma JoinsStays(core: Core, after: Core, i: nat, id: Option<nat>)
    requires Joins(core, i, id) && after.actions == core.actions
    ensures Joins(after, i, id)
  {
    forall a | Purchases(after, a, i) ensures id.Some? && KnownId(after.actions[a]) == id { assert Purchases(core, a, i); }
  }

  // A purchase resumed from a stopped one carries its id, which is the id of all.
  lemma RecoveredJoins(core: Core, i: nat, source: nat, next: NextAction)
    requires OnePurchase(core) && Purchases(core, source, i) && core.actions[source].results.request.Some?
    requires next.payload.recoveryRequest == core.actions[source].results.request
    requires KnownId(core.actions[source]) == RecoveredId(next)
    ensures Joins(core, i, RecoveredId(next))
  {
    forall a | Purchases(core, a, i) ensures RecoveredId(next).Some? && KnownId(core.actions[a]) == RecoveredId(next) {
      if a != source { assert Purchases(core, source, core.actions[a].intentId); }
    }
  }

  lemma ResumeKeepsInv(core: Core, i: nat, events: seq<S.Event>, next: NextAction, id: nat, draws: seq<nat>, now: nat)
    requires CoreInv(core) && IndexInv(core) && MayResume(core, i, events, next)
    requires Resume(core, i, events, next, id, draws, now).CoreOk?
    ensures CoreInv(Resume(core, i, events, next, id, draws, now).core)
    ensures IndexInv(Resume(core, i, events, next, id, draws, now).core)
  {
    ResumeShape(core, i, events, next, id, draws, now);
    ResumedSuits(core, i, events, next);
    var final := MovedAll(core.intents[i], events);
    SetIntentKeepsInv(core, i, final);
    SetIntentKeepsIndex(core, i, final);
    assert !HasLive(SetIntent(core, i, final), i);
    if next.kind.SubmitSpot? { JoinsStays(core, SetIntent(core, i, final), i, RecoveredId(next)); }
    EnqueueKeepsInv(SetIntent(core, i, final), i, next, id, draws, now);
  }

  lemma SetIntentTouches(core: Core, i: nat, row: IntentRow, id: nat)
    requires IntentsOk(core) && i in core.intents && row.intent == core.intents[i].intent
    requires SagaAdvances(core.intents[i].saga, row.saga)
    ensures Touches(core, SetIntent(core, i, row), id, i) && Grows(core, SetIntent(core, i, row))
  {
  }

  lemma ResumeTouches(core: Core, i: nat, events: seq<S.Event>, next: NextAction, id: nat, draws: seq<nat>, now: nat)
    requires IntentsOk(core) && MayResume(core, i, events, next)
    requires Resume(core, i, events, next, id, draws, now).CoreOk?
    ensures var after := Resume(core, i, events, next, id, draws, now).core;
            && Touches(core, after, id, i) && Grows(core, after) && id !in core.actions && id in after.actions
            && i in after.intents && after.intents[i] == MovedAll(core.intents[i], events)
  {
    ResumeShape(core, i, events, next, id, draws, now);
    var final := MovedAll(core.intents[i], events);
    SetIntentTouches(core, i, final, id);
    var closed := SetIntent(core, i, final);
    var payload, base := EnqueueShape(closed, i, next, id, draws, now);
    AddTouches(core, closed, Resume(core, i, events, next, id, draws, now).core, id, i, id, next, payload, now);
  }

  // ---------------------------------------------------------------- the sagas of the two requests

  lemma OneEventOk(row: IntentRow, i: nat, e: S.Event)
    requires IntentOk(row, i) && EventOk(row.saga, Some(e)) && !e.Cancelled? && !e.Expired?
    requires !S.Apply(row.saga, e).saga.state.Hedged?
    ensures MovedAll(row, [e]) == Moved(row, Some(e))
    ensures var final := MovedAll(row, [e]);
            && IntentOk(final, i) && final.intent == row.intent && SagaAdvances(row.saga, final.saga)
            && (Voided(final.log) ==> Voided(row.log)) && final.saga == S.Apply(row.saga, e).saga
  {
    assert MovedAll(Moved(row, Some(e)), [e][1..]) == Moved(row, Some(e));
    MovedIsOk(row, i, Some(e));
  }

  lemma HedgedExitOk(row: IntentRow, i: nat)
    requires IntentOk(row, i) && row.saga.state.Hedged?
    ensures var final := MovedAll(row, [S.ExitStarted, S.UnwindStarted]);
            && IntentOk(final, i) && final.intent == row.intent && SagaAdvances(row.saga, final.saga)
            && (Voided(final.log) ==> Voided(row.log))
            && final.saga.state.Unwinding? && final.saga.filled == row.saga.filled
            && final.saga.unwound == row.saga.unwound && final.saga.spot == row.saga.spot
  {
    var events := [S.ExitStarted, S.UnwindStarted];
    var exiting := Moved(row, Some(S.ExitStarted));
    assert events[1..] == [S.UnwindStarted];
    assert MovedAll(row, events) == MovedAll(exiting, [S.UnwindStarted]);
    assert [S.UnwindStarted][1..] == [];
    assert MovedAll(exiting, [S.UnwindStarted]) == Moved(exiting, Some(S.UnwindStarted));
    ReplayExtends(S.New(i).saga, row.log, S.ExitStarted);
    ReplayExtends(S.New(i).saga, exiting.log, S.UnwindStarted);
  }

  lemma UnwindStartedOk(s: S.Saga)
    requires SagaOk(s) && (s.state.PerpFilled? || s.state.Unhedged?)
    ensures EventOk(s, Some(S.UnwindStarted))
  {
  }

  lemma ExitMoves(row: IntentRow, i: nat, reason: ExitReason, authority: X.ExitAuthority)
    requires IntentOk(row, i) && ExitPlan(row.saga, reason, authority).Some?
    ensures var final := MovedAll(row, ExitPlan(row.saga, reason, authority).value.0);
            && IntentOk(final, i) && final.intent == row.intent && SagaAdvances(row.saga, final.saga)
            && (Voided(final.log) ==> Voided(row.log))
            && final.saga.state.Unwinding? && final.saga.filled == row.saga.filled
            && final.saga.unwound == row.saga.unwound && final.saga.spot == row.saga.spot
  {
    if row.saga.state.Hedged? { HedgedExitOk(row, i); }
    else if !row.saga.state.Unwinding? {
      UnwindStartedOk(row.saga);
      OneEventOk(row, i, S.UnwindStarted);
    }
  }

  /** An accepted exit always queues an action that fits: the remaining perp leg, or the spot leg once it is flat. */
  lemma ExitPlanFits(s: S.Saga, reason: ExitReason, authority: X.ExitAuthority, final: IntentRow)
    requires SagaOk(s) && s.filled > 0 && X.WorkerAccepts(authority, s.spot)
    requires ExitPlan(s, reason, authority).Some?
    requires final.saga.state.Unwinding? && final.saga.filled == s.filled && final.saga.unwound == s.unwound
    requires final.saga.spot == s.spot
    ensures SuccessorOk(ExitPlan(s, reason, authority).value.1, final)
    ensures ExitPlan(s, reason, authority).value.1.kind == if s.unwound < s.filled then UnwindPerp else UnwindSpot
  {
  }

  /** Recovery of a stopped action always queues one that fits the saga it leaves behind. */
  lemma RecoverySuccessorFits(r: ActionRow, irow: IntentRow)
    requires ActionOk(r, irow) && SagaOk(irow.saga) && (r.status.Ambiguous? || r.status.FailedSafe?)
    requires RecoverySuccessor(irow.saga, r).Some?
    ensures var k, p := RecoverySuccessor(irow.saga, r).value.0, RecoverySuccessor(irow.saga, r).value.1;
            && !k.SubmitPerp? && !k.UnwindPerp?
            && (match k
                case ReconcilePerp => irow.saga.state.Prechecked? || KindFits(k, irow.saga.state)
                case SubmitSpot => irow.saga.state.PerpFilled? && p.filledBase == Some(irow.saga.filled)
                case ReconcileSpot => irow.saga.state.SpotSubmitted? && p.filledBase == Some(irow.saga.filled)
                                      && P.SpotAmountsForFill(irow.intent, irow.saga.filled).Some?
                case ReconcileUnwind => UnwindPerpOk(p, irow.saga) && p.authority.Some?
                                        && (irow.saga.state.Unwinding? || irow.saga.state.Unhedged?)
                case UnwindSpot | ReconcileUnwindSpot =>
                  UnwindSpotOk(p, irow.saga) && (irow.saga.state.Unwinding? || irow.saga.state.Unhedged?)
                case _ => false)
  {
    match r.kind
    case SubmitPerp =>
    case ReconcilePerp =>
    case SubmitSpot =>
    case ReconcileSpot =>
    case UnwindPerp =>
    case ReconcileUnwind =>
    case UnwindSpot =>
    case ReconcileUnwindSpot =>
  }

  lemma RecoveryMoves(irow: IntentRow, i: nat, k: ActionKind)
    requires IntentOk(irow, i) && !irow.saga.state.ExposureResolved()
    requires irow.saga.state.Prechecked? ==> k.ReconcilePerp?
    requires irow.saga.state.Unhedged? ==> k.ReconcileUnwind? || k.UnwindSpot? || k.ReconcileUnwindSpot?
    ensures var final := MovedAll(irow, RecoveryEvents(irow.saga.state, k));
            && IntentOk(final, i) && final.intent == irow.intent && SagaAdvances(irow.saga, final.saga)
            && (Voided(final.log) ==> Voided(irow.log))
            && final.saga.filled == irow.saga.filled && final.saga.unwound == irow.saga.unwound
            && final.saga.spot == irow.saga.spot
            && final.saga.state == if irow.saga.state.Prechecked? then S.State.PerpSubmitted
                                   else if irow.saga.state.Unhedged? then S.Unwinding else irow.saga.state
  {
    if irow.saga.state.Unhedged? {
      UnwindStartedOk(irow.saga);
      OneEventOk(irow, i, S.UnwindStarted);
    } else if irow.saga.state.Prechecked? {
      OneEventOk(irow, i, S.Event.PerpSubmitted);
    }
  }

  lemma RecoveryFits(r: ActionRow, irow: IntentRow, i: nat, key: Key)
    requires IntentOk(irow, i) && ActionOk(r, irow) && (r.status.Ambiguous? || r.status.FailedSafe?)
    requires RecoverySuccessor(irow.saga, r).Some?
    ensures var next := RecoverySuccessor(irow.saga, r).value;
            var final := MovedAll(irow, RecoveryEvents(irow.saga.state, next.0));
            && IntentOk(final, i) && final.intent == irow.intent && SagaAdvances(irow.saga, final.saga)
            && (Voided(final.log) ==> Voided(irow.log))
            && SuccessorOk(NextAction(next.0, key, next.1), final) && !next.0.SubmitPerp?
  {
    RecoverySuccessorFits(r, irow);
    var next := RecoverySuccessor(irow.saga, r).value;
    RecoveryMoves(irow, i, next.0);
  }

  // ---------------------------------------------------------------- a new intent

  function NewIntentRow(intent: P.PairIntent): (r: IntentRow)
    requires intent.id != 0
  {
    IntentRow(intent, S.Apply(S.New(intent.id).saga, S.PrecheckPassed).saga, [S.PrecheckPassed], true)
  }

  lemma NewIntentOk(intent: P.PairIntent)
    requires intent.id != 0
    ensures IntentOk(NewIntentRow(intent), intent.id) && !Voided(NewIntentRow(intent).log)
    ensures NewIntentRow(intent).saga.state.Prechecked?
  {
    ReplayExtends(S.New(intent.id).saga, [], S.PrecheckPassed);
    assert [] + [S.PrecheckPassed] == [S.PrecheckPassed];
  }

  function Admitted(core: Core, intent: P.PairIntent): (r: Core)
    requires intent.id != 0
  {
    core.(intents := core.intents[intent.id := NewIntentRow(intent)],
          spotIds := Claiming(core.spotIds, ReservedSpotIds(intent), intent.id),
          orderIndexes := Claiming(core.orderIndexes, ReservedOrders(intent), intent.id))
  }

  lemma AddIntentKeepsActions(core: Core, intent: P.PairIntent)
    requires ActionsOk(core) && intent.id != 0 && intent.id !in core.intents
    ensures ActionsOk(Admitted(core, intent))
  {
    var next := Admitted(core, intent);
    forall a | a in next.actions
      ensures Owned(next, a) && ActionOk(next.actions[a], next.intents[next.actions[a].intentId])
    {
      assert Owned(core, a);
    }
  }

  lemma AddIntentKeepsInv(core: Core, intent: P.PairIntent)
    requires CoreInv(core) && intent.id != 0 && intent.id !in core.intents
    requires forall j | j in core.intents :: !core.intents[j].active
    ensures CoreInv(Admitted(core, intent))
  {
    NewIntentOk(intent);
    AddIntentKeepsActions(core, intent);
    AddIntentKeepsLive(core, intent);
  }

  lemma AddIntentKeepsLive(core: Core, intent: P.PairIntent)
    requires LiveActionsOk(core) && intent.id != 0 && intent.id !in core.intents
    ensures LiveActionsOk(Admitted(core, intent))
  {
    var next := Admitted(core, intent);
    forall a | a in next.actions && next.actions[a].Live()
      ensures Owned(next, a) && LiveOk(next.actions[a], SagaOf(next, a))
    {
      assert Owned(core, a);
    }
  }

  lemma AddIntentKeepsIndex(core: Core, intent: P.PairIntent)
    requires IndexInv(core) && intent.id != 0 && intent.id !in core.intents
    requires core.orderIndexes.Keys !! ReservedOrders(intent) && core.spotIds.Keys !! ReservedSpotIds(intent)
    ensures IndexInv(Admitted(core, intent))
  {
    var next := Admitted(core, intent);
    forall j | j in next.intents ensures IntentIndexOk(next, j) {
      if j != intent.id { AddIntentKeepsReserved(core, intent, j); }
    }
    forall a | a in next.actions && next.actions[a].kind.UnwindPerp?
      ensures Owned(next, a) && OrderIndexOk(next, a)
    {
      AddIntentKeepsOrders(core, intent, a);
    }
  }

  lemma AddIntentKeepsReserved(core: Core, intent: P.PairIntent, j: nat)
    requires IndexInv(core) && intent.id != 0 && intent.id !in core.intents && j in core.intents
    requires core.orderIndexes.Keys !! ReservedOrders(intent) && core.spotIds.Keys !! ReservedSpotIds(intent)
    ensures IntentIndexOk(Admitted(core, intent), j)
  {
    assert IntentIndexOk(core, j);
    var next := Admitted(core, intent);
    forall v: nat | IsReserved(next.intents[j].intent, v)
      ensures v in next.orderIndexes && next.orderIndexes[v] == j
    {
      assert v in core.orderIndexes.Keys;
    }
    forall v | v in ReservedSpotIds(next.intents[j].intent) ensures v in next.spotIds && next.spotIds[v] == j {
      assert v in core.spotIds.Keys;
    }
  }

  lemma AddIntentKeepsOrders(core: Core, intent: P.PairIntent, a: nat)
    requires IndexInv(core) && intent.id != 0 && intent.id !in core.intents
    requires a in core.actions && core.actions[a].kind.UnwindPerp?
    requires core.orderIndexes.Keys !! ReservedOrders(intent) && core.spotIds.Keys !! ReservedSpotIds(intent)
    ensures Owned(Admitted(core, intent), a) && OrderIndexOk(Admitted(core, intent), a)
  {
    assert Owned(core, a) && OrderIndexOk(core, a);
    assert core.actions[a].payload.orderIndex.value in core.orderIndexes.Keys;
  }

  // ---------------------------------------------------------------- the three requests

  const ENTRY: NextAction := NextAction(SubmitPerp, EntryPerpKey, NO_PAYLOAD)

  lemma EntryFits(core: Core, intent: P.PairIntent)
    requires intent.id != 0 && intent.id !in core.intents && ActionsOk(core)
    ensures SuccessorOk(ENTRY, NewIntentRow(intent)) && !HasLive(Admitted(core, intent), intent.id)
    ensures forall a | a in core.actions :: core.actions[a].intentId != intent.id
  {
    NewIntentOk(intent);
    forall a | a in core.actions ensures core.actions[a].intentId != intent.id { assert Owned(core, a); }
  }

  lemma CreateKeepsCore(core: Core, intent: P.PairIntent, id: nat, now: nat)
    requires CoreInv(core) && IndexInv(core) && intent.id != 0 && intent.id !in core.intents
    requires forall j | j in core.intents :: !core.intents[j].active
    requires core.orderIndexes.Keys !! ReservedOrders(intent) && core.spotIds.Keys !! ReservedSpotIds(intent)
    requires Enqueue(Admitted(core, intent), intent.id, ENTRY, id, [], now).CoreOk?
    ensures CoreInv(Enqueue(Admitted(core, intent), intent.id, ENTRY, id, [], now).core)
    ensures IndexInv(Enqueue(Admitted(core, intent), intent.id, ENTRY, id, [], now).core)
  {
    AddIntentKeepsInv(core, intent);
    AddIntentKeepsIndex(core, intent);
    EntryFits(core, intent);
    EnqueueKeepsInv(Admitted(core, intent), intent.id, ENTRY, id, [], now);
  }

  lemma AdmitTouches(core: Core, intent: P.PairIntent, id: nat)
    requires IntentsOk(core) && intent.id != 0 && intent.id !in core.intents
    ensures Touches(core, Admitted(core, intent), id, intent.id) && Grows(core, Admitted(core, intent))
  {
  }

  lemma CreateTouches(core: Core, intent: P.PairIntent, id: nat, now: nat)
    requires IntentsOk(core) && intent.id != 0 && intent.id !in core.intents
    requires Enqueue(Admitted(core, intent), intent.id, ENTRY, id, [], now).CoreOk?
    ensures var after := Enqueue(Admitted(core, intent), intent.id, ENTRY, id, [], now).core;
            && Touches(core, after, id, intent.id) && Grows(core, after) && id !in core.actions && id in after.actions
            && intent.id in after.intents && after.intents[intent.id] == NewIntentRow(intent)
  {
    AdmitTouches(core, intent, id);
    var payload, base := EnqueueShape(Admitted(core, intent), intent.id, ENTRY, id, [], now);
    AddTouches(core, Admitted(core, intent), Enqueue(Admitted(core, intent), intent.id, ENTRY, id, [], now).core, id,
               intent.id, id, ENTRY, payload, now);
  }

  lemma ExitMayResume(core: Core, i: nat, reason: ExitReason, authority: X.ExitAuthority)
    requires IntentsOk(core) && i in core.intents && !HasLive(core, i) && core.intents[i].saga.filled > 0
    requires X.WorkerAccepts(authority, core.intents[i].saga.spot)
    requires ExitPlan(core.intents[i].saga, reason, authority).Some?
    ensures var plan := ExitPlan(core.intents[i].saga, reason, authority).value;
            MayResume(core, i, plan.0, plan.1) && MovedAll(core.intents[i], plan.0).saga.state.Unwinding?
  {
    var row := core.intents[i];
    ExitMoves(row, i, reason, authority);
    ExitPlanFits(row.saga, reason, authority, MovedAll(row, ExitPlan(row.saga, reason, authority).value.0));
  }

  lemma RecoveryMayResume(core: Core, i: nat, candidate: nat, key: Key)
    requires CoreInv(core) && i in core.intents && !HasLive(core, i) && candidate in core.actions
    requires core.actions[candidate].intentId == i
    requires core.actions[candidate].status.Ambiguous? || core.actions[candidate].status.FailedSafe?
    requires RecoverySuccessor(core.intents[i].saga, core.actions[candidate]).Some?
    ensures var next := RecoverySuccessor(core.intents[i].saga, core.actions[candidate]).value;
            var events := RecoveryEvents(core.intents[i].saga.state, next.0);
            && MayResume(core, i, events, NextAction(next.0, key, next.1))
            && KindFits(next.0, MovedAll(core.intents[i], events).saga.state)
  {
    assert Owned(core, candidate);
    RecoveryFits(core.actions[candidate], core.intents[i], i, key);
    var next := RecoverySuccessor(core.intents[i].saga, core.actions[candidate]).value;
    if next.0.SubmitSpot? {
      RecoveredPurchase(core.intents[i].saga, core.actions[candidate], core.intents[i]);
      RecoveredJoins(core, i, candidate, NextAction(next.0, key, next.1));
    }
  }

  lemma RecoveredPurchase(s: S.Saga, r: ActionRow, irow: IntentRow)
    requires ActionOk(r, irow) && RecoverySuccessor(s, r).Some? && RecoverySuccessor(s, r).value.0.SubmitSpot?
    ensures r.kind.SubmitSpot? && r.results.request.Some?
    ensures RecoverySuccessor(s, r).value.1.recoveryRequest == r.results.request
    ensures KnownId(r) == Some(r.results.request.value.requestId)
  {
  }
}
