/** The composite updates: queueing a successor, advancing an action with its saga, resuming an episode. */
module CoreMoves {
  import opened Common
  import opened CoordinatorTypes
  import opened StoreOps
  import opened CoreInvariants
  import opened CoreSteps
  import S = Sagas
  import P = PairIntents
  import X = ExitAuthorities

  // ---------------------------------------------------------------- queueing

  // The action `next` may be queued for an intent in this state.
  predicate SuccessorOk(next: NextAction, irow: IntentRow) {
    var s, p := irow.saga, next.payload;
    && KindFits(next.kind, s.state)
    && match next.kind
       case SubmitPerp => !Voided(irow.log)
       case ReconcilePerp => true
       case SubmitSpot => p.filledBase == Some(s.filled)
       case ReconcileSpot => p.filledBase == Some(s.filled) && P.SpotAmountsForFill(irow.intent, s.filled).Some?
       case UnwindPerp =>
         && p.filledBase.Some? && p.filledBase.value > 0
         && p.filledBase.value + p.unwoundBefore.Or(0) == s.filled && p.unwoundBefore.Or(0) == s.unwound
         && (p.authority.Some? ==> X.WorkerAccepts(p.authority.value, s.spot))
       case ReconcileUnwind => UnwindPerpOk(p, s) && p.authority.Some?
       case UnwindSpot | ReconcileUnwindSpot => UnwindSpotOk(p, s)
  }

  function RecoveredId(next: NextAction): (id: Option<nat>) {
    if next.payload.recoveryRequest.Some? then Some(next.payload.recoveryRequest.value.requestId) else None
  }

  function QueuedRow(i: nat, next: NextAction, payload: Payload, now: nat): (r: ActionRow) {
    ActionRow(i, next.kind, next.key, payload, NO_RESULTS, Pending, now)
  }

  lemma SuccessorPlaceable(core: Core, i: nat, next: NextAction, payload: Payload, id: nat, now: nat)
    requires i in core.intents && SuccessorOk(next, core.intents[i])
    requires if next.kind.UnwindPerp?
             then payload.orderIndex.Some?
                  && payload == next.payload.(attempt := payload.attempt, orderIndex := payload.orderIndex)
             else payload == next.payload
    ensures Placeable(core, id, QueuedRow(i, next, payload, now))
  {
  }

  // Everything but cursors and identifiers is the same.
  lemma TablesDecide(core: Core, next: Core)
    requires CoreInv(core) && next.intents == core.intents && next.actions == core.actions
    ensures CoreInv(next)
  {
    assert ActionsOk(next) by {
      forall a | a in next.actions
        ensures Owned(next, a) && ActionOk(next.actions[a], next.intents[next.actions[a].intentId])
      {
        assert Owned(core, a);
      }
    }
    LiveTablesDecide(core, next);
  }

  lemma LiveTablesDecide(core: Core, next: Core)
    requires LiveActionsOk(core) && next.intents == core.intents && next.actions == core.actions
    ensures LiveActionsOk(next)
  {
    forall a | a in next.actions && next.actions[a].Live()
      ensures Owned(next, a) && LiveOk(next.actions[a], SagaOf(next, a))
    {
      assert Owned(core, a);
    }
  }

  lemma {:induction false} FirstFreeIsFree(indexes: map<nat, nat>, draws: seq<nat>)
    ensures FirstFree(indexes, draws).Some? ==>
              FirstFree(indexes, draws).value in draws && FirstFree(indexes, draws).value !in indexes
    decreases |draws|
  {
    if draws != [] && draws[0] in indexes { FirstFreeIsFree(indexes, draws[1..]); }
  }

  // An added unwind order whose own index is sound and unused by its intent's other orders.
  lemma UnwindKeepsIndex(core: Core, base: Core, i: nat, id: nat, row: ActionRow)
    requires IndexInv(core) && id !in core.actions && i in core.intents && row.intentId == i && row.kind.UnwindPerp?
    requires base.intents == core.intents && base.actions == core.actions
    requires forall j | j in base.cursors :: j in core.intents
    requires forall j | j in core.intents ::
               Cursor(core, j) <= Cursor(base, j) <= core.intents[j].intent.maxUnwindAttempts
    requires OwnersKept(core.orderIndexes, base.orderIndexes) && base.spotIds == core.spotIds
    requires OrderIndexOk(SetAction(base, id, row), id)
    requires forall a | a in core.actions && core.actions[a].kind.UnwindPerp? && core.actions[a].intentId == i ::
               core.actions[a].payload.orderIndex != row.payload.orderIndex
    ensures IndexInv(SetAction(base, id, row))
  {
    var next := SetAction(base, id, row);
    forall j | j in next.intents ensures IntentIndexOk(next, j) {
      assert IntentIndexOk(core, j);
      IntentIndexStays(core, next, j);
    }
    forall a | a in next.actions && next.actions[a].kind.UnwindPerp?
      ensures Owned(next, a) && OrderIndexOk(next, a)
    {
      if a != id {
        SameRowGrows(core.actions[a]);
        OrderIndexStays(core, next, a);
      }
    }
  }

  // An automatic unwind order takes the attempt under the cursor.
  lemma AttemptKeepsIndex(core: Core, i: nat, id: nat, row: ActionRow)
    requires IndexInv(core) && id !in core.actions && i in core.intents
    requires row.intentId == i && row.kind.UnwindPerp?
    requires Cursor(core, i) < core.intents[i].intent.maxUnwindAttempts
    requires row.payload.attempt == Some(Cursor(core, i))
    requires row.payload.orderIndex == Some(core.intents[i].intent.unwindOrderIndex + Cursor(core, i))
    ensures IndexInv(SetAction(core.(cursors := core.cursors[i := Cursor(core, i) + 1]), id, row))
  {
    var base := core.(cursors := core.cursors[i := Cursor(core, i) + 1]);
    var x := row.payload.orderIndex.value;
    assert IntentIndexOk(core, i) && IsReserved(core.intents[i].intent, x);
    forall a | a in core.actions && core.actions[a].kind.UnwindPerp? && core.actions[a].intentId == i
      ensures core.actions[a].payload.orderIndex != Some(x)
    {
      assert Owned(core, a) && OrderIndexOk(core, a);
    }
    forall j | j in core.intents
      ensures Cursor(core, j) <= Cursor(base, j) <= core.intents[j].intent.maxUnwindAttempts
    {
      assert IntentIndexOk(core, j);
    }
    UnwindKeepsIndex(core, base, i, id, row);
  }

  // An operator's unwind order takes an index nobody uses.
  lemma OperatorKeepsIndex(core: Core, i: nat, id: nat, row: ActionRow, x: nat)
    requires IndexInv(core) && id !in core.actions && i in core.intents
    requires row.intentId == i && row.kind.UnwindPerp? && row.payload.operatorRecovery
    requires x !in core.orderIndexes && row.payload.orderIndex == Some(x)
    ensures IndexInv(SetAction(core.(orderIndexes := core.orderIndexes[x := i]), id, row))
  {
    var base := core.(orderIndexes := core.orderIndexes[x := i]);
    assert IntentIndexOk(core, i);
    forall a | a in core.actions && core.actions[a].kind.UnwindPerp? && core.actions[a].intentId == i
      ensures core.actions[a].payload.orderIndex != Some(x)
    {
      assert Owned(core, a) && OrderIndexOk(core, a);
    }
    forall j | j in core.intents ensures Cursor(base, j) <= core.intents[j].intent.maxUnwindAttempts {
      assert IntentIndexOk(core, j);
    }
    UnwindKeepsIndex(core, base, i, id, row);
  }

  // What Enqueue builds: the new row and how its index was found.
  lemma EnqueueShape(core: Core, i: nat, next: NextAction, id: nat, draws: seq<nat>, now: nat)
    returns (payload: Payload, base: Core)
    requires i in core.intents && Enqueue(core, i, next, id, draws, now).CoreOk?
    ensures id !in core.actions
    ensures Enqueue(core, i, next, id, draws, now).core == SetAction(base, id, QueuedRow(i, next, payload, now))
    ensures base.intents == core.intents && base.actions == core.actions
    ensures if next.kind.UnwindPerp?
            then && payload.orderIndex.Some?
                 && payload == next.payload.(attempt := payload.attempt, orderIndex := payload.orderIndex)
                 && (|| (&& Cursor(core, i) < core.intents[i].intent.maxUnwindAttempts
                         && payload.attempt == Some(Cursor(core, i))
                         && payload.orderIndex == Some(core.intents[i].intent.unwindOrderIndex + Cursor(core, i))
                         && base == core.(cursors := core.cursors[i := Cursor(core, i) + 1]))
                     || (&& payload.operatorRecovery && payload.orderIndex.value !in core.orderIndexes
                         && base == core.(orderIndexes := core.orderIndexes[payload.orderIndex.value := i])))
            else payload == next.payload && base == core
  {
    payload, base := next.payload, core;
    if next.kind.UnwindPerp? {
      var intent, c := core.intents[i].intent, Cursor(core, i);
      if c < intent.maxUnwindAttempts {
        payload := payload.(attempt := Some(c), orderIndex := Some(intent.unwindOrderIndex + c));
        base := core.(cursors := core.cursors[i := c + 1]);
      } else {
        var tries := if |draws| <= 16 then draws else draws[..16];
        FirstFreeIsFree(core.orderIndexes, tries);
        var x := FirstFree(core.orderIndexes, tries).value;
        payload := payload.(orderIndex := Some(x));
        base := core.(orderIndexes := core.orderIndexes[x := i]);
      }
    }
  }

  lemma EnqueueKeepsInv(core: Core, i: nat, next: NextAction, id: nat, draws: seq<nat>, now: nat)
    requires CoreInv(core) && IndexInv(core) && i in core.intents && !HasLive(core, i)
    requires SuccessorOk(next, core.intents[i])
    requires next.kind.SubmitPerp? ==>
               forall a | a in core.actions && core.actions[a].intentId == i :: !core.actions[a].kind.SubmitPerp?
    requires next.kind.SubmitSpot? ==> Joins(core, i, RecoveredId(next))
    requires Enqueue(core, i, next, id, draws, now).CoreOk?
    ensures CoreInv(Enqueue(core, i, next, id, draws, now).core)
    ensures IndexInv(Enqueue(core, i, next, id, draws, now).core)
  {
    var payload, base := EnqueueShape(core, i, next, id, draws, now);
    var row := QueuedRow(i, next, payload, now);
    assert CoreInv(SetAction(base, id, row)) by {
      TablesDecide(core, base);
      SuccessorPlaceable(base, i, next, payload, id, now);
      assert !HasLive(base, i);
      assert next.kind.SubmitSpot? ==> base == core && KnownId(row) == RecoveredId(next);
      AddActionKeepsInv(base, id, row);
    }
    assert IndexInv(SetAction(base, id, row)) by {
      if !next.kind.UnwindPerp? { AddActionKeepsIndex(core, id, row); }
      else if payload.attempt == Some(Cursor(core, i)) && base == core.(cursors := core.cursors[i := Cursor(core, i) + 1])
              && Cursor(core, i) < core.intents[i].intent.maxUnwindAttempts {
        AttemptKeepsIndex(core, i, id, row);
      } else { OperatorKeepsIndex(core, i, id, row, payload.orderIndex.value); }
    }
  }

  // ---------------------------------------------------------------- advancing

  // What one event makes of an intent's row.
  function Moved(row: IntentRow, e: Option<S.Event>): (r: IntentRow) {
    match e
    case None => row
    case Some(event) =>
      match S.Apply(row.saga, event)
      case Refused(_) => row
      case Accepted(s) => IntentRow(row.intent, s, row.log + [event], !s.state.ExposureResolved())
  }

  // The event keeps the saga in the shape the coordinator relies on.
  predicate EventOk(s: S.Saga, e: Option<S.Event>) {
    e.Some? ==> S.Apply(s, e.value).Accepted? && SagaOk(S.Apply(s, e.value).saga)
                && SagaAdvances(s, S.Apply(s, e.value).saga)
  }

  lemma ReplayExtends(s: S.Saga, log: seq<S.Event>, e: S.Event)
    requires S.Replay(s, log).Some? && S.Apply(S.Replay(s, log).value, e).Accepted?
    ensures S.Replay(s, log + [e]) == Some(S.Apply(S.Replay(s, log).value, e).saga)
  {
    assert (log + [e])[..|log + [e]| - 1] == log;
  }

  lemma MovedIsOk(row: IntentRow, i: nat, e: Option<S.Event>)
    requires IntentOk(row, i) && EventOk(row.saga, e) && HedgedExactly(row.intent, Moved(row, e).saga)
    ensures IntentOk(Moved(row, e), i) && SagaAdvances(row.saga, Moved(row, e).saga)
    ensures Moved(row, e).intent == row.intent
    ensures Voided(Moved(row, e).log) ==> Voided(row.log) || e == Some(S.Event.Cancelled) || e == Some(S.Event.Expired)
  {
    if e.Some? { ReplayExtends(S.New(i).saga, row.log, e.value); }
  }

  lemma AdvanceShape(core: Core, a: nat, row: ActionRow, e: Option<S.Event>, next: Option<NextAction>,
                     id: nat, draws: seq<nat>, now: nat)
    requires row.intentId in core.intents && Advance(core, a, row, e, next, id, draws, now).CoreOk?
    ensures var i := row.intentId;
            var closed := SetIntent(SetAction(core, a, row), i, Moved(core.intents[i], e));
            Advance(core, a, row, e, next, id, draws, now) ==
            if next.None? then CoreOk(closed) else Enqueue(closed, i, next.value, id, draws, now)
  {
    var i := row.intentId;
    if e.None? { assert core.intents[i := core.intents[i]] == core.intents; }
  }

  // A live row may turn into `row`, move its saga by `e` and queue `next`.
  predicate HandsOver(was: ActionRow, irow: IntentRow, row: ActionRow, e: Option<S.Event>, next: Option<NextAction>) {
    && was.Live() && ActionGrows(was, row) && ActionOk(row, irow)
    && (row.Live() ==> LiveOk(row, irow.saga) && LiveOk(row, Moved(irow, e).saga))
    && EventOk(irow.saga, e) && HedgedExactly(irow.intent, Moved(irow, e).saga)
    && (e == Some(S.Event.Cancelled) || e == Some(S.Event.Expired) ==> row.kind.SubmitPerp? && row.status.Rejected?)
    && (next.Some? ==> !row.Live() && !next.value.kind.SubmitPerp? && SuccessorOk(next.value, Moved(irow, e)))
    && (next.Some? && next.value.kind.SubmitSpot? ==> Stage(irow.saga.state) < 2)
  }

  ghost predicate MayAdvance(core: Core, a: nat, row: ActionRow, e: Option<S.Event>, next: Option<NextAction>) {
    && a in core.actions && row.intentId in core.intents
    && HandsOver(core.actions[a], core.intents[row.intentId], row, e, next)
  }

  lemma ClosedSuits(core: Core, a: nat, row: ActionRow, e: Option<S.Event>)
    requires CoreInv(core) && MayAdvance(core, a, row, e, None)
    ensures Suits(SetAction(core, a, row), row.intentId, Moved(core.intents[row.intentId], e))
  {
    var i := row.intentId;
    MovedIsOk(core.intents[i], i, e);
    var closed := SetAction(core, a, row);
    forall b | b in closed.actions && closed.actions[b].intentId == i
      ensures closed.actions[b].Live() ==> LiveOk(closed.actions[b], Moved(core.intents[i], e).saga)
      ensures closed.actions[b].kind.SubmitPerp? && Voided(Moved(core.intents[i], e).log) ==>
                closed.actions[b].status.Rejected?
    {
      if b != a { assert Owned(core, b); }
    }
  }

  // A closed action leaves its intent without a live one.
  lemma ClosedHasNoLive(core: Core, closed: Core, a: nat, row: ActionRow)
    requires OneLive(core) && a in core.actions && core.actions[a].Live() && !row.Live()
    requires row.intentId == core.actions[a].intentId && closed.actions == core.actions[a := row]
    ensures !HasLive(closed, row.intentId)
  {
  }

  lemma MoveKeepsInv(core: Core, i: nat, row: IntentRow)
    requires CoreInv(core) && IndexInv(core) && i in core.intents && IntentOk(row, i)
    requires row.intent == core.intents[i].intent && SagaAdvances(core.intents[i].saga, row.saga) && Suits(core, i, row)
    ensures CoreInv(SetIntent(core, i, row)) && IndexInv(SetIntent(core, i, row))
  {
    SetIntentKeepsInv(core, i, row);
    SetIntentKeepsIndex(core, i, row);
  }

  lemma CloseKeepsInv(core: Core, a: nat, row: ActionRow, e: Option<S.Event>)
    requires CoreInv(core) && IndexInv(core) && MayAdvance(core, a, row, e, None)
    ensures var closed := SetIntent(SetAction(core, a, row), row.intentId, Moved(core.intents[row.intentId], e));
            CoreInv(closed) && IndexInv(closed) && (!row.Live() ==> !HasLive(closed, row.intentId))
  {
    var i := row.intentId;
    SetActionKeepsInv(core, a, row);
    SetActionKeepsIndex(core, a, row);
    MovedIsOk(core.intents[i], i, e);
    ClosedSuits(core, a, row, e);
    var moved := Moved(core.intents[i], e);
    MoveKeepsInv(SetAction(core, a, row), i, moved);
    if !row.Live() { ClosedHasNoLive(core, SetIntent(SetAction(core, a, row), i, moved), a, row); }
  }

  // Only action `a` and intent `i` change; the action `id` is new.
  ghost predicate Touches(core: Core, next: Core, a: nat, i: nat) {
    && (forall b | b in core.actions && b != a :: b in next.actions && next.actions[b] == core.actions[b])
    && (forall j | j in core.intents && j != i :: j in next.intents && next.intents[j] == core.intents[j])
    && (forall j | j in next.intents && j != i :: j in core.intents)
    && (forall b | b in next.actions && b !in core.actions :: next.actions[b].status.Pending?
         && next.actions[b].results == NO_RESULTS && next.actions[b].intentId == i)
  }

  lemma AdvanceKeepsInv(core: Core, a: nat, row: ActionRow, e: Option<S.Event>, next: Option<NextAction>,
                        id: nat, draws: seq<nat>, now: nat)
    requires CoreInv(core) && IndexInv(core) && MayAdvance(core, a, row, e, next)
    requires Advance(core, a, row, e, next, id, draws, now).CoreOk?
    ensures CoreInv(Advance(core, a, row, e, next, id, draws, now).core)
    ensures IndexInv(Advance(core, a, row, e, next, id, draws, now).core)
  {
    var i := row.intentId;
    AdvanceShape(core, a, row, e, next, id, draws, now);
    CloseKeepsInv(core, a, row, e);
    if next.Some? {
      var closed := SetIntent(SetAction(core, a, row), i, Moved(core.intents[i], e));
      if next.value.kind.SubmitSpot? { FirstPurchase(core, a, row, closed, RecoveredId(next.value)); }
      EnqueueKeepsInv(closed, i, next.value, id, draws, now);
    }
  }

  // Before its fill an episode has no purchase to agree with.
  lemma FirstPurchase(core: Core, a: nat, row: ActionRow, closed: Core, id: Option<nat>)
    requires ActionsOk(core) && a in core.actions && row.intentId in core.intents
    requires ActionGrows(core.actions[a], row) && Stage(core.intents[row.intentId].saga.state) < 2
    requires closed.actions == core.actions[a := row]
    ensures Joins(closed, row.intentId, id)
  {
  }

  lemma SetBothTouches(core: Core, a: nat, row: ActionRow, i: nat, irow: IntentRow)
    requires a in core.actions && i in core.intents && ActionGrows(core.actions[a], row)
    requires irow.intent == core.intents[i].intent && SagaAdvances(core.intents[i].saga, irow.saga)
    ensures var closed := SetIntent(SetAction(core, a, row), i, irow);
            Touches(core, closed, a, i) && Grows(core, closed)
  {
  }

  lemma CloseTouches(core: Core, a: nat, row: ActionRow, e: Option<S.Event>)
    requires MayAdvance(core, a, row, e, None) && IntentsOk(core)
    ensures var closed := SetIntent(SetAction(core, a, row), row.intentId, Moved(core.intents[row.intentId], e));
            Touches(core, closed, a, row.intentId) && Grows(core, closed)
  {
    var i := row.intentId;
    MovedIsOk(core.intents[i], i, e);
    SetBothTouches(core, a, row, i, Moved(core.intents[i], e));
  }

  lemma AddTouches(core: Core, closed: Core, after: Core, a: nat, i: nat, id: nat, next: NextAction, payload: Payload,
                   now: nat)
    requires Touches(core, closed, a, i) && Grows(core, closed) && id !in closed.actions
    requires after.intents == closed.intents && after.actions == closed.actions[id := QueuedRow(i, next, payload, now)]
    ensures Touches(core, after, a, i) && Grows(core, after)
  {
  }

  lemma AdvanceTouches(core: Core, a: nat, row: ActionRow, e: Option<S.Event>, next: Option<NextAction>,
                       id: nat, draws: seq<nat>, now: nat)
    requires MayAdvance(core, a, row, e, next) && IntentsOk(core)
    requires Advance(core, a, row, e, next, id, draws, now).CoreOk?
    ensures var after := Advance(core, a, row, e, next, id, draws, now).core;
            && Touches(core, after, a, row.intentId) && Grows(core, after)
            && a in after.actions && after.actions[a] == row
            && row.intentId in after.intents && after.intents[row.intentId] == Moved(core.intents[row.intentId], e)
  {
    var i := row.intentId;
    AdvanceShape(core, a, row, e, next, id, draws, now);
    CloseTouches(core, a, row, e);
    if next.Some? {
      var closed := SetIntent(SetAction(core, a, row), i, Moved(core.intents[i], e));
      var payload, base := EnqueueShape(closed, i, next.value, id, draws, now);
      AddTouches(core, closed, Advance(core, a, row, e, next, id, draws, now).core, a, i, id, next.value, payload, now);
    }
  }
}
