/** What every reachable database keeps about sagas, actions and order indexes. */
module CoreInvariants {
  import opened Common
  import opened CoordinatorTypes
  import opened StoreOps
  import S = Sagas
  import P = PairIntents
  import X = ExitAuthorities

  // ---------------------------------------------------------------- sagas

  // How far an episode has come; no step of the coordinator goes back.
  function Stage(s: S.State): (r: nat) {
    match s
    case Created | Prechecked => 0
    case PerpSubmitted | PerpPartial => 1
    case PerpFilled => 2
    case SpotSubmitted => 3
    case Hedged | Exiting => 4
    case Unwinding | Unhedged | Closed => 5
    case Cancelled | Expired | FailedSafe => 6
  }

  predicate InUnwind(s: S.State) { s.Unwinding? || s.Unhedged? || s.Closed? }

  predicate SagaOk(s: S.Saga) {
    && !s.state.Created? && !s.state.Exiting? && !s.state.FailedSafe?
    && s.unwound <= s.filled
    && (s.filled == 0
        <==> s.state.Prechecked? || s.state.PerpSubmitted? || s.state.Cancelled? || s.state.Expired?)
    && (s.unwound > 0 ==> InUnwind(s.state))
    && (s.spot > 0 ==> s.state.Hedged? || InUnwind(s.state))
    && (s.state.Hedged? ==> s.spot > 0)
    && (s.filled > 0 && s.unwound == s.filled && !s.state.Closed? ==> s.spot > 0)
    && (s.state.Closed? ==> s.unwound == s.filled)
  }

  // Progress of one saga: what later states keep of earlier ones.
  predicate SagaAdvances(s: S.Saga, n: S.Saga) {
    && n.intentId == s.intentId
    && Stage(s.state) <= Stage(n.state)
    && (Stage(s.state) >= 2 ==> n.filled == s.filled)
    && (Stage(s.state) >= 4 ==> n.spot == s.spot)
    && s.unwound <= n.unwound
    && (InUnwind(s.state) ==> InUnwind(n.state))
    && (s.state.ExposureResolved() ==> n == s)
  }

  // A hedged episode holds exactly the spot that hedges its fill.
  predicate HedgedExactly(intent: P.PairIntent, s: S.Saga) {
    s.state.Hedged? ==>
      P.SpotAmountsForFill(intent, s.filled).Some? && s.spot == P.SpotAmountsForFill(intent, s.filled).value.target
  }

  predicate IntentOk(row: IntentRow, i: nat) {
    && row.intent.id == i && i != 0
    && SagaOk(row.saga) && row.saga.intentId == i
    && S.Replay(S.New(i).saga, row.log) == Some(row.saga)
    && (row.active <==> !row.saga.state.ExposureResolved())
    && S.HedgeRestored !in row.log
    && HedgedExactly(row.intent, row.saga)
  }

  // ---------------------------------------------------------------- actions

  // The entry was cancelled or expired by the submitter, not rejected by the venue.
  predicate Voided(log: seq<S.Event>) { S.Event.Cancelled in log || S.Event.Expired in log }

  // No worker can have handed this order to the venue, nor ever will.
  predicate Unsendable(r: Results) {
    r.authorized.None? || (r.signed.Some? && !r.signed.value.encodable)
  }

  predicate OrderMatches(r: ActionRow, intent: P.PairIntent, o: LighterOrder) {
    if r.kind.SubmitPerp? then
      && o.clientOrderIndex == intent.clientOrderIndex && o.baseAmount == intent.baseAmount
      && o.price == intent.limitPrice && o.isAsk && !o.reduceOnly
    else
      && r.payload.orderIndex == Some(o.clientOrderIndex) && r.payload.filledBase == Some(o.baseAmount)
      && r.payload.authority.Some? && o.price == r.payload.authority.value.unwindPrice
      && !o.isAsk && o.reduceOnly
  }

  predicate OrderOk(r: ActionRow, intent: P.PairIntent) {
    && (r.results.authorized.Some? ==> r.results.signed.Some?)
    && (r.results.submission.Some? ==> r.results.authorized.Some?)
    && (r.results.signed.Some? ==> OrderMatches(r, intent, r.results.signed.value.order))
  }

  // Unwind conservation: what is ordered plus what was unwound before is the whole fill.
  predicate UnwindPerpOk(p: Payload, s: S.Saga) {
    && InUnwind(s.state)
    && p.filledBase.Some? && p.filledBase.value > 0
    && p.filledBase.value + p.unwoundBefore.Or(0) == s.filled
    && p.orderIndex.Some?
    && (p.authority.Some? ==> X.WorkerAccepts(p.authority.value, s.spot))
  }

  predicate UnwindSpotOk(p: Payload, s: S.Saga) {
    && InUnwind(s.state) && s.unwound == s.filled && s.spot > 0
    && p.spotAmount == Some(s.spot)
    && p.authority.Some? && X.WorkerAccepts(p.authority.value, s.spot)
  }

  // A persisted purchase is for exactly the hedge of the fill, a persisted sale for all of the spot.
  predicate RequestOk(r: ActionRow, irow: IntentRow) {
    r.results.request.Some? ==>
      var q, intent, s := r.results.request.value, irow.intent, irow.saga;
      && q.stockToken == intent.spotToken && q.configVersion == intent.spotConfigVersion
      && (r.payload.recoveryRequest.Some? ==> q.requestId == r.payload.recoveryRequest.value.requestId)
      && if r.kind.SubmitSpot? then
           && P.SpotAmountsForFill(intent, s.filled).Some?
           && var exact := P.SpotAmountsForFill(intent, s.filled).value;
           q.buy && q.spotIntentId == intent.id && q.amountIn == exact.settlementIn && q.minimumOut == exact.minimumOut
         else
           && r.payload.authority.Some?
           && !q.buy && q.spotIntentId == intent.spotUnwindId && q.amountIn == s.spot
           && q.minimumOut == r.payload.authority.value.minimumOut
  }

  predicate ActionOk(r: ActionRow, irow: IntentRow) {
    var s := irow.saga;
    && (OrderKind(r.kind) ==> OrderOk(r, irow.intent))
    && (SpotKind(r.kind) ==> RequestOk(r, irow))
    && (r.results.completion.Some? ==> r.status.Succeeded?)
    && match r.kind
       case SubmitPerp =>
         && (Voided(irow.log) ==> r.status.Rejected?)
         && (r.status.Rejected? ==> Unsendable(r.results))
       case ReconcilePerp => Stage(s.state) >= 1
       case SubmitSpot =>
         && 2 <= Stage(s.state) <= 5 && r.payload.filledBase == Some(s.filled)
         && (r.results.submission.Some? ==> P.SpotAmountsForFill(irow.intent, s.filled).Some?)
         && (r.results.submission.Some? && (r.status.Ambiguous? || r.status.FailedSafe?) ==> Stage(s.state) >= 3)
       case ReconcileSpot =>
         && 3 <= Stage(s.state) <= 5 && r.payload.filledBase == Some(s.filled)
         && P.SpotAmountsForFill(irow.intent, s.filled).Some?
       case UnwindPerp => UnwindPerpOk(r.payload, s)
       case ReconcileUnwind => UnwindPerpOk(r.payload, s) && r.payload.authority.Some?
       case UnwindSpot | ReconcileUnwindSpot => UnwindSpotOk(r.payload, s)
  }

  predicate KindFits(k: ActionKind, s: S.State) {
    match k
    case SubmitPerp => s.Prechecked?
    case ReconcilePerp => s.PerpSubmitted? || s.PerpPartial?
    case SubmitSpot => s.PerpFilled?
    case ReconcileSpot => s.SpotSubmitted?
    case UnwindPerp | ReconcileUnwind | UnwindSpot | ReconcileUnwindSpot => s.Unwinding?
  }

  predicate LiveOk(r: ActionRow, s: S.Saga) {
    && KindFits(r.kind, s.state)
    && (r.kind.UnwindPerp? ==> r.payload.unwoundBefore.Or(0) == s.unwound)
  }

  // ---------------------------------------------------------------- the whole core

  predicate Owned(core: Core, a: nat)
    requires a in core.actions
  {
    core.actions[a].intentId in core.intents
  }

  function SagaOf(core: Core, a: nat): (s: S.Saga)
    requires a in core.actions && Owned(core, a)
  {
    core.intents[core.actions[a].intentId].saga
  }

  ghost predicate IntentsOk(core: Core) {
    forall i | i in core.intents :: IntentOk(core.intents[i], i)
  }

  ghost predicate ActionsOk(core: Core) {
    forall a | a in core.actions ::
      Owned(core, a) && ActionOk(core.actions[a], core.intents[core.actions[a].intentId])
  }

  ghost predicate LiveActionsOk(core: Core) {
    forall a | a in core.actions && core.actions[a].Live() :: Owned(core, a) && LiveOk(core.actions[a], SagaOf(core, a))
  }

  ghost predicate OneLive(core: Core) {
    forall a, b | a in core.actions && b in core.actions && core.actions[a].Live() && core.actions[b].Live()
                  && core.actions[a].intentId == core.actions[b].intentId :: a == b
  }

  ghost predicate OneActive(core: Core) {
    forall i, j | i in core.intents && j in core.intents && core.intents[i].active && core.intents[j].active :: i == j
  }

  ghost predicate OneEntry(core: Core) {
    forall a, b | a in core.actions && b in core.actions
                  && core.actions[a].kind.SubmitPerp? && core.actions[b].kind.SubmitPerp?
                  && core.actions[a].intentId == core.actions[b].intentId :: a == b
  }

  // The request id a spot action is known by outside: the one it recovers, else the one it persisted.
  function KnownId(r: ActionRow): (id: Option<nat>) {
    if r.payload.recoveryRequest.Some? then Some(r.payload.recoveryRequest.value.requestId)
    else if r.results.request.Some? then Some(r.results.request.value.requestId)
    else None
  }

  predicate Purchases(core: Core, a: nat, i: nat) {
    a in core.actions && core.actions[a].intentId == i && core.actions[a].kind.SubmitSpot?
  }

  // Every purchase of an episode beside the first recovers the first one's request.
  ghost predicate OnePurchase(core: Core) {
    forall a, b | a in core.actions && b in core.actions && a != b
                  && Purchases(core, b, core.actions[a].intentId) && core.actions[a].kind.SubmitSpot? ::
      KnownId(core.actions[a]).Some? && KnownId(core.actions[a]) == KnownId(core.actions[b])
  }

  ghost predicate CoreInv(core: Core) {
    && IntentsOk(core) && ActionsOk(core) && LiveActionsOk(core)
    && OneLive(core) && OneActive(core) && OneEntry(core) && OnePurchase(core)
  }

  // Only validated intents are stored.
  ghost predicate IntentsValid(core: Core) {
    forall i | i in core.intents :: P.Valid(core.intents[i].intent)
  }

  // ---------------------------------------------------------------- order indexes

  ghost predicate IntentIndexOk(core: Core, i: nat)
    requires i in core.intents
  {
    && Cursor(core, i) <= core.intents[i].intent.maxUnwindAttempts
    && (forall v: nat | IsReserved(core.intents[i].intent, v) ::
          v in core.orderIndexes && core.orderIndexes[v] == i)
    && forall v | v in ReservedSpotIds(core.intents[i].intent) :: v in core.spotIds && core.spotIds[v] == i
  }

  // An unwind order uses an attempt of its intent, or an operator index outside the reserved range.
  ghost predicate OrderIndexOk(core: Core, a: nat)
    requires a in core.actions && Owned(core, a)
  {
    var r := core.actions[a];
    var intent := core.intents[r.intentId].intent;
    && r.payload.orderIndex.Some?
    && r.payload.orderIndex.value in core.orderIndexes
    && core.orderIndexes[r.payload.orderIndex.value] == r.intentId
    && (|| (&& r.payload.attempt.Some? && r.payload.attempt.value < Cursor(core, r.intentId)
            && r.payload.orderIndex.value == intent.unwindOrderIndex + r.payload.attempt.value)
        || (r.payload.operatorRecovery && !IsReserved(intent, r.payload.orderIndex.value)))
  }

  ghost predicate DistinctUnwinds(core: Core) {
    forall a, b | a in core.actions && b in core.actions && a != b
                  && core.actions[a].kind.UnwindPerp? && core.actions[b].kind.UnwindPerp?
                  && core.actions[a].intentId == core.actions[b].intentId ::
      core.actions[a].payload.orderIndex != core.actions[b].payload.orderIndex
  }

  ghost predicate IndexInv(core: Core) {
    && (forall i | i in core.cursors :: i in core.intents)
    && (forall i | i in core.intents :: IntentIndexOk(core, i))
    && (forall a | a in core.actions && core.actions[a].kind.UnwindPerp? :: Owned(core, a) && OrderIndexOk(core, a))
    && DistinctUnwinds(core)
  }

  // ---------------------------------------------------------------- growth

  // What later versions of an action row keep.
  predicate ActionGrows(r: ActionRow, n: ActionRow) {
    && n.intentId == r.intentId && n.kind == r.kind && n.key == r.key
    && (r.payload.authority.Some? || !r.kind.UnwindPerp? ==> n.payload == r.payload)
    && n.payload.orderIndex == r.payload.orderIndex && n.payload.attempt == r.payload.attempt
    && n.payload.operatorRecovery == r.payload.operatorRecovery
    && (OrderKind(r.kind) && r.results.signed.Some? ==> n.results.signed == r.results.signed)
    && (OrderKind(r.kind) && r.results.authorized.Some? ==> n.results.authorized.Some?)
    && (SpotKind(r.kind) && r.results.request.Some? ==> n.results.request == r.results.request)
    && (!r.Live() ==> n == r)
  }

  ghost predicate Grows(core: Core, next: Core) {
    && (forall i | i in core.intents ::
          && i in next.intents && next.intents[i].intent == core.intents[i].intent
          && SagaAdvances(core.intents[i].saga, next.intents[i].saga))
    && (forall a | a in core.actions :: a in next.actions && ActionGrows(core.actions[a], next.actions[a]))
  }
}
