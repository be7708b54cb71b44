/**
 * The transactions of coordinator/src/store.rs as functions on database values.
 * A transaction that fails returns its error and leaves the database as it was.
 */
module StoreOps {
  import opened Common
  import opened CoordinatorTypes
  import S = Sagas
  import P = PairIntents
  import X = ExitAuthorities
  import V = VenueLogs

  // ---------------------------------------------------------------- sagas and actions

  function TransitionSaga(core: Core, i: nat, e: S.Event): (r: CoreResult) {
    if i !in core.intents then CoreErr(MissingIntent) else
    var row := core.intents[i];
    match S.Apply(row.saga, e)
    case Refused(error) => CoreErr(Transition(error))
    case Accepted(s) =>
      CoreOk(core.(intents := core.intents[i := IntentRow(row.intent, s, row.log + [e],
                                                           !s.state.ExposureResolved())]))
  }

  function MaybeTransition(core: Core, i: nat, e: Option<S.Event>): (r: CoreResult) {
    match e
    case None => if i in core.intents then CoreOk(core) else CoreErr(MissingIntent)
    case Some(event) => TransitionSaga(core, i, event)
  }

  predicate KeyTaken(core: Core, i: nat, key: Key) {
    exists a :: a in core.actions && core.actions[a].intentId == i && core.actions[a].key == key
  }

  function Cursor(core: Core, i: nat): (r: nat) { if i in core.cursors then core.cursors[i] else 0 }

  // The first of the sequence's values that no order uses yet; sixteen tries.
  function FirstFree(indexes: map<nat, nat>, draws: seq<nat>): (r: Option<nat>)
    decreases |draws|
  {
    if draws == [] then None
    else if draws[0] !in indexes then Some(draws[0])
    else FirstFree(indexes, draws[1..])
  }

  function Insert(core: Core, i: nat, kind: ActionKind, key: Key, payload: Payload, id: nat, now: nat)
    : (r: CoreResult)
  {
    if id in core.actions || KeyTaken(core, i, key) then CoreErr(Conflict)
    else CoreOk(core.(actions := core.actions[id := ActionRow(i, kind, key, payload, NO_RESULTS, Pending, now)]))
  }

  // `enqueue_action`: an unwind order takes the next attempt of its intent, or with operator
  // authority a value drawn from the operator sequence.
  function Enqueue(core: Core, i: nat, next: NextAction, id: nat, draws: seq<nat>, now: nat): (r: CoreResult)
    requires i in core.intents
  {
    if !next.kind.UnwindPerp? then Insert(core, i, next.kind, next.key, next.payload, id, now)
    else
      var intent := core.intents[i].intent;
      var c := Cursor(core, i);
      if c < intent.maxUnwindAttempts then
        Insert(core.(cursors := core.cursors[i := c + 1]), i, next.kind, next.key,
               next.payload.(attempt := Some(c), orderIndex := Some(intent.unwindOrderIndex + c)), id, now)
      else if !next.payload.operatorRecovery then CoreErr(InvalidAction)
      else
        match FirstFree(core.orderIndexes, if |draws| <= 16 then draws else draws[..16])
        case None => CoreErr(Conflict)
        case Some(x) =>
          Insert(core.(orderIndexes := core.orderIndexes[x := i]), i, next.kind, next.key,
                 next.payload.(orderIndex := Some(x)), id, now)
  }

  // Close or re-queue a row, move the saga, queue the successor: the common shape of
  // complete_action, stop_action, continue_ambiguous_action and apply_venue_event.
  function Advance(core: Core, a: nat, row: ActionRow, event: Option<S.Event>, next: Option<NextAction>,
                   id: nat, draws: seq<nat>, now: nat): (r: CoreResult)
  {
    match MaybeTransition(core, row.intentId, event)
    case CoreErr(e) => CoreErr(e)
    case CoreOk(moved) =>
      var closed := moved.(actions := moved.actions[a := row]);
      if next.None? then CoreOk(closed)
      else if row.intentId !in closed.intents then CoreErr(MissingIntent)
      else Enqueue(closed, row.intentId, next.value, id, draws, now)
  }

  // ---------------------------------------------------------------- leases

  // `lock_action` and the guards of the other lease-fenced statements
  predicate Holds(db: Db, a: nat, worker: nat, token: nat) {
    Leases(db, a, worker, token) && db.core.actions[a].status.lease.expiresAt > db.now
  }

  // The lease is this worker's, expired or not: all `bind_exit_authority` asks for.
  predicate Leases(db: Db, a: nat, worker: nat, token: nat) {
    && a in db.core.actions
    && db.core.actions[a].status.Leased?
    && db.core.actions[a].status.lease.owner == worker
    && db.core.actions[a].status.lease.token == token
  }

  function Halt(c: Control): (r: Control) { Control(Halted, c.version + 1, c.halts + 1) }

  function Lift(db: Db, r: CoreResult, control: Control): (out: DbResult) {
    match r
    case CoreErr(e) => DbErr(e)
    case CoreOk(core) => DbOk(db.(core := core, control := control))
  }

  function CompleteAction(db: Db, a: nat, worker: nat, token: nat, event: Option<S.Event>,
                          completion: Option<Submission>, next: Option<NextAction>, id: nat, draws: seq<nat>)
    : (r: DbResult)
  {
    if !Holds(db, a, worker, token) then DbErr(LeaseLost) else
    var row := db.core.actions[a];
    Lift(db, Advance(db.core, a, row.(status := Succeeded, results := row.results.(completion := completion)),
                     event, next, id, draws, db.now), db.control)
  }

  datatype ActionStop = StopRejected | StopFailedSafe

  // `stop_action`; any stop but a rejection halts the coordinator
  function StopAction(db: Db, a: nat, worker: nat, token: nat, stop: ActionStop, event: Option<S.Event>)
    : (r: DbResult)
  {
    if !Holds(db, a, worker, token) then DbErr(LeaseLost) else
    var row := db.core.actions[a];
    var status := if stop.StopRejected? then Rejected else FailedSafe;
    Lift(db, Advance(db.core, a, row.(status := status), event, None, 0, [], db.now),
         if stop.StopRejected? then db.control else Halt(db.control))
  }

  // `fail_safe_action`: no saga transition
  function FailSafeAction(db: Db, a: nat, worker: nat, token: nat): (r: DbResult) {
    StopAction(db, a, worker, token, StopFailedSafe, None)
  }

  function ContinueAmbiguous(db: Db, a: nat, worker: nat, token: nat, event: Option<S.Event>, next: NextAction,
                             id: nat): (r: DbResult)
  {
    if !Holds(db, a, worker, token) then DbErr(LeaseLost) else
    var row := db.core.actions[a];
    Lift(db, Advance(db.core, a, row.(status := Ambiguous), event, Some(next), id, [], db.now), Halt(db.control))
  }

  function PutAction(db: Db, a: nat, row: ActionRow): (r: Db) {
    db.(core := db.core.(actions := db.core.actions[a := row]))
  }

  function RescheduleAction(db: Db, a: nat, worker: nat, token: nat, delay: nat): (r: DbResult) {
    if !Holds(db, a, worker, token) then DbErr(LeaseLost)
    else DbOk(PutAction(db, a, db.core.actions[a].(status := Pending, availableAt := db.now + delay)))
  }

  // ---------------------------------------------------------------- claiming

  predicate Claimable(db: Db, a: nat) {
    && a in db.core.actions
    && var row := db.core.actions[a];
    && row.intentId in db.core.intents
    && (|| (row.status.Pending? && row.availableAt <= db.now)
        || (row.status.Leased? && row.status.lease.expiresAt <= db.now))
    && (|| !row.kind.SubmitPerp?
        || row.results.signed.Some? || row.results.submission.Some? || row.results.authorized.Some?
        || db.control.mode.Active?)
  }

  function ClaimAction(db: Db, a: nat, worker: nat, token: nat, leaseFor: nat): (r: Option<(Db, Claim)>) {
    if !Claimable(db, a) || worker == 0 || leaseFor == 0 || leaseFor > 60 then None else
    var row := db.core.actions[a];
    var irow := db.core.intents[row.intentId];
    Some((PutAction(db, a, row.(status := Leased(Lease(worker, token, db.now + leaseFor)))),
          Claim(a, worker, token, irow.intent, irow.saga, row.kind, row.payload, row.results,
                db.control.version, db.control.halts)))
  }

  // ---------------------------------------------------------------- recorded results

  function RecordSigned(db: Db, a: nat, worker: nat, token: nat, tx: SignedTx): (r: DbResult) {
    if !Holds(db, a, worker, token) then DbErr(LeaseLost) else
    var row := db.core.actions[a];
    DbOk(PutAction(db, a, row.(results := row.results.(signed := Some(tx)))))
  }

  function RecordRequest(db: Db, a: nat, worker: nat, token: nat, request: SpotRequest): (r: DbResult) {
    if !Holds(db, a, worker, token) then DbErr(LeaseLost) else
    var row := db.core.actions[a];
    DbOk(PutAction(db, a, row.(results := row.results.(request := Some(request)))))
  }

  function RecordSubmission(db: Db, a: nat, worker: nat, token: nat, s: Submission): (r: DbResult) {
    if !Holds(db, a, worker, token) then DbErr(LeaseLost) else
    var row := db.core.actions[a];
    DbOk(PutAction(db, a, row.(results := row.results.(submission := Some(s)))))
  }

  // ---------------------------------------------------------------- send authorization

  function AuthorizeEntrySend(db: Db, a: nat, worker: nat, token: nat, claimedVersion: nat): (r: DbResult) {
    if !Holds(db, a, worker, token) then DbErr(LeaseLost) else
    var row := db.core.actions[a];
    if !row.kind.SubmitPerp? then DbErr(InvalidAction)
    else if !db.control.mode.Active? || db.control.version != claimedVersion then DbErr(CoordinatorHalted)
    else DbOk(PutAction(db, a, row.(results := row.results.(authorized := Some(EntrySend(db.control.version))))))
  }

  function AuthorizeUnwindSend(db: Db, a: nat, worker: nat, token: nat, nowMs: nat, quote: Option<X.ExitQuote>)
    : (r: DbResult)
  {
    if !Holds(db, a, worker, token) then DbErr(LeaseLost) else
    var row := db.core.actions[a];
    if !row.kind.UnwindPerp? && !row.kind.UnwindSpot? then DbErr(LeaseLost)
    else if row.payload.authority.None? then DbErr(InvalidAction)
    else
      var authority := row.payload.authority.value;
      match X.CheckSend(authority, nowMs, quote)
      case Unavailable => DbErr(MarketAuthorityUnavailable)
      case Mismatch => DbErr(MarketEvidenceMismatch)
      case Authorized =>
        DbOk(PutAction(db, a, row.(results := row.results.(
          authorized := Some(UnwindSend(authority.session, authority.eventId))))))
  }

  // `bind_exit_authority`; `quote` is the newest matching quote, if there is one
  function BindExitAuthority(db: Db, a: nat, worker: nat, token: nat, nowMs: nat, quote: Option<X.ExitQuote>)
    : (r: DbResult)
  {
    if !Leases(db, a, worker, token) || db.core.actions[a].intentId !in db.core.intents then DbErr(LeaseLost) else
    var row := db.core.actions[a];
    if !row.kind.UnwindPerp? && !row.kind.UnwindSpot? then DbErr(InvalidAction)
    else if row.payload.authority.Some? || quote.None? then DbOk(db)
    else if nowMs + X.MAX_EXIT_RECONCILIATION_WINDOW_MS > U64_MAX then DbErr(InvalidAction)
    else
      match X.Build(db.core.intents[row.intentId].saga.spot, quote.value, nowMs, quote.value.expiresAt,
                    nowMs + X.MAX_EXIT_RECONCILIATION_WINDOW_MS, None, None)
      case None => DbErr(MarketEvidenceMismatch)
      case Some(authority) =>
        DbOk(PutAction(db, a, row.(payload := row.payload.(authority := Some(authority)))))
  }

  // ---------------------------------------------------------------- Lighter nonces

  datatype NonceResult = NonceOk(db: Db, nonce: nat) | NonceDrift(db: Db) | NonceErr(error: StoreError)

  predicate ValidScope(s: Scope) { s.account > 0 && 2 <= s.apiKey <= 254 }

  function ReserveNonce(t: NonceTable, a: nat, scope: Scope, observed: nat): (r: (NonceTable, nat)) {
    var nonce := Max(if scope in t.next then t.next[scope] else observed, observed);
    (NonceTable(t.next[scope := nonce + 1], t.reservations[a := Reservation(scope, nonce)]), nonce)
  }

  function AssignLighterNonce(db: Db, a: nat, worker: nat, token: nat, scope: Scope, observed: nat)
    : (r: NonceResult)
  {
    if !ValidScope(scope) || observed > I64_MAX then NonceErr(InvalidAction)
    else if !Holds(db, a, worker, token) then NonceErr(LeaseLost)
    else if !OrderKind(db.core.actions[a].kind) then NonceErr(InvalidAction)
    else if a in db.nonces.reservations then
      if db.nonces.reservations[a].scope != scope then NonceDrift(db.(control := Halt(db.control)))
      else NonceOk(db, db.nonces.reservations[a].nonce)
    else
      var reserved := ReserveNonce(db.nonces, a, scope, observed);
      if reserved.1 + 1 > I64_MAX then NonceErr(InvalidAction)
      else NonceOk(db.(nonces := reserved.0), reserved.1)
  }

  // `validate_lighter_nonce_binding`: a drifted scope halts and reports
  function ScopeDrifted(db: Db, a: nat, scope: Scope): (r: bool) {
    a in db.nonces.reservations && db.nonces.reservations[a].scope != scope
  }

  // ---------------------------------------------------------------- venue events

  predicate KindListens(k: ActionKind, v: V.VenueKind) {
    match k
    case ReconcilePerp => v.PerpAccepted? || v.PerpPartial? || v.PerpFilled? || v.PerpRejected?
    case ReconcileSpot => v.SpotConfirmed? || v.SpotRejected?
    case ReconcileUnwind => v.UnwindAccepted? || v.UnwindPartial? || v.UnwindFilled? || v.UnwindRejected?
    case ReconcileUnwindSpot => v.SpotUnwindConfirmed? || v.SpotUnwindRejected?
    case _ => false
  }

  // `venue_payload_matches`: is the observation about the order or spot intent of this action?
  predicate PayloadMatches(kind: ActionKind, intent: P.PairIntent, payload: Payload, results: Results,
                           o: V.Observation)
  {
    if kind.ReconcilePerp? || kind.ReconcileUnwind? then
      && o.PerpObservation?
      && payload.txHash == Some(o.txHash)
      && o.clientOrderIndex == (if kind.ReconcileUnwind?
                                then payload.orderIndex.Or(intent.unwindOrderIndex + payload.attempt.Or(0))
                                else intent.clientOrderIndex)
      && o.marketIndex == intent.marketIndex
      && o.isAsk == kind.ReconcilePerp?
      && o.reduceOnly == kind.ReconcileUnwind?
      && (results.orderId.None? || results.orderId == Some(o.orderId))
    else
      && o.SpotObservation?
      && o.spotIntentId == (if kind.ReconcileSpot? then intent.id else intent.spotUnwindId)
      && o.configVersion == intent.spotConfigVersion
  }

  // `apply_venue_event`: the event is consumed once and moves the action and the saga with it
  function ApplyVenueEvent(db: Db, a: nat, worker: nat, token: nat, e: nat, event: Option<S.Event>,
                           complete: bool, orderId: Option<nat>, next: Option<NextAction>, id: nat, draws: seq<nat>)
    : (r: DbResult)
  {
    if !Holds(db, a, worker, token) then DbErr(LeaseLost) else
    var row := db.core.actions[a];
    if !V.Eligible(db.venue, e, a) || db.venue.events[e].intentId != row.intentId then DbErr(InvalidAction)
    else if row.intentId !in db.core.intents then DbErr(MissingIntent)
    else if !db.venue.routes[e].Matched?
            && !PayloadMatches(row.kind, db.core.intents[row.intentId].intent, row.payload, row.results,
                               db.venue.events[e].observation)
    then DbErr(InvalidAction)
    else if V.ApplyTo(db.venue, e, a).None? then DbErr(InvalidAction)
    else if next.Some? && !complete then DbErr(InvalidAction)
    else
      var after := row.(status := if complete then Succeeded else Pending,
                        results := NO_RESULTS.(orderId := orderId), availableAt := db.now + 1);
      Lift(db.(venue := V.ApplyTo(db.venue, e, a).value),
           Advance(db.core, a, after, event, next, id, draws, db.now), db.control)
  }

  // ---------------------------------------------------------------- requests from outside

  // The rows create_intent adds to the identifier registry.
  predicate IsReserved(intent: P.PairIntent, v: nat) {
    v == intent.clientOrderIndex
    || intent.unwindOrderIndex <= v < intent.unwindOrderIndex + intent.maxUnwindAttempts
  }

  function ReservedOrders(intent: P.PairIntent): (r: set<nat>)
    ensures forall v: nat :: v in r <==> IsReserved(intent, v)
  {
    set v: nat | v <= intent.clientOrderIndex + intent.unwindOrderIndex + intent.maxUnwindAttempts
                 && IsReserved(intent, v)
  }

  function ReservedSpotIds(intent: P.PairIntent): (r: set<nat>) { {intent.id, intent.spotUnwindId} }

  function Claiming(taken: map<nat, nat>, values: set<nat>, owner: nat): (r: map<nat, nat>) {
    taken + map v | v in values :: owner
  }

  // `create_intent`; `admitted` is the verdict of the market-authority and promotion gates
  function CreateIntent(db: Db, intent: P.PairIntent, nowMs: nat, admitted: bool, id: nat): (r: DbResult) {
    var core := db.core;
    if !P.Valid(intent) || nowMs < intent.createdAt || nowMs > intent.deadline then DbErr(InvalidIntent)
    else if !db.control.mode.Active? then DbErr(CoordinatorHalted)
    else if !admitted then DbErr(MarketEvidenceMismatch)
    else if intent.id in core.intents || exists j :: j in core.intents && core.intents[j].active then DbErr(Conflict)
    else if core.spotIds.Keys !! ReservedSpotIds(intent) && core.orderIndexes.Keys !! ReservedOrders(intent) then
      var saga := S.Apply(S.New(intent.id).saga, S.PrecheckPassed).saga;
      var admittedCore := core.(
        intents := core.intents[intent.id := IntentRow(intent, saga, [S.PrecheckPassed], true)],
        spotIds := Claiming(core.spotIds, ReservedSpotIds(intent), intent.id),
        orderIndexes := Claiming(core.orderIndexes, ReservedOrders(intent), intent.id));
      Lift(db, Enqueue(admittedCore, intent.id, NextAction(SubmitPerp, EntryPerpKey, NO_PAYLOAD), id, [], db.now), db.control)
    else DbErr(Conflict)
  }

  predicate HasLive(core: Core, i: nat) {
    exists a :: a in core.actions && core.actions[a].intentId == i && core.actions[a].Live()
  }

  // Move the saga through a list of events, then queue one action: request_exit and request_recovery.
  function Resume(core: Core, i: nat, events: seq<S.Event>, next: NextAction, id: nat, draws: seq<nat>, now: nat)
    : (r: CoreResult)
    requires i in core.intents
    decreases |events|
  {
    if events == [] then Enqueue(core, i, next, id, draws, now) else
    match TransitionSaga(core, i, events[0])
    case CoreErr(e) => CoreErr(e)
    case CoreOk(moved) => Resume(moved, i, events[1..], next, id, draws, now)
  }

  datatype ExitReason = StrategyExit | RiskExit | OperatorExit

  datatype ExitRequest = ExitRequest(
    intentId: nat, price: nat, minimumOut: nat, requestedAt: nat, submissionDeadline: nat,
    reconciliationDeadline: nat, reason: ExitReason)

  predicate ValidExitRequest(r: ExitRequest, nowMs: nat) {
    && P.ValidBytes32(r.intentId) && r.price > 0 && r.minimumOut <= U128_MAX
    && r.requestedAt <= nowMs + 30_000 && nowMs <= r.requestedAt + 30_000
    && nowMs < r.submissionDeadline <= P.SaturatingAdd64(nowMs, X.MAX_EXIT_SUBMISSION_WINDOW_MS)
    && r.submissionDeadline < r.reconciliationDeadline
       <= P.SaturatingAdd64(r.submissionDeadline, X.MAX_EXIT_RECONCILIATION_WINDOW_MS)
  }

  // The plan request_exit makes: which events, which action.
  function ExitPlan(s: S.Saga, reason: ExitReason, authority: X.ExitAuthority)
    : (r: Option<(seq<S.Event>, NextAction)>)
  {
    var key := ExitKey(true, authority.session, authority.eventId);
    var whole := NO_PAYLOAD.(filledBase := Some(s.filled), unwoundBefore := Some(0), authority := Some(authority));
    match s.state
    case PerpFilled =>
      if reason.OperatorExit? then Some(([S.UnwindStarted], NextAction(UnwindPerp, key, whole))) else None
    case Hedged =>
      Some(([S.ExitStarted, S.UnwindStarted], NextAction(UnwindPerp, key, whole)))
    case Unwinding | Unhedged =>
      var events := if s.state.Unhedged? then [S.UnwindStarted] else [];
      if s.unwound < s.filled then
        Some((events, NextAction(UnwindPerp, key,
          NO_PAYLOAD.(filledBase := Some(s.filled - s.unwound), unwoundBefore := Some(s.unwound),
                      authority := Some(authority), operatorRecovery := reason.OperatorExit?))))
      else
        Some((events, NextAction(UnwindSpot, ExitKey(false, authority.session, authority.eventId),
          NO_PAYLOAD.(spotAmount := Some(s.spot), authority := Some(authority)))))
    case _ => None
  }

  function RequestExit(db: Db, r: ExitRequest, nowMs: nat, quote: Option<X.ExitQuote>, id: nat, draws: seq<nat>)
    : (out: DbResult)
  {
    if !ValidExitRequest(r, nowMs) then DbErr(InvalidAction)
    else if r.intentId !in db.core.intents then DbErr(MissingIntent)
    else
      var s := db.core.intents[r.intentId].saga;
      if s.filled == 0 then DbErr(InvalidAction)
      else if HasLive(db.core, r.intentId) then DbErr(Conflict)
      else if quote.None? || quote.value.spotIn != s.spot then DbErr(MarketAuthorityUnavailable)
      else
        match X.Build(s.spot, quote.value, nowMs, r.submissionDeadline, r.reconciliationDeadline,
                      Some(r.price), Some(r.minimumOut))
        case None => DbErr(MarketEvidenceMismatch)
        case Some(authority) =>
          match ExitPlan(s, r.reason, authority)
          case None => DbErr(InvalidAction)
          case Some(plan) =>
            Lift(db, Resume(db.core, r.intentId, plan.0, plan.1, id, draws, db.now), db.control)
  }

  // ---------------------------------------------------------------- recovery

  function ResultTxHash(r: Results): (h: Option<nat>) {
    var h := if r.submission.Some? then r.submission.value.txHash
             else if r.completion.Some? then r.completion.value.txHash
             else if r.signed.Some? then r.signed.value.txHash else 0;
    if P.ValidBytes32(h) then Some(h) else None
  }

  predicate MayBeLive(r: Results) { r.authorized.Some? || r.submission.Some? }

  function SpotSubmissionOf(r: Results): (s: Option<Submission>) {
    var s := if r.submission.Some? then r.submission else r.completion;
    if s.Some? && s.value.requestId != 0 && P.ValidBytes32(s.value.txHash) then s else None
  }

  function RecoverPerp(row: ActionRow): (r: Option<(ActionKind, Payload)>) {
    if row.kind.ReconcilePerp? && row.payload.txHash.Some? && P.ValidBytes32(row.payload.txHash.value)
    then Some((ReconcilePerp, row.payload))
    else if row.kind.SubmitPerp? && MayBeLive(row.results) && ResultTxHash(row.results).Some?
    then Some((ReconcilePerp, NO_PAYLOAD.(txHash := ResultTxHash(row.results))))
    else None
  }

  function RecoverSpotReconciliation(row: ActionRow): (r: Option<(ActionKind, Payload)>) {
    if row.kind.ReconcileSpot? && row.payload.filledBase.Some? && row.payload.filledBase.value > 0
       && row.payload.requestId.Some? && row.payload.requestId.value != 0
    then Some((ReconcileSpot, row.payload)) else None
  }

  function RecoverSpotSubmission(row: ActionRow): (r: Option<(ActionKind, Payload)>) {
    if row.kind.ReconcileSpot? then RecoverSpotReconciliation(row)
    else if !row.kind.SubmitSpot? then None
    else
      var s := SpotSubmissionOf(row.results);
      if s.Some? && row.payload.filledBase.Some? && row.payload.filledBase.value > 0 then
        Some((ReconcileSpot, NO_PAYLOAD.(filledBase := row.payload.filledBase,
                                         requestId := Some(s.value.requestId), txHash := Some(s.value.txHash))))
      else if row.results.request.Some? && row.results.request.value.requestId != 0 then
        Some((SubmitSpot, row.payload.(recoveryRequest := row.results.request)))
      else None
  }

  predicate ValidUnwindPerpPayload(p: Payload) {
    && p.filledBase.Some? && p.filledBase.value > 0
    && p.txHash.Some? && P.ValidBytes32(p.txHash.value)
    && (p.orderIndex.Some? || (p.attempt.Some? && p.attempt.value < 8))
  }

  function RecoverUnwind(row: ActionRow): (r: Option<(ActionKind, Payload)>) {
    match row.kind
    case ReconcileUnwind =>
      if ValidUnwindPerpPayload(row.payload) then Some((ReconcileUnwind, row.payload)) else None
    case UnwindPerp =>
      if !MayBeLive(row.results) || ResultTxHash(row.results).None? then None else
      var p := row.payload.(txHash := ResultTxHash(row.results));
      if ValidUnwindPerpPayload(p) then Some((ReconcileUnwind, p)) else None
    case ReconcileUnwindSpot =>
      if row.payload.spotAmount.Some? && row.payload.spotAmount.value > 0
         && row.payload.requestId.Some? && row.payload.requestId.value != 0
      then Some((ReconcileUnwindSpot, row.payload)) else None
    case UnwindSpot =>
      var s := SpotSubmissionOf(row.results);
      if s.Some? && row.payload.spotAmount.Some? && row.payload.spotAmount.value > 0
         && row.payload.authority.Some?
      then Some((ReconcileUnwindSpot,
                 NO_PAYLOAD.(spotAmount := row.payload.spotAmount, requestId := Some(s.value.requestId),
                             txHash := Some(s.value.txHash), authority := row.payload.authority)))
      else if row.results.request.Some? && row.results.request.value.requestId != 0 then
        Some((UnwindSpot, row.payload.(recoveryRequest := row.results.request)))
      else None
    case _ => None
  }

  // `recovery_successor`
  function RecoverySuccessor(s: S.Saga, row: ActionRow): (r: Option<(ActionKind, Payload)>) {
    match s.state
    case Prechecked | PerpSubmitted | PerpPartial => RecoverPerp(row)
    case PerpFilled => RecoverSpotSubmission(row)
    case SpotSubmitted => RecoverSpotReconciliation(row)
    case Unwinding | Unhedged => RecoverUnwind(row)
    case _ => None
  }

  function RecoveryEvents(s: S.State, k: ActionKind): (r: seq<S.Event>) {
    if s.Prechecked? && k.ReconcilePerp? then [S.Event.PerpSubmitted]
    else if s.Unhedged? && (k.ReconcileUnwind? || k.UnwindSpot? || k.ReconcileUnwindSpot?) then [S.UnwindStarted]
    else []
  }

  datatype RecoveryRequest = RecoveryRequest(intentId: nat, requestedAt: nat, reason: RecoveryReason)

  predicate ValidRecoveryRequest(r: RecoveryRequest, nowMs: nat) {
    && P.ValidBytes32(r.intentId) && !r.reason.UnknownReason?
    && r.requestedAt <= nowMs + 30_000 && nowMs <= r.requestedAt + 30_000
  }

  // A row of the candidate query: an action of the intent that stopped without an answer.
  predicate Stopped(core: Core, i: nat, a: nat) {
    && a in core.actions && core.actions[a].intentId == i
    && (core.actions[a].status.Ambiguous? || core.actions[a].status.FailedSafe?)
  }

  predicate Recoverable(core: Core, i: nat, a: nat)
    requires i in core.intents
  {
    Stopped(core, i, a) && RecoverySuccessor(core.intents[i].saga, core.actions[a]).Some?
  }

  // The first candidate that recovery can resume from.
  function FirstRecoverable(core: Core, i: nat, candidates: seq<nat>): (r: Option<nat>)
    requires i in core.intents
    ensures r.Some? ==> Recoverable(core, i, r.value)
    decreases |candidates|
  {
    if candidates == [] then None
    else if Recoverable(core, i, candidates[0]) then Some(candidates[0])
    else FirstRecoverable(core, i, candidates[1..])
  }

  // `request_recovery`; `candidates` is the intent's stopped actions in the order the query lists them
  function RequestRecovery(db: Db, r: RecoveryRequest, nowMs: nat, candidates: seq<nat>, id: nat): (out: DbResult) {
    var i := r.intentId;
    if !ValidRecoveryRequest(r, nowMs) then DbErr(InvalidAction)
    else if i !in db.core.intents then DbErr(MissingIntent)
    else if HasLive(db.core, i) then DbErr(Conflict)
    else
      match FirstRecoverable(db.core, i, candidates)
      case None => DbErr(InvalidAction)
      case Some(source) =>
        var s := db.core.intents[i].saga;
        var next := RecoverySuccessor(s, db.core.actions[source]).value;
        Lift(db, Resume(db.core, i, RecoveryEvents(s.state, next.0),
                        NextAction(next.0, RecoveryKey(source, next.0, r.requestedAt, r.reason), next.1),
                        id, [], db.now), db.control)
  }
}
