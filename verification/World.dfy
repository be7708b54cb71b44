/**
 * The coordinator as a state machine: one database, any number of worker runs that each
 * hold a claim snapshot and stop at every await, and the outside world.  A run that never
 * steps again has crashed; one that steps late has stalled.
 */
module Worlds {
  import opened Common
  import opened CoordinatorTypes
  import opened StoreOps
  import opened WorkerDecisions
  import S = Sagas
  import P = PairIntents
  import X = ExitAuthorities
  import V = VenueLogs

  // Where a run stands between two awaits.
  datatype Pc =
    | Start
    | Bound                          // exit authority looked up, only the retry is left
    | NonceAssigned(nonce: nat)
    | HaveSigned(tx: SignedTx)       // the signed transaction is durable
    | Cleared(tx: SignedTx)          // its nonce scope was validated
    | SendRefused(tx: SignedTx)
    | MaySend(tx: SignedTx)          // the send is durably authorized
    | CannotEncode(tx: SignedTx)
    | Unclear(tx: SignedTx)          // broadcast, outcome unknown
    | Accepted(s: Submission)        // accepted outside, not yet recorded
    | Recorded(s: Submission)
    | MustUnwind
    | HaltedToUnwind
    | SpotCleared
    | SpotSendRefused
    | Requested(request: SpotRequest)
    | Chosen(event: nat)
    | OverfillHalted(event: nat, fill: nat)
    | Retrying
    | Poison
    | Done

  datatype Run = Run(claim: Claim, pc: Pc)

  // One entry authorization: how many halts were committed at its claim and at the authorization.
  datatype EntryAuthorization = EntryAuthorization(actionId: nat, token: nat, haltsAtClaim: nat, haltsAtSend: nat)

  datatype World = World(
    db: Db, runs: map<nat, Run>,
    sent: seq<(nat, SignedTx)>,        // every order handed to Lighter, with its action
    handed: seq<(nat, SpotRequest)>,   // every spot request handed to the Robinhood signer, with its action
    entryAuthorizations: set<EntryAuthorization>)

  datatype SignerReply = SignedBy(txHash: nat, encodable: bool) | SignerBusy | SignerRefused
  datatype SpotReply = SpotAccepted(txHash: nat) | SpotConflict | SpotRefused | SpotBusy

  // Everything a step may learn from outside: clocks, signers, venues, fresh identifiers.
  datatype Env = Env(
    now: nat, newId: nat, draws: seq<nat>, delay: nat, scope: Scope, observed: Option<nat>,
    signer: SignerReply, acknowledged: bool, spot: SpotReply, quote: Option<X.ExitQuote>,
    event: Option<nat>, overdue: bool)

  // ---------------------------------------------------------------- one await of one run

  function Goto(w: World, t: nat, pc: Pc): (r: World)
    requires t in w.runs
  {
    w.(runs := w.runs[t := w.runs[t].(pc := pc)])
  }

  function FailPc(e: StoreError): (pc: Pc) { if IsPoison(e) then Poison else Done }

  function Commit(w: World, t: nat, result: DbResult, pc: Pc): (r: World)
    requires t in w.runs
  {
    match result
    case DbOk(db) => Goto(w.(db := db), t, pc)
    case DbErr(e) => Goto(w, t, FailPc(e))
  }

  function HaltAnd(w: World, t: nat, pc: Pc): (r: World)
    requires t in w.runs
  {
    Goto(w.(db := w.db.(control := Halt(w.db.control))), t, pc)
  }

  function Retry(w: World, t: nat, env: Env): (r: World)
    requires t in w.runs
  {
    var c := w.runs[t].claim;
    Commit(w, t, RescheduleAction(w.db, c.actionId, c.worker, c.token, env.delay), Done)
  }

  function StopRun(w: World, t: nat, stop: ActionStop, event: Option<S.Event>): (r: World)
    requires t in w.runs
  {
    var c := w.runs[t].claim;
    Commit(w, t, StopAction(w.db, c.actionId, c.worker, c.token, stop, event), Done)
  }

  function CompletePerp(w: World, t: nat, s: Submission, env: Env): (r: World)
    requires t in w.runs
  {
    var c := w.runs[t].claim;
    match AfterPerpSubmission(c, s.txHash)
    case None => Goto(w, t, Poison)
    case Some(next) =>
      Commit(w, t, CompleteAction(w.db, c.actionId, c.worker, c.token, PerpSubmittedEvent(c), Some(s), Some(next),
                                  env.newId, []), Done)
  }

  function ContinuePerp(w: World, t: nat, txHash: nat, env: Env): (r: World)
    requires t in w.runs
  {
    var c := w.runs[t].claim;
    match AfterPerpSubmission(c, txHash)
    case None => Goto(w, t, Poison)
    case Some(next) =>
      Commit(w, t, ContinueAmbiguous(w.db, c.actionId, c.worker, c.token, PerpSubmittedEvent(c), next, env.newId), Done)
  }

  function CompleteSpot(w: World, t: nat, s: Submission, env: Env): (r: World)
    requires t in w.runs
  {
    var c := w.runs[t].claim;
    var event := if c.kind.SubmitSpot? && !c.saga.state.SpotSubmitted? then Some(S.Event.SpotSubmitted) else None;
    if c.kind.SubmitSpot?
       && !(c.saga.state.PerpPartial? || c.saga.state.PerpFilled? || c.saga.state.SpotSubmitted?)
    then Goto(w, t, Poison)
    else Commit(w, t, CompleteAction(w.db, c.actionId, c.worker, c.token, event, Some(s),
                                     Some(AfterSpotSubmission(c, s.requestId, Some(s.txHash))), env.newId, []), Done)
  }

  // submit_perp, from its start to the point where it holds a signed transaction or a nonce
  function PerpStart(w: World, t: nat, env: Env): (r: World)
    requires t in w.runs
  {
    var c := w.runs[t].claim;
    var unwind := c.kind.UnwindPerp?;
    var live := c.results.authorized.Some? && c.results.signed.Some?;
    if c.results.submission.Some? then CompletePerp(w, t, c.results.submission.value, env)
    else if unwind && ExitAuthorityOf(c).None? then
      if env.now > c.intent.emergencyDeadline then StopRun(w, t, StopFailedSafe, None)
      else Commit(w, t, BindExitAuthority(w.db, c.actionId, c.worker, c.token, env.now, env.quote), Bound)
    else if unwind && env.now > SubmissionDeadline(c) then
      if live then ContinuePerp(w, t, c.results.signed.value.txHash, env)
      else StopRun(w, t, StopFailedSafe, Some(S.Event.Unhedged))
    else if !unwind && env.now > c.intent.deadline then
      if live then ContinuePerp(w, t, c.results.signed.value.txHash, env)
      else StopRun(w, t, StopRejected, Some(S.Event.Expired))
    else if c.results.signed.Some? then Goto(w, t, HaveSigned(c.results.signed.value))
    else if env.observed.None? then Retry(w, t, env)
    else
      match AssignLighterNonce(w.db, c.actionId, c.worker, c.token, env.scope, env.observed.value)
      case NonceOk(db, nonce) => Goto(w.(db := db), t, NonceAssigned(nonce))
      case NonceDrift(db) => Goto(w.(db := db), t, Done)
      case NonceErr(e) => Goto(w, t, FailPc(e))
  }

  function PerpSign(w: World, t: nat, nonce: nat, env: Env): (r: World)
    requires t in w.runs
  {
    var c := w.runs[t].claim;
    match LighterRequest(c, nonce)
    case None => Goto(w, t, Poison)
    case Some(order) =>
      match env.signer
      case SignedBy(hash, encodable) =>
        var tx := SignedTx(hash, order, encodable);
        Commit(w, t, RecordSigned(w.db, c.actionId, c.worker, c.token, tx), HaveSigned(tx))
      case SignerBusy => Retry(w, t, env)
      case SignerRefused =>
        if c.kind.UnwindPerp? then StopRun(w, t, StopFailedSafe, Some(S.Event.Unhedged))
        else StopRun(w, t, StopRejected, Some(S.Event.Cancelled))
  }

  function PerpAuthorize(w: World, t: nat, tx: SignedTx, env: Env): (r: World)
    requires t in w.runs
  {
    var c := w.runs[t].claim;
    var result := if c.kind.UnwindPerp?
                  then AuthorizeUnwindSend(w.db, c.actionId, c.worker, c.token, env.now, env.quote)
                  else AuthorizeEntrySend(w.db, c.actionId, c.worker, c.token, c.controlVersion);
    match result
    case DbOk(db) =>
      var granted := if c.kind.UnwindPerp? then {}
                     else {EntryAuthorization(c.actionId, t, c.haltsAtClaim, w.db.control.halts)};
      Goto(w.(db := db, entryAuthorizations := w.entryAuthorizations + granted), t, MaySend(tx))
    case DbErr(e) =>
      if (c.kind.UnwindPerp? && e.MarketAuthorityUnavailable?) || (c.kind.SubmitPerp? && e.CoordinatorHalted?)
      then Goto(w, t, SendRefused(tx)) else Goto(w, t, FailPc(e))
  }

  function PerpBroadcast(w: World, t: nat, tx: SignedTx, env: Env): (r: World)
    requires t in w.runs
  {
    if !tx.encodable then Goto(w, t, CannotEncode(tx))
    else Goto(w.(sent := w.sent + [(w.runs[t].claim.actionId, tx)]), t,
              if env.acknowledged then Accepted(Submission(0, tx.txHash)) else Unclear(tx))
  }

  // Giving up on a send: an entry is rejected, an unwind fails safe.
  function PerpGiveUp(w: World, t: nat, tx: SignedTx, refused: bool, env: Env): (r: World)
    requires t in w.runs
  {
    var c := w.runs[t].claim;
    if refused && c.results.authorized.Some? then ContinuePerp(w, t, tx.txHash, env)
    else if c.kind.UnwindPerp? then
      StopRun(w, t, StopFailedSafe, if refused then None else Some(S.Event.Unhedged))
    else StopRun(w, t, StopRejected, Some(S.Event.Cancelled))
  }

  function SpotStart(w: World, t: nat, env: Env): (r: World)
    requires t in w.runs
  {
    var c := w.runs[t].claim;
    if Positive(c.payload.filledBase).None? then Goto(w, t, Poison)
    else if c.results.submission.Some? then CompleteSpot(w, t, c.results.submission.value, env)
    else if env.now > c.intent.deadline && !Attempted(c) then Goto(w, t, MustUnwind)
    else if P.SpotAmountsForFill(c.intent, c.payload.filledBase.value).None? then Goto(w, t, MustUnwind)
    else PersistRequest(w, t)
  }

  function PersistRequest(w: World, t: nat): (r: World)
    requires t in w.runs
  {
    var c := w.runs[t].claim;
    match ExpectedRequest(c)
    case None => Goto(w, t, Poison)
    case Some(expected) =>
      if !RequestAgrees(c, expected) then Goto(w, t, Poison)
      else if c.results.request.Some? then Goto(w, t, Requested(expected))
      else Commit(w, t, RecordRequest(w.db, c.actionId, c.worker, c.token, expected), Requested(expected))
  }

  function HandOver(w: World, t: nat, request: SpotRequest): (r: World)
    requires t in w.runs
  {
    w.(handed := w.handed + [(w.runs[t].claim.actionId, request)])
  }

  // What the signer's answer to the request makes of the run
  function SpotAnswered(w: World, t: nat, request: SpotRequest, env: Env): (r: World)
    requires t in w.runs
  {
    var c := w.runs[t].claim;
    match env.spot
    case SpotAccepted(hash) => Goto(w, t, Accepted(Submission(request.requestId, hash)))
    case SpotConflict =>
      Commit(w, t, ContinueAmbiguous(w.db, c.actionId, c.worker, c.token,
                                     if c.kind.SubmitSpot? then Some(S.Event.SpotSubmitted) else None,
                                     AfterSpotSubmission(c, request.requestId, None), env.newId), Done)
    case SpotRefused =>
      if c.kind.SubmitSpot? then Goto(w, t, MustUnwind)
      else StopRun(w, t, StopFailedSafe, Some(S.Event.Unhedged))
    case SpotBusy => Retry(w, t, env)
  }

  // The second half of schedule_unwind, after its halt
  function ScheduleUnwind(w: World, t: nat, env: Env): (r: World)
    requires t in w.runs
  {
    var c := w.runs[t].claim;
    if c.payload.filledBase.None? then Goto(w, t, Poison)
    else Commit(w, t, CompleteAction(w.db, c.actionId, c.worker, c.token, Some(S.UnwindStarted), None,
                                     Some(EmergencyUnwind(c.payload.filledBase.value)), env.newId, env.draws), Done)
  }

  function UnwindSpotStart(w: World, t: nat, env: Env): (r: World)
    requires t in w.runs
  {
    var c := w.runs[t].claim;
    if Positive(c.payload.spotAmount).None? then Goto(w, t, Poison)
    else if c.results.submission.Some? then CompleteSpot(w, t, c.results.submission.value, env)
    else if Attempted(c) || c.results.authorized.Some? then Goto(w, t, SpotCleared)
    else if env.now > SubmissionDeadline(c) then StopRun(w, t, StopFailedSafe, Some(S.Event.Unhedged))
    else
      match AuthorizeUnwindSend(w.db, c.actionId, c.worker, c.token, env.now, env.quote)
      case DbOk(db) => Goto(w.(db := db), t, SpotCleared)
      case DbErr(e) => Goto(w, t, if e.MarketAuthorityUnavailable? then SpotSendRefused else FailPc(e))
  }

  // One pass of the search in next_venue_event over the candidate `env.event`
  function ReconcileStart(w: World, t: nat, env: Env): (r: World)
    requires t in w.runs
  {
    var c := w.runs[t].claim;
    var venue := w.db.venue;
    match env.event
    case None => if env.overdue then HaltAnd(w, t, Retrying) else Retry(w, t, env)
    case Some(e) =>
      if e !in venue.events || venue.events[e].intentId != c.intent.id || !KindListens(c.kind, venue.events[e].kind)
      then w
      else if e in venue.routes && venue.routes[e] == V.Matched(c.actionId) && e !in venue.applied
      then Goto(w, t, Chosen(e))
      else if !V.Candidate(venue, e) then w
      else if PayloadMatches(c.kind, c.intent, c.payload, c.results, venue.events[e].observation)
      then Goto(w.(db := w.db.(venue := V.AddRoute(venue, e, V.Matched(c.actionId)))), t, Chosen(e))
      else w.(db := w.db.(venue := V.AddRoute(venue, e, V.Quarantined(V.Mismatch))))
  }

  function ReconcileChosen(w: World, t: nat, e: nat, env: Env): (r: World)
    requires t in w.runs
  {
    var c := w.runs[t].claim;
    if e !in w.db.venue.events then w else
    var event := w.db.venue.events[e];
    match Decide(c, event.kind, event.observation, env.now)
    case Apply(saga, complete, next) =>
      var orderId := if event.observation.PerpObservation? then Some(event.observation.orderId) else None;
      Commit(w, t, ApplyVenueEvent(w.db, c.actionId, c.worker, c.token, e, saga, complete, orderId, next,
                                   env.newId, env.draws), Done)
    case Stop(cause) => StopRun(w, t, StopFailedSafe, Some(cause))
    case Overfill(fill) => HaltAnd(w, t, OverfillHalted(e, fill))
    case Poisoned => Goto(w, t, Poison)
  }

  function ApplyOverfill(w: World, t: nat, e: nat, fill: nat, env: Env): (r: World)
    requires t in w.runs
  {
    var c := w.runs[t].claim;
    Commit(w, t, ApplyVenueEvent(w.db, c.actionId, c.worker, c.token, e, Some(S.PerpOverfilled(fill)), true, None,
                                 Some(EmergencyUnwind(fill)), env.newId, env.draws), Done)
  }

  function Work(w: World, t: nat, env: Env): (r: World) {
    if t !in w.runs then w else
    var c := w.runs[t].claim;
    match w.runs[t].pc
    case Start =>
      (match c.kind
       case SubmitPerp | UnwindPerp => PerpStart(w, t, env)
       case SubmitSpot => SpotStart(w, t, env)
       case UnwindSpot => UnwindSpotStart(w, t, env)
       case _ => ReconcileStart(w, t, env))
    case NonceAssigned(nonce) => PerpSign(w, t, nonce, env)
    case HaveSigned(tx) =>
      if ScopeDrifted(w.db, c.actionId, env.scope) then HaltAnd(w, t, Retrying) else Goto(w, t, Cleared(tx))
    case Cleared(tx) => PerpAuthorize(w, t, tx, env)
    case SendRefused(tx) => PerpGiveUp(w, t, tx, true, env)
    case MaySend(tx) => PerpBroadcast(w, t, tx, env)
    case CannotEncode(tx) => PerpGiveUp(w, t, tx, false, env)
    case Unclear(tx) => ContinuePerp(w, t, tx.txHash, env)
    case Accepted(s) => Commit(w, t, RecordSubmission(w.db, c.actionId, c.worker, c.token, s), Recorded(s))
    case Recorded(s) => if OrderKind(c.kind) then CompletePerp(w, t, s, env) else CompleteSpot(w, t, s, env)
    case MustUnwind => HaltAnd(w, t, HaltedToUnwind)
    case HaltedToUnwind => ScheduleUnwind(w, t, env)
    case SpotCleared => PersistRequest(w, t)
    case SpotSendRefused => StopRun(w, t, StopFailedSafe, None)
    case Requested(request) => SpotAnswered(HandOver(w, t, request), t, request, env)
    case Chosen(e) => ReconcileChosen(w, t, e, env)
    case OverfillHalted(e, fill) => ApplyOverfill(w, t, e, fill, env)
    case Bound | Retrying => Retry(w, t, env)
    case Poison => Commit(w, t, FailSafeAction(w.db, c.actionId, c.worker, c.token), Done)
    case Done => w
  }

  // ---------------------------------------------------------------- the world's steps

  datatype Step =
    | Tick(delta: nat)
    | SetMode(mode: Mode, version: nat)          // an operator's reviewed update of execution_control
    | HaltNow
    | Create(intent: P.PairIntent, nowMs: nat, admitted: bool, id: nat)
    | Exit(request: ExitRequest, nowMs: nat, quote: Option<X.ExitQuote>, id: nat, draws: seq<nat>)
    | Recover(recovery: RecoveryRequest, nowMs: nat, candidates: seq<nat>, id: nat)
    | RecordEvent(event: V.VenueEvent, id: nat)
    | TakeLease(actionId: nat, worker: nat, token: nat, leaseFor: nat)
    | WorkOn(token: nat, env: Env)

  function OrKeep(w: World, r: DbResult): (out: World) {
    match r case DbOk(db) => w.(db := db) case DbErr(_) => w
  }

  function Next(w: World, s: Step): (r: World) {
    match s
    case Tick(d) => w.(db := w.db.(now := w.db.now + d))
    case SetMode(mode, version) =>
      if version < w.db.control.version then w
      else w.(db := w.db.(control := w.db.control.(mode := mode, version := version)))
    case HaltNow => w.(db := w.db.(control := Halt(w.db.control)))
    case Create(intent, nowMs, admitted, id) => OrKeep(w, CreateIntent(w.db, intent, nowMs, admitted, id))
    case Exit(request, nowMs, quote, id, draws) => OrKeep(w, RequestExit(w.db, request, nowMs, quote, id, draws))
    case Recover(r, nowMs, candidates, id) => OrKeep(w, RequestRecovery(w.db, r, nowMs, candidates, id))
    case RecordEvent(event, id) =>
      if !V.ValidEvent(event) || event.intentId !in w.db.core.intents || id in w.db.venue.events then w else
      var recorded := V.Record(w.db.venue, event, id);
      w.(db := w.db.(venue := recorded.0,
                     control := if recorded.1.Conflict? then Halt(w.db.control) else w.db.control))
    case TakeLease(a, worker, token, leaseFor) =>
      if token in w.runs then w else
      (match ClaimAction(w.db, a, worker, token, leaseFor)
       case None => w
       case Some(claimed) => w.(db := claimed.0, runs := w.runs[token := Run(claimed.1, Start)]))
    case WorkOn(token, env) => Work(w, token, env)
  }

  // What the outside guarantees of a step: quotes satisfy their column checks.
  predicate Admissible(s: Step) {
    && (s.Exit? && s.quote.Some? ==> X.ValidQuote(s.quote.value))
    && (s.WorkOn? && s.env.quote.Some? ==> X.ValidQuote(s.env.quote.value))
  }

  // The migrated, empty, halted deployment.
  const INITIAL: World :=
    World(Db(0, Control(Halted, 0, 0), Core(map[], map[], map[], map[], map[]), V.EMPTY, NonceTable(map[], map[])),
          map[], [], [], {})

  function After(steps: seq<Step>): (w: World)
    decreases |steps|
  {
    if steps == [] then INITIAL else Next(After(steps[..|steps|-1]), steps[|steps|-1])
  }
}
