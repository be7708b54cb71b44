/**
 * The pure decisions of coordinator/src/worker.rs: what a worker asks the store to do,
 * given the action it claimed and what it observed.
 */
module WorkerDecisions {
  import opened Common
  import opened CoordinatorTypes
  import opened StoreOps
  import S = Sagas
  import P = PairIntents
  import X = ExitAuthorities
  import V = VenueLogs

  // ---------------------------------------------------------------- payload readers

  function ExitAuthorityOf(c: Claim): (r: Option<X.ExitAuthority>) {
    if c.payload.authority.Some? && X.WorkerAccepts(c.payload.authority.value, c.saga.spot)
    then c.payload.authority else None
  }

  function SubmissionDeadline(c: Claim): (r: nat) {
    match ExitAuthorityOf(c) case None => 0 case Some(a) => a.submissionDeadline
  }

  function UnwindAttempt(c: Claim): (r: Option<nat>) {
    var attempt := c.payload.attempt.Or(c.intent.maxUnwindAttempts);
    if attempt > U16_MAX then None
    else if !c.payload.operatorRecovery && attempt >= c.intent.maxUnwindAttempts then None
    else Some(attempt)
  }

  function UnwindOrderIndex(c: Claim): (r: Option<nat>) {
    match c.payload.orderIndex
    case Some(v) =>
      if v == 0 then None
      else if c.payload.operatorRecovery then Some(v)
      else if UnwindAttempt(c).None? || v != c.intent.unwindOrderIndex + UnwindAttempt(c).value then None
      else Some(v)
    case None =>
      if UnwindAttempt(c).None? || UnwindAttempt(c).value >= c.intent.maxUnwindAttempts then None
      else Some(c.intent.unwindOrderIndex + UnwindAttempt(c).value)
  }

  function Positive(n: Option<nat>): (r: Option<nat>) { if n.Some? && n.value > 0 then n else None }

  // `lighter_request`
  function LighterRequest(c: Claim, nonce: nat): (r: Option<LighterOrder>) {
    if c.kind.SubmitPerp? then
      if c.intent.baseAmount > I64_MAX || c.intent.orderExpiry > I64_MAX then None
      else Some(LighterOrder(c.intent.marketIndex, c.intent.clientOrderIndex, c.intent.baseAmount,
                             c.intent.limitPrice, true, false, nonce, c.intent.orderExpiry))
    else
      if Positive(c.payload.filledBase).None? || UnwindOrderIndex(c).None? || ExitAuthorityOf(c).None?
         || UnwindOrderIndex(c).value > I64_MAX || c.payload.filledBase.value > I64_MAX
         || SubmissionDeadline(c) > I64_MAX
      then None
      else Some(LighterOrder(c.intent.marketIndex, UnwindOrderIndex(c).value, c.payload.filledBase.value,
                             ExitAuthorityOf(c).value.unwindPrice, false, true, nonce, SubmissionDeadline(c)))
  }

  // ---------------------------------------------------------------- successors of a submission

  // Both complete_lighter_submission and continue_lighter_reconciliation queue this action.
  function AfterPerpSubmission(c: Claim, txHash: nat): (r: Option<NextAction>) {
    if c.kind.SubmitPerp? then
      Some(NextAction(ReconcilePerp, ReconcileEntryKey, NO_PAYLOAD.(txHash := Some(txHash))))
    else if UnwindAttempt(c).None? || UnwindOrderIndex(c).None? || c.payload.authority.None? then None
    else if c.payload.filledBase.None? then
      Some(NextAction(ReconcileUnwind, ReconcileUnwindKey(UnwindOrderIndex(c).value),
                      NO_PAYLOAD.(txHash := Some(txHash))))
    else
      Some(NextAction(ReconcileUnwind, ReconcileUnwindKey(UnwindOrderIndex(c).value),
        NO_PAYLOAD.(filledBase := c.payload.filledBase, txHash := Some(txHash), attempt := UnwindAttempt(c),
                    unwoundBefore := Some(c.saga.unwound), authority := c.payload.authority,
                    operatorRecovery := c.payload.operatorRecovery, orderIndex := c.payload.orderIndex)))
  }

  function PerpSubmittedEvent(c: Claim): (r: Option<S.Event>) {
    if c.kind.SubmitPerp? then Some(S.Event.PerpSubmitted) else None
  }

  function AfterSpotSubmission(c: Claim, requestId: nat, txHash: Option<nat>): (r: NextAction) {
    if c.kind.SubmitSpot? then
      NextAction(ReconcileSpot, ReconcileSpotKey,
                 NO_PAYLOAD.(filledBase := c.payload.filledBase, requestId := Some(requestId), txHash := txHash))
    else
      NextAction(ReconcileUnwindSpot, ReconcileUnwindSpotKey,
                 NO_PAYLOAD.(spotAmount := c.payload.spotAmount, requestId := Some(requestId), txHash := txHash,
                             authority := c.payload.authority))
  }

  function EmergencyUnwind(fill: nat): (r: NextAction) {
    NextAction(UnwindPerp, EmergencyPerpKey, NO_PAYLOAD.(filledBase := Some(fill)))
  }

  // ---------------------------------------------------------------- spot requests

  function DivCeil1000(ms: nat): (r: nat) { (ms + 999) / 1000 }

  // The request a spot action's own row determines; None when its amounts cannot be read or hedged.
  function RequestFor(a: nat, k: ActionKind, intent: P.PairIntent, p: Payload): (r: Option<SpotRequest>) {
    var id := if p.recoveryRequest.Some? then p.recoveryRequest.value.requestId else a;
    if k.SubmitSpot? then
      if Positive(p.filledBase).None? then None else
      match P.SpotAmountsForFill(intent, p.filledBase.value)
      case None => None
      case Some(amounts) =>
        Some(SpotRequest(id, intent.id, intent.spotToken, true, amounts.settlementIn, amounts.minimumOut,
                         DivCeil1000(intent.deadline), intent.spotConfigVersion))
    else
      if Positive(p.spotAmount).None? || p.authority.None? then None else
      var authority := p.authority.value;
      if authority.spotIn != p.spotAmount.value || authority.minimumOut == 0 then None
      else Some(SpotRequest(id, intent.spotUnwindId, intent.spotToken, false, p.spotAmount.value, authority.minimumOut,
                            DivCeil1000(authority.submissionDeadline), intent.spotConfigVersion))
  }

  // The request a spot worker must send; a sale needs an authority the worker accepts.
  function ExpectedRequest(c: Claim): (r: Option<SpotRequest>) {
    if !c.kind.SubmitSpot? && ExitAuthorityOf(c).None? then None
    else RequestFor(c.actionId, c.kind, c.intent, c.payload)
  }

  // `persist_robinhood_request` refuses a stored or recovered request that differs.
  predicate RequestAgrees(c: Claim, expected: SpotRequest) {
    && (c.results.request.None? || c.results.request == Some(expected))
    && (c.payload.recoveryRequest.None? || c.payload.recoveryRequest == Some(expected))
  }

  predicate Attempted(c: Claim) { c.results.request.Some? || c.payload.recoveryRequest.Some? }

  // ---------------------------------------------------------------- observations

  datatype Decision =
    | Apply(event: Option<S.Event>, complete: bool, next: Option<NextAction>)
    | Stop(cause: S.Event)
    | Overfill(fill: nat)
    | Poisoned

  // `perp_observation`
  predicate PerpIdentity(c: Claim, o: V.Observation) {
    && o.PerpObservation?
    && (c.kind.ReconcileUnwind? ==> UnwindOrderIndex(c) == Some(o.clientOrderIndex))
    && (c.kind.ReconcilePerp? ==> o.clientOrderIndex == c.intent.clientOrderIndex)
    && o.marketIndex == c.intent.marketIndex
    && o.isAsk == c.kind.ReconcilePerp? && o.reduceOnly == c.kind.ReconcileUnwind?
    && c.payload.txHash == Some(o.txHash)
    && (c.results.orderId.None? || c.results.orderId == Some(o.orderId))
  }

  // `spot_observation`
  predicate SpotIdentity(c: Claim, o: V.Observation) {
    && o.SpotObservation?
    && o.spotIntentId == (if c.kind.ReconcileSpot? then c.intent.id else c.intent.spotUnwindId)
    && o.configVersion == c.intent.spotConfigVersion
  }

  function HedgeFill(fill: nat): (r: Decision) {
    Apply(Some(S.Event.PerpFilled(fill)), true,
          Some(NextAction(SubmitSpot, HedgeSpotKey, NO_PAYLOAD.(filledBase := Some(fill)))))
  }

  function DecidePerp(c: Claim, kind: V.VenueKind, o: V.Observation): (r: Decision) {
    if !PerpIdentity(c, o) then Stop(S.SafeFailure) else
    var fill := o.filledBase;
    match kind
    case PerpAccepted => Apply(None, false, None)
    case PerpPartial =>
      if !P.FillWithinCap(c.intent, o.averagePrice, fill) then Overfill(fill)
      else if fill < c.saga.filled then Stop(S.SafeFailure)
      else Apply(if fill > c.saga.filled then Some(S.PerpPartiallyFilled(fill)) else None, false, None)
    case PerpFilled =>
      if !P.FillWithinCap(c.intent, o.averagePrice, fill) then Overfill(fill)
      else if fill < c.saga.filled then Stop(S.SafeFailure)
      else HedgeFill(fill)
    case PerpRejected =>
      if fill > 0 && !P.FillWithinCap(c.intent, o.averagePrice, fill) then Overfill(fill)
      else if fill < c.saga.filled then Stop(S.SafeFailure)
      else if fill == 0 then Apply(Some(S.PerpRejected), true, None)
      else HedgeFill(fill)
    case _ => Stop(S.SafeFailure)
  }

  function DecideSpot(c: Claim, kind: V.VenueKind, o: V.Observation): (r: Decision) {
    if Positive(c.payload.filledBase).None? then Poisoned else
    var fill := c.payload.filledBase.value;
    match P.SpotAmountsForFill(c.intent, fill)
    case None => Poisoned
    case Some(amounts) =>
      if !SpotIdentity(c, o) then Stop(S.SafeFailure) else
      match kind
      case SpotConfirmed =>
        if o.amountIn == amounts.settlementIn && o.amountOut == amounts.target
        then Apply(Some(S.SpotConfirmed(o.amountOut)), true, None)
        else Apply(Some(S.SpotMismatched(o.amountOut)), true, Some(EmergencyUnwind(fill)))
      case SpotRejected => Apply(Some(S.SpotRejected), true, Some(EmergencyUnwind(fill)))
      case _ => Stop(S.SafeFailure)
  }

  function DecideUnwind(c: Claim, kind: V.VenueKind, o: V.Observation, now: nat): (r: Decision) {
    if Positive(c.payload.filledBase).None? || UnwindAttempt(c).None? then Poisoned
    else if !PerpIdentity(c, o) then Stop(S.PerpUnwindFailed(c.saga.unwound))
    else
      var s, attempt := c.saga, UnwindAttempt(c).value;
      var total := c.payload.unwoundBefore.Or(0) + o.filledBase;
      if total > U64_MAX then Poisoned
      else if o.filledBase > c.payload.filledBase.value || total > s.filled || total < s.unwound
      then Stop(S.Event.Unhedged)
      else
        match kind
        case UnwindAccepted => Apply(None, false, None)
        case UnwindPartial =>
          Apply(if s.unwound < total < s.filled then Some(S.PerpUnwindProgress(total)) else None, false, None)
        case UnwindFilled | UnwindRejected =>
          if total == s.filled then
            Apply(Some(S.PerpUnwindCompleted(total)), true,
                  if s.spot > 0 then
                    Some(NextAction(UnwindSpot, EmergencySpotKey,
                                    NO_PAYLOAD.(spotAmount := Some(s.spot), authority := c.payload.authority)))
                  else None)
          else if attempt + 1 < c.intent.maxUnwindAttempts && now <= SubmissionDeadline(c) then
            Apply(if total > s.unwound then Some(S.PerpUnwindProgress(total)) else None, true,
                  Some(NextAction(UnwindPerp, EmergencyPerpRetryKey(attempt + 1),
                    NO_PAYLOAD.(filledBase := Some(s.filled - total), attempt := Some(attempt + 1),
                                unwoundBefore := Some(total), authority := c.payload.authority))))
          else Stop(S.PerpUnwindFailed(total))
        case _ => Stop(S.Event.Unhedged)
  }

  function DecideUnwindSpot(c: Claim, kind: V.VenueKind, o: V.Observation): (r: Decision) {
    if ExpectedRequest(c).None? then Poisoned
    else if !SpotIdentity(c, o) then Stop(S.Event.Unhedged)
    else
      match kind
      case SpotUnwindConfirmed =>
        if o.amountIn == c.payload.spotAmount.Or(0) && o.amountOut >= ExpectedRequest(c).value.minimumOut
        then Apply(Some(S.Event.Closed), true, None)
        else Stop(S.Event.Unhedged)
      case _ => Stop(S.Event.Unhedged)
  }

  function Decide(c: Claim, kind: V.VenueKind, o: V.Observation, now: nat): (r: Decision) {
    match c.kind
    case ReconcilePerp => DecidePerp(c, kind, o)
    case ReconcileSpot => DecideSpot(c, kind, o)
    case ReconcileUnwind => DecideUnwind(c, kind, o, now)
    case ReconcileUnwindSpot => DecideUnwindSpot(c, kind, o)
    case _ => Poisoned
  }
}
