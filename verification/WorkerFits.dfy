/**
 * What a worker asks the store to do fits the row and the saga it holds: the saga accepts
 * the event, and the successor suits the state the event leads to.
 */
module WorkerFits {
  import opened Common
  import opened CoordinatorTypes
  import opened StoreOps
  import opened WorkerDecisions
  import opened CoreInvariants
  import opened CoreMoves
  import S = Sagas
  import P = PairIntents
  import V = VenueLogs

  // A leaseholder's snapshot agrees with the live row and the saga it claimed.
  predicate Held(row: ActionRow, irow: IntentRow, c: Claim) {
    && row.Live() && ActionOk(row, irow) && LiveOk(row, irow.saga) && SagaOk(irow.saga)
    && c.kind == row.kind && c.payload == row.payload && c.saga == irow.saga && c.intent == irow.intent
  }

  // ---------------------------------------------------------------- submissions

  lemma EntrySubmissionFits(row: ActionRow, irow: IntentRow, c: Claim, hash: nat, after: ActionRow)
    requires Held(row, irow, c) && c.kind.SubmitPerp? && AfterPerpSubmission(c, hash).Some?
    requires after == row.(status := after.status, results := row.results.(completion := after.results.completion))
    requires after.status.Succeeded? || (after.status.Ambiguous? && after.results == row.results)
    ensures HandsOver(row, irow, after, PerpSubmittedEvent(c), AfterPerpSubmission(c, hash))
  {
  }

  lemma UnwindSubmissionFits(row: ActionRow, irow: IntentRow, c: Claim, hash: nat, after: ActionRow)
    requires Held(row, irow, c) && c.kind.UnwindPerp? && AfterPerpSubmission(c, hash).Some?
    requires after == row.(status := after.status, results := row.results.(completion := after.results.completion))
    requires after.status.Succeeded? || (after.status.Ambiguous? && after.results == row.results)
    ensures HandsOver(row, irow, after, PerpSubmittedEvent(c), AfterPerpSubmission(c, hash))
    ensures var p := AfterPerpSubmission(c, hash).value.payload;
            && p.txHash == Some(hash) && p.filledBase == row.payload.filledBase && p.orderIndex == row.payload.orderIndex
            && p.authority == row.payload.authority && p.operatorRecovery == row.payload.operatorRecovery
            && p.unwoundBefore.Or(0) == row.payload.unwoundBefore.Or(0)
  {
  }

  lemma SpotSubmissionFits(row: ActionRow, irow: IntentRow, c: Claim, requestId: nat, hash: Option<nat>, after: ActionRow)
    requires Held(row, irow, c) && (c.kind.SubmitSpot? || c.kind.UnwindSpot?)
    requires c.kind.SubmitSpot? ==> P.SpotAmountsForFill(c.intent, c.saga.filled).Some?
    requires after == row.(status := after.status, results := row.results.(completion := after.results.completion))
    requires after.status.Succeeded?
             || (after.status.Ambiguous? && after.results == row.results
                 && (c.kind.SubmitSpot? ==> row.results.submission.None?))
    ensures HandsOver(row, irow, after, if c.kind.SubmitSpot? then Some(S.Event.SpotSubmitted) else None,
                      Some(AfterSpotSubmission(c, requestId, hash)))
  {
  }

  lemma EmergencyFits(row: ActionRow, irow: IntentRow, c: Claim, after: ActionRow)
    requires Held(row, irow, c) && c.kind.SubmitSpot?
    requires after == row.(status := Succeeded, results := row.results.(completion := None))
    ensures c.payload.filledBase.Some?
    ensures HandsOver(row, irow, after, Some(S.UnwindStarted), Some(EmergencyUnwind(c.payload.filledBase.value)))
  {
  }

  // ---------------------------------------------------------------- stops

  lemma RejectionFits(row: ActionRow, irow: IntentRow, c: Claim, e: S.Event)
    requires Held(row, irow, c) && c.kind.SubmitPerp? && Unsendable(row.results)
    requires e == S.Event.Cancelled || e == S.Event.Expired
    ensures HandsOver(row, irow, row.(status := Rejected), Some(e), None)
  {
  }

  predicate StopEvent(c: Claim, e: Option<S.Event>) {
    match e
    case None => true
    case Some(SafeFailure) => true
    case Some(Unhedged) =>
      c.kind.UnwindPerp? || c.kind.ReconcileUnwind? || c.kind.UnwindSpot? || c.kind.ReconcileUnwindSpot?
    case Some(PerpUnwindFailed(u)) =>
      c.kind.ReconcileUnwind? && c.saga.unwound <= u <= c.saga.filled && (u == c.saga.filled ==> u == c.saga.unwound)
    case _ => false
  }

  lemma FailureFits(row: ActionRow, irow: IntentRow, c: Claim, e: Option<S.Event>)
    requires Held(row, irow, c) && StopEvent(c, e)
    requires c.kind.SubmitSpot? ==> row.results.submission.None?
    ensures HandsOver(row, irow, row.(status := FailedSafe), e, None)
  {
  }

  // ---------------------------------------------------------------- observations

  function Applied(row: ActionRow, complete: bool, orderId: Option<nat>, at: nat): (r: ActionRow) {
    row.(status := if complete then Succeeded else Pending, results := NO_RESULTS.(orderId := orderId), availableAt := at)
  }

  /** Entry observations: the saga accepts every event the worker derives, and the hedge it queues fits. */
  lemma EntryObservationFits(row: ActionRow, irow: IntentRow, c: Claim, k: V.VenueKind, o: V.Observation,
                             orderId: Option<nat>, at: nat)
    requires Held(row, irow, c) && c.kind.ReconcilePerp? && DecidePerp(c, k, o).Apply?
    ensures var d := DecidePerp(c, k, o);
            HandsOver(row, irow, Applied(row, d.complete, orderId, at), d.event, d.next)
  {
  }

  /** Spot observations: the target must arrive exactly, anything else starts an emergency unwind. */
  lemma SpotObservationFits(row: ActionRow, irow: IntentRow, c: Claim, k: V.VenueKind, o: V.Observation,
                            orderId: Option<nat>, at: nat)
    requires Held(row, irow, c) && c.kind.ReconcileSpot? && DecideSpot(c, k, o).Apply? && V.ValidPayload(k, o)
    ensures var d := DecideSpot(c, k, o);
            HandsOver(row, irow, Applied(row, d.complete, orderId, at), d.event, d.next)
    ensures P.SpotAmountsForFill(irow.intent, irow.saga.filled).Some?
    ensures var d, exact := DecideSpot(c, k, o), P.SpotAmountsForFill(irow.intent, irow.saga.filled).value;
            if k.SpotConfirmed? && o.amountIn == exact.settlementIn && o.amountOut == exact.target
            then Moved(irow, d.event).saga.state.Hedged? && d.next.None?
            else Moved(irow, d.event).saga.state.Unwinding? && d.next == Some(EmergencyUnwind(irow.saga.filled))
  {
  }

  /** Unwind observations: progress, completion or a further attempt for exactly what is left. */
  lemma UnwindObservationFits(row: ActionRow, irow: IntentRow, c: Claim, k: V.VenueKind, o: V.Observation, now: nat,
                              orderId: Option<nat>, at: nat)
    requires Held(row, irow, c) && c.kind.ReconcileUnwind? && DecideUnwind(c, k, o, now).Apply?
    ensures var d := DecideUnwind(c, k, o, now);
            HandsOver(row, irow, Applied(row, d.complete, orderId, at), d.event, d.next)
  {
  }

  lemma SaleObservationFits(row: ActionRow, irow: IntentRow, c: Claim, k: V.VenueKind, o: V.Observation,
                            orderId: Option<nat>, at: nat)
    requires Held(row, irow, c) && c.kind.ReconcileUnwindSpot? && DecideUnwindSpot(c, k, o).Apply?
    ensures var d := DecideUnwindSpot(c, k, o);
            && HandsOver(row, irow, Applied(row, d.complete, orderId, at), d.event, d.next)
            && d == Apply(Some(S.Event.Closed), true, None)
            && k.SpotUnwindConfirmed? && o.SpotObservation? && o.spotIntentId == c.intent.spotUnwindId
            && o.amountIn == irow.saga.spot && o.amountOut >= row.payload.authority.value.minimumOut
  {
  }

  lemma OverfillFits(row: ActionRow, irow: IntentRow, c: Claim, fill: nat, at: nat)
    requires Held(row, irow, c) && c.kind.ReconcilePerp? && fill > c.saga.filled
    ensures HandsOver(row, irow, Applied(row, true, None, at), Some(S.PerpOverfilled(fill)), Some(EmergencyUnwind(fill)))
  {
  }

  lemma EntryStops(row: ActionRow, irow: IntentRow, c: Claim, k: V.VenueKind, o: V.Observation)
    requires Held(row, irow, c) && c.kind.ReconcilePerp? && DecidePerp(c, k, o).Stop?
    ensures StopEvent(c, Some(DecidePerp(c, k, o).cause))
  {
  }

  lemma SpotStops(row: ActionRow, irow: IntentRow, c: Claim, k: V.VenueKind, o: V.Observation)
    requires Held(row, irow, c) && c.kind.ReconcileSpot? && DecideSpot(c, k, o).Stop?
    ensures StopEvent(c, Some(DecideSpot(c, k, o).cause))
  {
  }

  lemma UnwindStops(row: ActionRow, irow: IntentRow, c: Claim, k: V.VenueKind, o: V.Observation, now: nat)
    requires Held(row, irow, c) && c.kind.ReconcileUnwind? && DecideUnwind(c, k, o, now).Stop?
    ensures StopEvent(c, Some(DecideUnwind(c, k, o, now).cause))
  {
  }

  lemma SaleStops(row: ActionRow, irow: IntentRow, c: Claim, k: V.VenueKind, o: V.Observation)
    requires Held(row, irow, c) && c.kind.ReconcileUnwindSpot? && DecideUnwindSpot(c, k, o).Stop?
    ensures StopEvent(c, Some(DecideUnwindSpot(c, k, o).cause))
  {
  }

  /** Every stop a reconciling worker decides on is one the saga accepts. */
  lemma DecidedStops(row: ActionRow, irow: IntentRow, c: Claim, k: V.VenueKind, o: V.Observation, now: nat)
    requires Held(row, irow, c) && Decide(c, k, o, now).Stop?
    ensures StopEvent(c, Some(Decide(c, k, o, now).cause)) && !c.kind.SubmitSpot?
    ensures S.Apply(c.saga, Decide(c, k, o, now).cause).Accepted?
  {
    match c.kind {
      case ReconcilePerp => EntryStops(row, irow, c, k, o);
      case ReconcileSpot => SpotStops(row, irow, c, k, o);
      case ReconcileUnwind => UnwindStops(row, irow, c, k, o, now);
      case ReconcileUnwindSpot => SaleStops(row, irow, c, k, o);
      case _ =>
    }
    FailureFits(row, irow, c, Some(Decide(c, k, o, now).cause));
  }
}
