/** Every await of a worker run keeps the world invariant. */
module WorkSteps {
  import opened Common
  import opened CoordinatorTypes
  import opened StoreOps
  import opened WorkerDecisions
  import opened Worlds
  import opened CoreInvariants
  import opened CoreSteps
  import opened CoreMoves
  import opened WorkerFits
  import opened WorldInvariants
  import opened WorldSteps
  import S = Sagas
  import P = PairIntents

  // The live row and the intent's row a current leaseholder works on.
  function RowOf(w: World, t: nat): (r: ActionRow)
    requires t in w.runs && Current(w.db, w.runs[t].claim)
  {
    w.db.core.actions[w.runs[t].claim.actionId]
  }

  ghost predicate Working(w: World, t: nat) {
    WorldInv(w) && t in w.runs && !w.runs[t].pc.Bound? && !w.runs[t].pc.Done?
  }

  lemma CurrentIsHeld(w: World, t: nat)
    requires Working(w, t) && Current(w.db, w.runs[t].claim)
    ensures RowOf(w, t).intentId == w.runs[t].claim.intent.id
    ensures w.runs[t].claim.intent.id in w.db.core.intents
    ensures Held(RowOf(w, t), w.db.core.intents[RowOf(w, t).intentId], w.runs[t].claim)
    ensures ResultsAt(w.runs[t].claim, w.runs[t].pc, RowOf(w, t).results)
  {
    DbOf(w);
    CoreOf(w.db);
    RunOf(w, t);
    HeldWhenCurrent(w.db, t, w.runs[t]);
  }

  // ---------------------------------------------------------------- commits

  lemma FailKeepsWorld(w: World, t: nat, e: StoreError)
    requires Working(w, t)
    requires w.runs[t].claim.kind.SubmitSpot? && Current(w.db, w.runs[t].claim) && IsPoison(e) ==>
               RowOf(w, t).results.submission.None?
    ensures WorldInv(Goto(w, t, FailPc(e)))
  {
    if IsPoison(e) { PoisonKeepsWorld(w, t); } else { DoneKeepsWorld(w, t); }
  }

  lemma HandOverKeepsWorld(w: World, t: nat, row: ActionRow, e: Option<S.Event>, next: Option<NextAction>,
                           id: nat, draws: seq<nat>, control: Control)
    requires Working(w, t) && Current(w.db, w.runs[t].claim)
    requires MayAdvance(w.db.core, w.runs[t].claim.actionId, row, e, next) && !row.status.Leased?
    requires row.results.signed == RowOf(w, t).results.signed
    requires row.results.authorized == RowOf(w, t).results.authorized
    requires ControlGrows(w.db.control, control) && !SoldOut(Moved(w.db.core.intents[row.intentId], e).saga)
    requires var r := Advance(w.db.core, w.runs[t].claim.actionId, row, e, next, id, draws, w.db.now);
             w.runs[t].claim.kind.SubmitSpot? && r.CoreErr? && IsPoison(r.error) ==>
               RowOf(w, t).results.submission.None?
    ensures WorldInv(Commit(w, t, Lift(w.db, Advance(w.db.core, w.runs[t].claim.actionId, row, e, next, id, draws,
                                                     w.db.now), control), Done))
  {
    var r := Advance(w.db.core, w.runs[t].claim.actionId, row, e, next, id, draws, w.db.now);
    if r.CoreErr? { FailKeepsWorld(w, t, r.error); }
    else {
      DbOf(w);
      VenueOf(w.db);
      AdvanceKeepsWorld(w, t, w.db.(core := r.core, control := control), row, e, next, id, draws);
    }
  }

  lemma QueueingErrors(core: Core, a: nat, row: ActionRow, e: Option<S.Event>, next: NextAction, id: nat,
                       draws: seq<nat>, now: nat)
    requires row.intentId in core.intents && EventOk(core.intents[row.intentId].saga, e) && !next.kind.UnwindPerp?
    ensures Advance(core, a, row, e, Some(next), id, draws, now).CoreErr? ==>
              Advance(core, a, row, e, Some(next), id, draws, now).error == Conflict
  {
  }

  lemma RetryKeeps(w: World, t: nat, env: Env)
    requires WorldInv(w) && t in w.runs
    ensures WorldInv(Retry(w, t, env))
  {
    var c := w.runs[t].claim;
    if Holds(w.db, c.actionId, c.worker, c.token) {
      DbOf(w);
      RestatusKeepsDb(w.db, c.actionId, Pending, w.db.now + env.delay);
      var after := w.db.core.actions[c.actionId].(status := Pending, availableAt := w.db.now + env.delay);
      PutGrows(w.db, c.actionId, after);
      FinishKeepsWorld(w, t, PutAction(w.db, c.actionId, after));
    } else {
      DoneKeepsWorld(w, t);
    }
  }

  // ---------------------------------------------------------------- perpetual orders

  lemma PerpSubmissionFits(w: World, t: nat, hash: nat, after: ActionRow)
    requires Working(w, t) && Current(w.db, w.runs[t].claim) && OrderKind(w.runs[t].claim.kind)
    requires AfterPerpSubmission(w.runs[t].claim, hash).Some?
    requires var row := RowOf(w, t);
             && after == row.(status := after.status, results := row.results.(completion := after.results.completion))
             && (after.status.Succeeded? || (after.status.Ambiguous? && after.results == row.results))
    ensures var c := w.runs[t].claim;
            && MayAdvance(w.db.core, c.actionId, after, PerpSubmittedEvent(c), AfterPerpSubmission(c, hash))
            && !SoldOut(Moved(w.db.core.intents[after.intentId], PerpSubmittedEvent(c)).saga)
  {
    var c := w.runs[t].claim;
    CurrentIsHeld(w, t);
    var row := RowOf(w, t);
    var irow := w.db.core.intents[row.intentId];
    if c.kind.SubmitPerp? { EntrySubmissionFits(row, irow, c, hash, after); }
    else { UnwindSubmissionFits(row, irow, c, hash, after); }
  }

  lemma CompletePerpKeeps(w: World, t: nat, s: Submission, env: Env)
    requires Working(w, t) && OrderKind(w.runs[t].claim.kind)
    ensures WorldInv(CompletePerp(w, t, s, env))
  {
    var c := w.runs[t].claim;
    if AfterPerpSubmission(c, s.txHash).None? { PoisonKeepsWorld(w, t); }
    else if !Holds(w.db, c.actionId, c.worker, c.token) { FailKeepsWorld(w, t, LeaseLost); }
    else {
      var row := RowOf(w, t);
      var after := row.(status := Succeeded, results := row.results.(completion := Some(s)));
      PerpSubmissionFits(w, t, s.txHash, after);
      HandOverKeepsWorld(w, t, after, PerpSubmittedEvent(c), AfterPerpSubmission(c, s.txHash), env.newId, [],
                         w.db.control);
    }
  }

  lemma ContinuePerpKeeps(w: World, t: nat, hash: nat, env: Env)
    requires Working(w, t) && OrderKind(w.runs[t].claim.kind)
    ensures WorldInv(ContinuePerp(w, t, hash, env))
  {
    var c := w.runs[t].claim;
    if AfterPerpSubmission(c, hash).None? { PoisonKeepsWorld(w, t); }
    else if !Holds(w.db, c.actionId, c.worker, c.token) { FailKeepsWorld(w, t, LeaseLost); }
    else {
      var after := RowOf(w, t).(status := Ambiguous);
      PerpSubmissionFits(w, t, hash, after);
      HandOverKeepsWorld(w, t, after, PerpSubmittedEvent(c), AfterPerpSubmission(c, hash), env.newId, [],
                         Halt(w.db.control));
    }
  }

  // ---------------------------------------------------------------- stops

  lemma RejectKeeps(w: World, t: nat, e: S.Event)
    requires Working(w, t) && w.runs[t].claim.kind.SubmitPerp?
    requires Current(w.db, w.runs[t].claim) ==> Unsendable(RowOf(w, t).results)
    requires e == S.Event.Cancelled || e == S.Event.Expired
    ensures WorldInv(StopRun(w, t, StopRejected, Some(e)))
  {
    var c := w.runs[t].claim;
    if !Holds(w.db, c.actionId, c.worker, c.token) { FailKeepsWorld(w, t, LeaseLost); }
    else {
      CurrentIsHeld(w, t);
      RejectionFits(RowOf(w, t), w.db.core.intents[RowOf(w, t).intentId], c, e);
      HandOverKeepsWorld(w, t, RowOf(w, t).(status := Rejected), Some(e), None, 0, [], w.db.control);
    }
  }

  lemma FailSafeKeeps(w: World, t: nat, e: Option<S.Event>)
    requires Working(w, t)
    requires Current(w.db, w.runs[t].claim) ==> StopEvent(w.runs[t].claim, e)
    requires w.runs[t].claim.kind.SubmitSpot? && Current(w.db, w.runs[t].claim) ==>
               RowOf(w, t).results.submission.None?
    ensures WorldInv(StopRun(w, t, StopFailedSafe, e))
  {
    var c := w.runs[t].claim;
    if !Holds(w.db, c.actionId, c.worker, c.token) { FailKeepsWorld(w, t, LeaseLost); }
    else {
      CurrentIsHeld(w, t);
      FailureFits(RowOf(w, t), w.db.core.intents[RowOf(w, t).intentId], c, e);
      HandOverKeepsWorld(w, t, RowOf(w, t).(status := FailedSafe), e, None, 0, [], Halt(w.db.control));
    }
  }

  // ---------------------------------------------------------------- spot legs

  lemma SpotHandOver(w: World, t: nat, requestId: nat, hash: Option<nat>, after: ActionRow, id: nat, control: Control)
    requires Working(w, t) && Current(w.db, w.runs[t].claim)
    requires w.runs[t].claim.kind.SubmitSpot? || w.runs[t].claim.kind.UnwindSpot?
    requires var c := w.runs[t].claim;
             c.kind.SubmitSpot? ==> P.SpotAmountsForFill(c.intent, c.saga.filled).Some?
    requires var row := RowOf(w, t);
             && after == row.(status := after.status, results := row.results.(completion := after.results.completion))
             && (|| after.status.Succeeded?
                 || (after.status.Ambiguous? && after.results == row.results
                     && (w.runs[t].claim.kind.SubmitSpot? ==> row.results.submission.None?)))
    requires ControlGrows(w.db.control, control)
    ensures var c := w.runs[t].claim;
            WorldInv(Commit(w, t, Lift(w.db, Advance(w.db.core, c.actionId, after,
              if c.kind.SubmitSpot? then Some(S.Event.SpotSubmitted) else None,
              Some(AfterSpotSubmission(c, requestId, hash)), id, [], w.db.now), control), Done))
  {
    var c := w.runs[t].claim;
    var e := if c.kind.SubmitSpot? then Some(S.Event.SpotSubmitted) else None;
    var next := AfterSpotSubmission(c, requestId, hash);
    CurrentIsHeld(w, t);
    SpotSubmissionFits(RowOf(w, t), w.db.core.intents[RowOf(w, t).intentId], c, requestId, hash, after);
    QueueingErrors(w.db.core, c.actionId, after, e, next, id, [], w.db.now);
    HandOverKeepsWorld(w, t, after, e, Some(next), id, [], control);
  }

  lemma CompleteSpotKeeps(w: World, t: nat, s: Submission, env: Env)
    requires Working(w, t) && (w.runs[t].claim.kind.SubmitSpot? || w.runs[t].claim.kind.UnwindSpot?)
    requires var c := w.runs[t].claim;
             c.kind.SubmitSpot? && Current(w.db, c) ==> P.SpotAmountsForFill(c.intent, c.saga.filled).Some?
    ensures WorldInv(CompleteSpot(w, t, s, env))
  {
    var c := w.runs[t].claim;
    if !Current(w.db, c) {
      if c.kind.SubmitSpot?
         && !(c.saga.state.PerpPartial? || c.saga.state.PerpFilled? || c.saga.state.SpotSubmitted?)
      { PoisonKeepsWorld(w, t); } else { FailKeepsWorld(w, t, LeaseLost); }
    } else {
      CurrentIsHeld(w, t);
      if !Holds(w.db, c.actionId, c.worker, c.token) { FailKeepsWorld(w, t, LeaseLost); }
      else {
        var row := RowOf(w, t);
        SpotHandOver(w, t, s.requestId, Some(s.txHash),
                     row.(status := Succeeded, results := row.results.(completion := Some(s))), env.newId, w.db.control);
      }
    }
  }

  lemma ScheduleUnwindKeeps(w: World, t: nat, env: Env)
    requires Working(w, t) && w.runs[t].pc.HaltedToUnwind?
    ensures WorldInv(ScheduleUnwind(w, t, env))
  {
    var c := w.runs[t].claim;
    RunOf(w, t);
    if c.payload.filledBase.None? { PoisonKeepsWorld(w, t); }
    else if !Holds(w.db, c.actionId, c.worker, c.token) { FailKeepsWorld(w, t, LeaseLost); }
    else {
      CurrentIsHeld(w, t);
      var row := RowOf(w, t);
      var after := row.(status := Succeeded, results := row.results.(completion := None));
      EmergencyFits(row, w.db.core.intents[row.intentId], c, after);
      HandOverKeepsWorld(w, t, after, Some(S.UnwindStarted), Some(EmergencyUnwind(c.payload.filledBase.value)),
                         env.newId, env.draws, w.db.control);
    }
  }
}
