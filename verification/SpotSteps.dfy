/** submit_spot, unwind_spot and the recording of submissions keep the world invariant. */
module SpotSteps {
  import opened Common
  import opened CoordinatorTypes
  import opened StoreOps
  import opened WorkerDecisions
  import opened Worlds
  import opened CoreInvariants
  import opened CoreSteps
  import opened CoreMoves
  import opened WorkerFits
  import opened WorldInvariants
  import opened WorldSteps
  import opened WorkSteps
  import opened OrderSteps
  import S = Sagas
  import P = PairIntents

  lemma ExpectedMeansHedgeable(row: ActionRow, irow: IntentRow, c: Claim)
    requires Held(row, irow, c) && c.kind.SubmitSpot? && ExpectedRequest(c).Some?
    ensures P.SpotAmountsForFill(c.intent, c.saga.filled).Some?
  {
  }

  // ---------------------------------------------------------------- submissions

  lemma SubmissionFits(row: ActionRow, irow: IntentRow, c: Claim, s: Submission)
    requires Held(row, irow, c)
    requires OrderKind(c.kind) ==> row.results.authorized.Some?
    requires c.kind.SubmitSpot? ==> P.SpotAmountsForFill(c.intent, c.saga.filled).Some?
    ensures Rewrites(row, irow, row.(results := row.results.(submission := Some(s))))
  {
  }

  lemma RecordSubmissionKeeps(w: World, t: nat, s: Submission)
    requires Working(w, t) && w.runs[t].pc == Accepted(s)
    ensures var c := w.runs[t].claim;
            WorldInv(Commit(w, t, RecordSubmission(w.db, c.actionId, c.worker, c.token, s), Recorded(s)))
  {
    var c := w.runs[t].claim;
    RunOf(w, t);
    if !Holds(w.db, c.actionId, c.worker, c.token) { FailKeepsWorld(w, t, LeaseLost); }
    else {
      CurrentIsHeld(w, t);
      var row := RowOf(w, t);
      var after := row.(results := row.results.(submission := Some(s)));
      if c.kind.SubmitSpot? { ExpectedMeansHedgeable(row, w.db.core.intents[row.intentId], c); }
      SubmissionFits(row, w.db.core.intents[row.intentId], c, s);
      SameSignature(w, t, after);
      RewriteKeeps(w, t, after, Recorded(s));
    }
  }

  lemma RecordedKeeps(w: World, t: nat, s: Submission, env: Env)
    requires Working(w, t) && w.runs[t].pc == Recorded(s)
    ensures WorldInv(if OrderKind(w.runs[t].claim.kind) then CompletePerp(w, t, s, env) else CompleteSpot(w, t, s, env))
  {
    var c := w.runs[t].claim;
    RunOf(w, t);
    if OrderKind(c.kind) { CompletePerpKeeps(w, t, s, env); }
    else {
      if c.kind.SubmitSpot? && Current(w.db, c) {
        CurrentIsHeld(w, t);
        ExpectedMeansHedgeable(RowOf(w, t), w.db.core.intents[RowOf(w, t).intentId], c);
      }
      CompleteSpotKeeps(w, t, s, env);
    }
  }

  // ---------------------------------------------------------------- requests

  // No submission is on record for the spot purchase a run works on.
  ghost predicate Unsubmitted(w: World, t: nat)
    requires t in w.runs
  {
    w.runs[t].claim.kind.SubmitSpot? && Current(w.db, w.runs[t].claim) ==> RowOf(w, t).results.submission.None?
  }

  lemma RequestFits(row: ActionRow, irow: IntentRow, c: Claim, request: SpotRequest)
    requires Held(row, irow, c) && SpotKind(c.kind) && row.results.request.None? && ExpectedRequest(c) == Some(request)
    ensures Rewrites(row, irow, row.(results := row.results.(request := Some(request))))
  {
  }

  lemma PersistRequestKeeps(w: World, t: nat)
    requires Working(w, t) && SpotKind(w.runs[t].claim.kind) && Unsubmitted(w, t)
    requires w.runs[t].pc.Start? || w.runs[t].pc.SpotCleared?
    ensures WorldInv(PersistRequest(w, t))
  {
    var c := w.runs[t].claim;
    RunOf(w, t);
    match ExpectedRequest(c) {
      case None => PoisonKeepsWorld(w, t);
      case Some(expected) =>
        if !RequestAgrees(c, expected) { PoisonKeepsWorld(w, t); }
        else if c.results.request.Some? { PcKeepsWorld(w, t, Requested(expected)); }
        else if !Holds(w.db, c.actionId, c.worker, c.token) { FailKeepsWorld(w, t, LeaseLost); }
        else {
          CurrentIsHeld(w, t);
          var row := RowOf(w, t);
          var after := row.(results := row.results.(request := Some(expected)));
          RequestFits(row, w.db.core.intents[row.intentId], c, expected);
          SameSignature(w, t, after);
          RewriteKeeps(w, t, after, Requested(expected));
        }
    }
  }

  lemma SpotStartFacts(w: World, t: nat)
    requires Working(w, t) && w.runs[t].pc.Start? && w.runs[t].claim.kind.SubmitSpot?
    ensures var c := w.runs[t].claim;
            Current(w.db, c) ==>
              && Positive(c.payload.filledBase).Some? && RowOf(w, t).results == c.results
              && (c.results.submission.Some? ==> P.SpotAmountsForFill(c.intent, c.saga.filled).Some?)
  {
    if Current(w.db, w.runs[t].claim) { CurrentIsHeld(w, t); }
  }

  lemma MustUnwindKeeps(w: World, t: nat)
    requires Working(w, t) && w.runs[t].claim.kind.SubmitSpot? && Unsubmitted(w, t)
    ensures WorldInv(Goto(w, t, MustUnwind))
  {
    RunOf(w, t);
    PcKeepsWorld(w, t, MustUnwind);
  }

  lemma SpotStartKeeps(w: World, t: nat, env: Env)
    requires Working(w, t) && w.runs[t].pc.Start? && w.runs[t].claim.kind.SubmitSpot?
    ensures WorldInv(SpotStart(w, t, env))
  {
    var c := w.runs[t].claim;
    SpotStartFacts(w, t);
    if Positive(c.payload.filledBase).None? { PoisonKeepsWorld(w, t); }
    else if c.results.submission.Some? { CompleteSpotKeeps(w, t, c.results.submission.value, env); }
    else if env.now > c.intent.deadline && !Attempted(c) { MustUnwindKeeps(w, t); }
    else if P.SpotAmountsForFill(c.intent, c.payload.filledBase.value).None? { MustUnwindKeeps(w, t); }
    else { PersistRequestKeeps(w, t); }
  }

  lemma ConflictKeeps(w: World, t: nat, request: SpotRequest, id: nat)
    requires Working(w, t) && w.runs[t].pc == Requested(request)
    ensures var c := w.runs[t].claim;
            WorldInv(Commit(w, t, ContinueAmbiguous(w.db, c.actionId, c.worker, c.token,
              if c.kind.SubmitSpot? then Some(S.Event.SpotSubmitted) else None,
              AfterSpotSubmission(c, request.requestId, None), id), Done))
  {
    var c := w.runs[t].claim;
    RunOf(w, t);
    if !Holds(w.db, c.actionId, c.worker, c.token) { FailKeepsWorld(w, t, LeaseLost); }
    else {
      CurrentIsHeld(w, t);
      if c.kind.SubmitSpot? { ExpectedMeansHedgeable(RowOf(w, t), w.db.core.intents[RowOf(w, t).intentId], c); }
      SpotHandOver(w, t, request.requestId, None, RowOf(w, t).(status := Ambiguous), id, Halt(w.db.control));
    }
  }

  lemma RecordHandOver(w: World, p: (nat, SpotRequest))
    requires WorldInv(w) && HandedOk(w.db.core, p)
    ensures WorldInv(w.(handed := w.handed + [p]))
  {
    var n := w.(handed := w.handed + [p]);
    forall f ensures Keeps(n, f) {
      assert Keeps(w, f);
      if f.LeaseFacet? {
        forall b | b in n.db.core.actions ensures LeaseOf(n, b) { assert LeaseOf(w, b); }
      } else if f.FenceFacet? {
        forall b | b in n.db.core.actions ensures GrantOf(n, b) { assert GrantOf(w, b); }
      }
    }
  }

  lemma HandOverKeeps(w: World, t: nat, request: SpotRequest)
    requires Working(w, t) && w.runs[t].pc == Requested(request)
    ensures WorldInv(HandOver(w, t, request))
  {
    RunOf(w, t);
    RecordHandOver(w, (w.runs[t].claim.actionId, request));
  }

  lemma SpotAnsweredKeeps(w: World, t: nat, request: SpotRequest, env: Env)
    requires Working(w, t) && w.runs[t].pc == Requested(request)
    ensures WorldInv(SpotAnswered(w, t, request, env))
  {
    var c := w.runs[t].claim;
    RunOf(w, t);
    match env.spot {
      case SpotAccepted(hash) => PcKeepsWorld(w, t, Accepted(Submission(request.requestId, hash)));
      case SpotConflict => ConflictKeeps(w, t, request, env.newId);
      case SpotRefused =>
        if c.kind.SubmitSpot? { MustUnwindKeeps(w, t); } else { FailSafeKeeps(w, t, Some(S.Event.Unhedged)); }
      case SpotBusy => RetryKeeps(w, t, env);
    }
  }

  lemma SpotExecuteKeeps(w: World, t: nat, request: SpotRequest, env: Env)
    requires Working(w, t) && w.runs[t].pc == Requested(request)
    ensures WorldInv(SpotAnswered(HandOver(w, t, request), t, request, env))
  {
    HandOverKeeps(w, t, request);
    SpotAnsweredKeeps(HandOver(w, t, request), t, request, env);
  }

  lemma HaltToUnwindKeeps(w: World, t: nat)
    requires Working(w, t) && w.runs[t].pc.MustUnwind?
    ensures WorldInv(HaltAnd(w, t, HaltedToUnwind))
  {
    RunOf(w, t);
    HaltAndKeepsWorld(w, t, HaltedToUnwind);
  }

  // ---------------------------------------------------------------- the spot sale

  lemma ClearSpotKeeps(w: World, t: nat, env: Env)
    requires Working(w, t) && w.runs[t].pc.Start? && w.runs[t].claim.kind.UnwindSpot?
    ensures var c := w.runs[t].claim;
            WorldInv(match AuthorizeUnwindSend(w.db, c.actionId, c.worker, c.token, env.now, env.quote)
                     case DbOk(db) => Goto(w.(db := db), t, SpotCleared)
                     case DbErr(e) => Goto(w, t, if e.MarketAuthorityUnavailable? then SpotSendRefused else FailPc(e)))
  {
    var c := w.runs[t].claim;
    RunOf(w, t);
    match AuthorizeUnwindSend(w.db, c.actionId, c.worker, c.token, env.now, env.quote) {
      case DbErr(e) =>
        if e.MarketAuthorityUnavailable? { PcKeepsWorld(w, t, SpotSendRefused); } else { FailKeepsWorld(w, t, e); }
      case DbOk(db) =>
        CurrentIsHeld(w, t);
        var row := RowOf(w, t);
        var g := UnwindSend(row.payload.authority.value.session, row.payload.authority.value.eventId);
        var after := row.(results := row.results.(authorized := Some(g)));
        AuthorizingFits(row, w.db.core.intents[row.intentId], c, g);
        SameSignature(w, t, after);
        RewriteKeeps(w, t, after, SpotCleared);
    }
  }

  lemma UnwindSpotStartKeeps(w: World, t: nat, env: Env)
    requires Working(w, t) && w.runs[t].pc.Start? && w.runs[t].claim.kind.UnwindSpot?
    ensures WorldInv(UnwindSpotStart(w, t, env))
  {
    var c := w.runs[t].claim;
    if Positive(c.payload.spotAmount).None? { PoisonKeepsWorld(w, t); }
    else if c.results.submission.Some? { CompleteSpotKeeps(w, t, c.results.submission.value, env); }
    else if Attempted(c) || c.results.authorized.Some? { RunOf(w, t); PcKeepsWorld(w, t, SpotCleared); }
    else if env.now > SubmissionDeadline(c) { FailSafeKeeps(w, t, Some(S.Event.Unhedged)); }
    else { ClearSpotKeeps(w, t, env); }
  }
}
