/**
 * What the coordinator guarantees of every run: any interleaving of requests, claims,
 * crashed and stalled workers, venue events, halts and operator actions.
 */
module Coordinator {
  import opened Common
  import opened CoordinatorTypes
  import opened StoreOps
  import opened WorkerDecisions
  import opened Worlds
  import opened CoreInvariants
  import opened CoreMoves
  import opened WorkerFits
  import opened WorldInvariants
  import opened WorldSteps
  import opened WorkSteps
  import opened OrderSteps
  import opened SpotSteps
  import opened ObservationSteps
  import opened OutsideSteps
  import opened Histories
  import opened LostLeases
  import S = Sagas
  import P = PairIntents
  import X = ExitAuthorities
  import V = VenueLogs

  // ---------------------------------------------------------------- every step

  lemma StartKeeps(w: World, t: nat, env: Env)
    requires Working(w, t) && w.runs[t].pc.Start? && (env.quote.Some? ==> X.ValidQuote(env.quote.value))
    ensures WorldInv(Work(w, t, env))
  {
    match w.runs[t].claim.kind
    case SubmitPerp => PerpStartKeeps(w, t, env);
    case UnwindPerp => PerpStartKeeps(w, t, env);
    case SubmitSpot => SpotStartKeeps(w, t, env);
    case UnwindSpot => UnwindSpotStartKeeps(w, t, env);
    case _ => ReconcileStartKeeps(w, t, env);
  }

  lemma SendingKeeps(w: World, t: nat, env: Env)
    requires Working(w, t) && Sending(w.runs[t].pc)
    ensures WorldInv(Work(w, t, env))
  {
    RunOf(w, t);
    match w.runs[t].pc
    case NonceAssigned(nonce) => PerpSignKeeps(w, t, nonce, env);
    case HaveSigned(tx) => ClearKeeps(w, t, tx, env);
    case Cleared(tx) => PerpAuthorizeKeeps(w, t, tx, env);
    case SendRefused(tx) => PerpGiveUpKeeps(w, t, tx, true, env);
    case MaySend(tx) => PerpBroadcastKeeps(w, t, tx, env);
    case CannotEncode(tx) => PerpGiveUpKeeps(w, t, tx, false, env);
    case Unclear(tx) => ContinuePerpKeeps(w, t, tx.txHash, env);
  }

  lemma PoisonedKeeps(w: World, t: nat)
    requires Working(w, t) && w.runs[t].pc.Poison?
    ensures WorldInv(StopRun(w, t, StopFailedSafe, None))
  {
    RunOf(w, t);
    FailSafeKeeps(w, t, None);
  }

  lemma SpotClearedKeeps(w: World, t: nat)
    requires Working(w, t) && w.runs[t].pc.SpotCleared?
    ensures WorldInv(PersistRequest(w, t))
  {
    RunOf(w, t);
    PersistRequestKeeps(w, t);
  }

  lemma SpotRefusedKeeps(w: World, t: nat)
    requires Working(w, t) && w.runs[t].pc.SpotSendRefused?
    ensures WorldInv(StopRun(w, t, StopFailedSafe, None))
  {
    RunOf(w, t);
    FailSafeKeeps(w, t, None);
  }

  lemma WorkKeeps(w: World, t: nat, env: Env)
    requires WorldInv(w) && (env.quote.Some? ==> X.ValidQuote(env.quote.value))
    ensures WorldInv(Work(w, t, env))
  {
    if t in w.runs && !w.runs[t].pc.Done? {
      if w.runs[t].pc.Bound? { RetryKeeps(w, t, env); }
      else if Sending(w.runs[t].pc) { SendingKeeps(w, t, env); }
      else {
        match w.runs[t].pc
        case Start => StartKeeps(w, t, env);
        case Accepted(s) => RecordSubmissionKeeps(w, t, s);
        case Recorded(s) => RecordedKeeps(w, t, s, env);
        case MustUnwind => HaltToUnwindKeeps(w, t);
        case HaltedToUnwind => ScheduleUnwindKeeps(w, t, env);
        case SpotCleared => SpotClearedKeeps(w, t);
        case SpotSendRefused => SpotRefusedKeeps(w, t);
        case Requested(request) => SpotExecuteKeeps(w, t, request, env);
        case Chosen(e) => ReconcileChosenKeeps(w, t, e, env);
        case OverfillHalted(e, fill) => ApplyOverfillKeeps(w, t, e, fill, env);
        case Retrying => RetryKeeps(w, t, env);
        case Poison => PoisonedKeeps(w, t);
      }
    }
  }

  lemma StepKeeps(w: World, s: Step)
    requires WorldInv(w) && Admissible(s)
    ensures WorldInv(Next(w, s))
  {
    match s
    case Tick(d) => ControlKeeps(w, w.db.control, w.db.now + d);
    case SetMode(mode, version) =>
      if version >= w.db.control.version { ControlKeeps(w, w.db.control.(mode := mode, version := version), w.db.now); }
    case HaltNow => HaltKeepsWorld(w);
    case Create(intent, nowMs, admitted, id) => CreateKeeps(w, intent, nowMs, admitted, id);
    case Exit(request, nowMs, quote, id, draws) => ExitKeeps(w, request, nowMs, quote, id, draws);
    case Recover(r, nowMs, candidates, id) => RecoverKeeps(w, r, nowMs, candidates, id);
    case RecordEvent(event, id) => RecordKeeps(w, event, id);
    case TakeLease(a, worker, token, leaseFor) => ClaimKeeps(w, a, worker, token, leaseFor);
    case WorkOn(token, env) => WorkKeeps(w, token, env);
  }

  predicate Run(steps: seq<Step>) { forall s | s in steps :: Admissible(s) }

  lemma InitialHolds()
    ensures WorldInv(INITIAL)
  {
    DbInvIntro(INITIAL.db);
    WorldInvIntro(INITIAL);
  }

  /** Every reachable world is sound. */
  lemma {:induction false} EveryRunIsSound(steps: seq<Step>)
    requires Run(steps)
    ensures WorldInv(After(steps))
    decreases |steps|
  {
    if steps == [] { InitialHolds(); }
    else {
      var front := steps[..|steps|-1];
      EveryRunIsSound(front);
      StepKeeps(After(front), steps[|steps|-1]);
    }
  }

  lemma SoundCore(steps: seq<Step>)
    requires Run(steps)
    ensures CoreInv(After(steps).db.core)
  {
    EveryRunIsSound(steps);
    DbOf(After(steps));
    CoreOf(After(steps).db);
  }

  // ---------------------------------------------------------------- closed means flat

  /**
   * A closed episode was filled and is unwound completely; if it held spot, a confirmed sale
   * of exactly that amount was applied, at no less than the minimum its authority allowed.
   */
  lemma ClosedIsFlat(steps: seq<Step>, i: nat)
    requires Run(steps) && i in After(steps).db.core.intents
    requires After(steps).db.core.intents[i].saga.state.Closed?
    ensures var w := After(steps);
            var s := w.db.core.intents[i].saga;
            s.unwound == s.filled > 0 && (s.spot > 0 ==> SaleConfirmed(w.db.core, w.db.venue, i))
  {
    SoundCore(steps);
    var w := After(steps);
    assert IntentOk(w.db.core.intents[i], i);
    EveryRunIsSound(steps);
    DbOf(w);
    assert DbKeeps(w.db, ClosureFacet);
  }

  // ---------------------------------------------------------------- sends

  /** Everything broadcast is the persisted transaction of an action whose send was durably authorized. */
  lemma SendsAreAuthorized(steps: seq<Step>, a: nat, tx: SignedTx)
    requires Run(steps) && (a, tx) in After(steps).sent
    ensures var w := After(steps);
            && a in w.db.core.actions && OrderKind(w.db.core.actions[a].kind)
            && w.db.core.actions[a].results.signed == Some(tx) && w.db.core.actions[a].results.authorized.Some?
            && tx.encodable
            && (w.db.core.actions[a].kind.SubmitPerp? ==> Granted(w.entryAuthorizations, a))
  {
    EveryRunIsSound(steps);
    assert Keeps(After(steps), SendFacet) && Keeps(After(steps), FenceFacet);
    assert SentOk(After(steps).db.core, (a, tx));
    assert GrantOf(After(steps), a);
  }

  /** Stalled, crashed and reclaimed workers included, one action is only ever broadcast as one transaction. */
  lemma OneTransactionPerAction(steps: seq<Step>, more: seq<Step>, a: nat, tx: SignedTx, again: SignedTx)
    requires Run(steps + more) && (a, tx) in After(steps).sent && (a, again) in After(steps + more).sent
    ensures again == tx
  {
    HistoryIsAppendOnly(steps, more);
    assert ExtendsIn(After(steps), After(steps + more), SendAspect);
    SendsAreAuthorized(steps + more, a, tx);
    SendsAreAuthorized(steps + more, a, again);
  }

  /** A worker that cancels or expires an entry is right: that entry was never broadcast and never will be. */
  lemma VoidedEntriesAreNeverSent(steps: seq<Step>, more: seq<Step>, a: nat, tx: SignedTx)
    requires Run(steps + more) && a in After(steps).db.core.actions
    requires var r := After(steps).db.core.actions[a];
             && r.kind.SubmitPerp? && r.intentId in After(steps).db.core.intents
             && Voided(After(steps).db.core.intents[r.intentId].log)
    ensures (a, tx) !in After(steps + more).sent
  {
    var early, late := After(steps), After(steps + more);
    var i := early.db.core.actions[a].intentId;
    HistoryIsAppendOnly(steps, more);
    assert ExtendsIn(early, late, CoreAspect);
    assert RowExtends(early.db.core.actions[a], late.db.core.actions[a]);
    VoidedStays(early.db.core.intents[i].log, late.db.core.intents[i].log);
    SoundCore(steps + more);
    assert Owned(late.db.core, a);
    if (a, tx) in late.sent {
      SendsAreAuthorized(steps + more, a, tx);
      assert false;
    }
  }

  lemma VoidedStays(log: seq<S.Event>, longer: seq<S.Event>)
    requires Voided(log) && log <= longer
    ensures Voided(longer)
  {
    var e :| e in log && (e == S.Event.Cancelled || e == S.Event.Expired);
    assert e in longer;
  }

  /** An entry that was broadcast is never cancelled or expired by a worker afterwards. */
  lemma SentEntriesAreNeverVoided(steps: seq<Step>, more: seq<Step>, a: nat, tx: SignedTx)
    requires Run(steps + more) && (a, tx) in After(steps).sent
    requires a in After(steps + more).db.core.actions
    requires var r := After(steps + more).db.core.actions[a];
             r.kind.SubmitPerp? && r.intentId in After(steps + more).db.core.intents
    ensures !Voided(After(steps + more).db.core.intents[After(steps + more).db.core.actions[a].intentId].log)
  {
    var late := After(steps + more);
    HistoryIsAppendOnly(steps, more);
    assert ExtendsIn(After(steps), late, SendAspect);
    if Voided(late.db.core.intents[late.db.core.actions[a].intentId].log) {
      assert steps + more + [] == steps + more;
      VoidedEntriesAreNeverSent(steps + more, [], a, tx);
      assert false;
    }
  }

  // ---------------------------------------------------------------- after a lease is lost

  lemma TokenIsOwn(steps: seq<Step>, t: nat)
    requires Run(steps) && t in After(steps).runs
    ensures After(steps).runs[t].claim.token == t
  {
    EveryRunIsSound(steps);
    RunOf(After(steps), t);
  }

  /**
   * A worker that lost its lease never gets it back, and never becomes authorized: whatever happens
   * later, if it may send then it already might when the lease was lost, and the same transaction.
   */
  lemma {:induction false} LostStaysLost(steps: seq<Step>, more: seq<Step>, t: nat)
    requires Run(steps) && Stale(After(steps), t)
    ensures StillLost(After(steps), After(steps + more), t)
    ensures After(steps + more).runs[t].claim == After(steps).runs[t].claim
    decreases |more|
  {
    TokenIsOwn(steps, t);
    if more == [] {
      assert steps + more == steps;
    } else {
      var front, last := more[..|more|-1], more[|more|-1];
      LostStaysLost(steps, front, t);
      var all := steps + more;
      assert all[..|all|-1] == steps + front && all[|all|-1] == last;
      StepKeepsLost(After(steps + front), t, last);
    }
  }

  lemma PrefixRuns(steps: seq<Step>, more: seq<Step>)
    requires Run(steps + more)
    ensures Run(steps)
  {
    forall s | s in steps ensures Admissible(s) { assert s in steps + more; }
  }

  // After `front` an await of worker `t` broadcasts a Lighter order.
  ghost predicate SendsAfter(front: seq<Step>, t: nat, env: Env) {
    && Run(front) && Admissible(WorkOn(t, env))
    && |Next(After(front), WorkOn(t, env)).sent| > |After(front).sent|
  }

  ghost predicate CanStillSend(steps: seq<Step>, t: nat) {
    exists more: seq<Step>, env: Env :: SendsAfter(steps + more, t, env)
  }

  // The worker is past its authorization, with a transaction it can encode.
  predicate Cocked(w: World, t: nat) { t in w.runs && w.runs[t].pc.MaySend? && w.runs[t].pc.tx.encodable }

  /**
   * A worker without its lease can still broadcast a Lighter order, in some continuation of the run,
   * exactly if it was authorized, with a transaction it can encode, when it lost the lease.
   */
  lemma LateSendsExactly(steps: seq<Step>, t: nat)
    requires Run(steps) && Stale(After(steps), t)
    ensures CanStillSend(steps, t) <==> Cocked(After(steps), t)
  {
    if CanStillSend(steps, t) {
      var more: seq<Step>, env: Env :| SendsAfter(steps + more, t, env);
      LostStaysLost(steps, more, t);
      ReachesExactly(After(steps + more), t, env);
    }
    if Cocked(After(steps), t) {
      ReachesExactly(After(steps), t, QUIET);
      assert steps + [] == steps;
      assert SendsAfter(steps + [], t, QUIET);
    }
  }

  // After `front` an await of worker `t` hands a spot request to the signer.
  ghost predicate HandsOverAfter(front: seq<Step>, t: nat, env: Env) {
    && Run(front) && Admissible(WorkOn(t, env))
    && |Next(After(front), WorkOn(t, env)).handed| > |After(front).handed|
  }

  ghost predicate CanStillHandOver(steps: seq<Step>, t: nat) {
    exists more: seq<Step>, env: Env :: HandsOverAfter(steps + more, t, env)
  }

  lemma HandingIsArmed(w: World, t: nat, env: Env)
    requires t in w.runs && |Next(w, WorkOn(t, env)).handed| > |w.handed|
    ensures Armed(w, t)
  {
    ReachesExactly(w, t, env);
  }

  lemma {:induction false} UnarmedStaysUnarmed(steps: seq<Step>, more: seq<Step>, t: nat)
    requires Run(steps) && Stale(After(steps), t)
    ensures Armed(After(steps + more), t) ==> Armed(After(steps), t)
    decreases |more|
  {
    if more == [] {
      assert steps + more == steps;
    } else {
      var front, last := more[..|more|-1], more[|more|-1];
      UnarmedStaysUnarmed(steps, front, t);
      LostStaysLost(steps, front, t);
      var all := steps + more;
      assert all[..|all|-1] == steps + front && all[|all|-1] == last;
      StepKeepsUnarmed(After(steps + front), t, last);
    }
  }

  lemma {:induction false} ArmedHandsOver(steps: seq<Step>, t: nat) returns (more: seq<Step>)
    requires Run(steps) && Armed(After(steps), t)
    ensures HandsOverAfter(steps + more, t, QUIET)
    decreases Distance(After(steps).runs[t].pc)
  {
    if After(steps).runs[t].pc.Requested? {
      more := [];
      assert steps + more == steps;
      ReachesExactly(After(steps), t, QUIET);
    } else {
      var all := steps + [WorkOn(t, QUIET)];
      assert all[..|all|-1] == steps;
      ArmedAdvances(After(steps), t);
      var rest := ArmedHandsOver(all, t);
      more := [WorkOn(t, QUIET)] + rest;
      assert steps + more == all + rest;
    }
  }

  /**
   * The spot half: a worker without its lease can still hand a request to the signer, in some
   * continuation of the run, exactly if it stood at that request, or brought a persisted request
   * along with its claim and had not yet gone past it, when it lost the lease.
   */
  lemma LateHandOversExactly(steps: seq<Step>, t: nat)
    requires Run(steps) && Stale(After(steps), t)
    ensures CanStillHandOver(steps, t) <==> Armed(After(steps), t)
  {
    if CanStillHandOver(steps, t) {
      var more: seq<Step>, env: Env :| HandsOverAfter(steps + more, t, env);
      LostStaysLost(steps, more, t);
      HandingIsArmed(After(steps + more), t, env);
      UnarmedStaysUnarmed(steps, more, t);
    }
    if Armed(After(steps), t) {
      var more := ArmedHandsOver(steps, t);
    }
  }

  // ---------------------------------------------------------------- spot requests

  /** Every request handed to the signer is the one persisted on its action, and asks for exactly the right amounts. */
  lemma RequestsArePersisted(steps: seq<Step>, a: nat, r: SpotRequest)
    requires Run(steps) && (a, r) in After(steps).handed
    ensures var core := After(steps).db.core;
            && a in core.actions && SpotKind(core.actions[a].kind) && core.actions[a].results.request == Some(r)
            && Owned(core, a) && RequestOk(core.actions[a], core.intents[core.actions[a].intentId])
  {
    EveryRunIsSound(steps);
    assert Keeps(After(steps), SendFacet);
    assert HandedOk(After(steps).db.core, (a, r));
    SoundCore(steps);
    assert Owned(After(steps).db.core, a);
  }

  // The action's request was handed over, or a worker stands ready to.
  ghost predicate Asks(w: World, a: nat, r: SpotRequest) {
    (a, r) in w.handed || exists t :: t in w.runs && w.runs[t].pc == Requested(r) && w.runs[t].claim.actionId == a
  }

  // The row determines the request a claim of it expects.
  lemma ClaimedIsDetermined(db: Db, c: Claim, r: SpotRequest)
    requires ClaimOk(db, c) && SpotKind(c.kind) && ExpectedRequest(c) == Some(r)
    ensures Owned(db.core, c.actionId) && RequestOfRow(db.core, c.actionId) == Some(r)
  {
  }

  lemma StandingIsDetermined(steps: seq<Step>, more: seq<Step>, t: nat, r: SpotRequest)
    requires Run(steps + more) && t in After(steps).runs && After(steps).runs[t].pc == Requested(r)
    ensures var core, a := After(steps + more).db.core, After(steps).runs[t].claim.actionId;
            a in core.actions && Owned(core, a) && RequestOfRow(core, a) == Some(r)
  {
    PrefixRuns(steps, more);
    EveryRunIsSound(steps);
    RunOf(After(steps), t);
    HistoryIsAppendOnly(steps, more);
    assert ExtendsIn(After(steps), After(steps + more), RunAspect);
    EveryRunIsSound(steps + more);
    RunOf(After(steps + more), t);
    ClaimedIsDetermined(After(steps + more).db, After(steps).runs[t].claim, r);
  }

  // What a run asked for once, its row determines for good.
  lemma AskedIsDetermined(steps: seq<Step>, more: seq<Step>, a: nat, r: SpotRequest)
    requires Run(steps + more) && Asks(After(steps), a, r)
    ensures var core := After(steps + more).db.core;
            a in core.actions && Owned(core, a) && RequestOfRow(core, a) == Some(r)
  {
    if (a, r) in After(steps).handed {
      HistoryIsAppendOnly(steps, more);
      assert ExtendsIn(After(steps), After(steps + more), SendAspect);
      EveryRunIsSound(steps + more);
      assert Keeps(After(steps + more), SendFacet);
      assert (a, r) in After(steps + more).handed && HandedOk(After(steps + more).db.core, (a, r));
    } else {
      var t :| t in After(steps).runs && After(steps).runs[t].pc == Requested(r) && After(steps).runs[t].claim.actionId == a;
      StandingIsDetermined(steps, more, t, r);
    }
  }

  /** Stalled, crashed and reclaimed workers included, one action only ever asks for one request. */
  lemma OneRequestPerAction(steps: seq<Step>, more: seq<Step>, a: nat, r: SpotRequest, again: SpotRequest)
    requires Run(steps + more) && Asks(After(steps), a, r) && Asks(After(steps + more), a, again)
    ensures again == r
  {
    AskedIsDetermined(steps, more, a, r);
    assert steps + more + [] == steps + more;
    AskedIsDetermined(steps + more, [], a, again);
  }

  // A purchase on record, as its row and its intent determine it.
  predicate Bought(core: Core, a: nat, r: SpotRequest) {
    && a in core.actions && core.actions[a].kind.SubmitSpot? && Owned(core, a)
    && core.actions[a].results.request == Some(r) && KnownId(core.actions[a]) == Some(r.requestId)
    && r.spotIntentId == core.actions[a].intentId
    && RequestFor(r.requestId, SubmitSpot, core.intents[core.actions[a].intentId].intent,
                  NO_PAYLOAD.(filledBase := Some(SagaOf(core, a).filled))) == Some(r)
  }

  lemma HandedIsBought(core: Core, a: nat, r: SpotRequest)
    requires HandedOk(core, (a, r)) && r.buy
    requires ActionOk(core.actions[a], core.intents[core.actions[a].intentId])
    requires core.intents[core.actions[a].intentId].intent.id == core.actions[a].intentId
    ensures Bought(core, a, r)
  {
  }

  lemma PurchaseIsBought(steps: seq<Step>, a: nat, r: SpotRequest)
    requires Run(steps) && (a, r) in After(steps).handed && r.buy
    ensures Bought(After(steps).db.core, a, r)
  {
    var core := After(steps).db.core;
    EveryRunIsSound(steps);
    assert Keeps(After(steps), SendFacet);
    assert HandedOk(core, (a, r));
    SoundCore(steps);
    assert IntentOk(core.intents[core.actions[a].intentId], core.actions[a].intentId);
    HandedIsBought(core, a, r);
  }

  /**
   * An episode's hedge is asked for as one request: whatever stalled, was refused, failed safe and was
   * recovered, every purchase handed to the signer for one intent is the same one, request id included.
   */
  lemma OneHedgePerEpisode(steps: seq<Step>, a: nat, r: SpotRequest, b: nat, q: SpotRequest)
    requires Run(steps) && (a, r) in After(steps).handed && (b, q) in After(steps).handed
    requires r.buy && q.buy && r.spotIntentId == q.spotIntentId
    ensures r == q
  {
    var core := After(steps).db.core;
    PurchaseIsBought(steps, a, r);
    PurchaseIsBought(steps, b, q);
    SoundCore(steps);
    if a != b { assert Purchases(core, b, core.actions[a].intentId); }
  }

  /** A spot action that ended with no request on record was never handed to the signer and never will be. */
  lemma UnrequestedIsNeverHanded(steps: seq<Step>, more: seq<Step>, a: nat, r: SpotRequest)
    requires Run(steps + more) && a in After(steps).db.core.actions && !After(steps).db.core.actions[a].Live()
    requires After(steps).db.core.actions[a].results.request.None?
    ensures (a, r) !in After(steps + more).handed
  {
    HistoryIsAppendOnly(steps, more);
    assert ExtendsIn(After(steps), After(steps + more), CoreAspect);
    assert RowExtends(After(steps).db.core.actions[a], After(steps + more).db.core.actions[a]);
    if (a, r) in After(steps + more).handed {
      RequestsArePersisted(steps + more, a, r);
      assert false;
    }
  }

  // Some worker of the action can still hand its request over.
  ghost predicate CanStillBeAsked(steps: seq<Step>, a: nat) {
    exists more: seq<Step>, t: nat, env: Env :: HandsOverFor(steps + more, t, env, a)
  }

  ghost predicate HandsOverFor(front: seq<Step>, t: nat, env: Env, a: nat) {
    t in After(front).runs && After(front).runs[t].claim.actionId == a && HandsOverAfter(front, t, env)
  }

  ghost predicate HasArmedWorker(w: World, a: nat) { exists t :: Armed(w, t) && w.runs[t].claim.actionId == a }

  lemma {:induction false} FinishedGetsNoWorkers(steps: seq<Step>, more: seq<Step>, a: nat)
    requires a in After(steps).db.core.actions && !After(steps).db.core.actions[a].Live()
    ensures NoNewWorkers(After(steps), After(steps + more), a)
    decreases |more|
  {
    if more == [] {
      assert steps + more == steps;
    } else {
      var front, last := more[..|more|-1], more[|more|-1];
      FinishedGetsNoWorkers(steps, front, a);
      HistoryIsAppendOnly(steps, front);
      assert ExtendsIn(After(steps), After(steps + front), CoreAspect);
      assert RowExtends(After(steps).db.core.actions[a], After(steps + front).db.core.actions[a]);
      var all := steps + more;
      assert all[..|all|-1] == steps + front && all[|all|-1] == last;
      FinishedIsNotClaimed(After(steps + front), a, last);
    }
  }

  /**
   * A spot action that is over, such as a hedge given up for an unwind, can still be handed to the
   * signer exactly if one of its workers stands armed at that moment; with no request on record none does.
   */
  lemma FinishedIsAskedExactly(steps: seq<Step>, a: nat)
    requires Run(steps) && a in After(steps).db.core.actions && !After(steps).db.core.actions[a].Live()
    ensures CanStillBeAsked(steps, a) <==> HasArmedWorker(After(steps), a)
    ensures HasArmedWorker(After(steps), a) ==> After(steps).db.core.actions[a].results.request.Some?
  {
    if CanStillBeAsked(steps, a) {
      var more: seq<Step>, t: nat, env: Env :| HandsOverFor(steps + more, t, env, a);
      FinishedGetsNoWorkers(steps, more, a);
      assert HandsOverAfter(steps + more, t, env);
      LateHandOversExactly(steps, t);
    }
    if HasArmedWorker(After(steps), a) {
      var t :| Armed(After(steps), t) && After(steps).runs[t].claim.actionId == a;
      ArmedIsOnRecord(steps, t);
      var more := ArmedHandsOver(steps, t);
      LostStaysLost(steps, more, t);
      assert HandsOverFor(steps + more, t, QUIET, a);
    }
  }

  lemma ArmedIsOnRecord(steps: seq<Step>, t: nat)
    requires Run(steps) && Armed(After(steps), t)
    ensures var a := After(steps).runs[t].claim.actionId;
            a in After(steps).db.core.actions && After(steps).db.core.actions[a].results.request.Some?
  {
    EveryRunIsSound(steps);
    RunOf(After(steps), t);
  }

  // ---------------------------------------------------------------- hedges

  /**
   * In every run a hedged episode holds exactly the spot its fill calls for, and is delta neutral:
   * its spot, through multiplier and decimals, is its fill.
   */
  lemma HedgedIsDeltaNeutral(steps: seq<Step>, i: nat)
    requires Run(steps) && i in After(steps).db.core.intents && After(steps).db.core.intents[i].saga.state.Hedged?
    ensures var intent, s := After(steps).db.core.intents[i].intent, After(steps).db.core.intents[i].saga;
            && P.SpotAmountsForFill(intent, s.filled).Some? && s.spot == P.SpotAmountsForFill(intent, s.filled).value.target
            && s.spot * intent.evidence.multiplier * P.Pow10(intent.baseDecimals)
               == s.filled * P.MULTIPLIER_SCALE * P.Pow10(intent.spotDecimals)
  {
    SoundCore(steps);
    var row := After(steps).db.core.intents[i];
    assert IntentOk(row, i);
    EveryRunIsSound(steps);
    DbOf(After(steps));
    assert DbKeeps(After(steps).db, IntentFacet);
    P.HedgeIsDeltaNeutral(row.intent, row.saga.filled);
  }

  // ---------------------------------------------------------------- the halt fence

  /** No entry was ever authorized by a worker that claimed it before a halt and asked after it. */
  lemma HaltsFenceEntries(steps: seq<Step>, g: EntryAuthorization)
    requires Run(steps) && g in After(steps).entryAuthorizations
    ensures g.haltsAtClaim == g.haltsAtSend
  {
    EveryRunIsSound(steps);
    assert Keeps(After(steps), FenceFacet);
  }

  lemma OldClaimIsRefused(w: World, t: nat, tx: SignedTx, env: Env)
    requires t in w.runs && RunOk(w.db, t, w.runs[t]) && w.runs[t].pc == Cleared(tx) && w.runs[t].claim.kind.SubmitPerp?
    requires w.runs[t].claim.haltsAtClaim < w.db.control.halts
    ensures !PerpAuthorize(w, t, tx, env).runs[t].pc.MaySend? && PerpAuthorize(w, t, tx, env).db == w.db
  {
  }

  /** A worker that has not been authorized yet cannot be once a halt is committed. */
  lemma HaltedClaimsAreRefused(steps: seq<Step>, t: nat, tx: SignedTx, env: Env)
    requires Run(steps) && t in After(steps).runs && After(steps).runs[t].pc == Cleared(tx)
    requires After(steps).runs[t].claim.kind.SubmitPerp?
    requires After(steps).runs[t].claim.haltsAtClaim < After(steps).db.control.halts
    ensures !Next(After(steps), WorkOn(t, env)).runs[t].pc.MaySend?
    ensures Next(After(steps), WorkOn(t, env)).db == After(steps).db
  {
    EveryRunIsSound(steps);
    RunOf(After(steps), t);
    OldClaimIsRefused(After(steps), t, tx, env);
  }

  // ---------------------------------------------------------------- one action at a time

  /** At most one action of an intent is live, and it is the kind the saga's state calls for. */
  lemma OneLiveActionThatFits(steps: seq<Step>, a: nat, b: nat)
    requires Run(steps) && a in After(steps).db.core.actions && b in After(steps).db.core.actions
    requires After(steps).db.core.actions[a].Live() && After(steps).db.core.actions[b].Live()
    requires After(steps).db.core.actions[a].intentId == After(steps).db.core.actions[b].intentId
    ensures a == b && After(steps).db.core.actions[a].intentId in After(steps).db.core.intents
    ensures KindFits(After(steps).db.core.actions[a].kind,
                     After(steps).db.core.intents[After(steps).db.core.actions[a].intentId].saga.state)
  {
    SoundCore(steps);
    assert Owned(After(steps).db.core, a);
  }

  /** At most one intent is active anywhere, and it is one whose exposure is not resolved. */
  lemma OneActiveIntent(steps: seq<Step>, i: nat, j: nat)
    requires Run(steps) && i in After(steps).db.core.intents && j in After(steps).db.core.intents
    requires !After(steps).db.core.intents[i].saga.state.ExposureResolved()
    requires !After(steps).db.core.intents[j].saga.state.ExposureResolved()
    ensures i == j && After(steps).db.core.intents[i].active
  {
    SoundCore(steps);
    assert IntentOk(After(steps).db.core.intents[i], i) && IntentOk(After(steps).db.core.intents[j], j);
  }

  /** While a worker's lease is in the table, the saga, payload and identity it claimed are still the stored ones. */
  lemma LeaseholdersAreNeverStale(steps: seq<Step>, t: nat)
    requires Run(steps) && t in After(steps).runs && Current(After(steps).db, After(steps).runs[t].claim)
    requires !After(steps).runs[t].pc.Bound? && !After(steps).runs[t].pc.Done?
    ensures var db, c := After(steps).db, After(steps).runs[t].claim;
            && c.actionId in db.core.actions && c.intent.id in db.core.intents
            && db.core.intents[c.intent.id].intent == c.intent && db.core.intents[c.intent.id].saga == c.saga
            && db.core.actions[c.actionId].payload == c.payload && db.core.actions[c.actionId].kind == c.kind
  {
    EveryRunIsSound(steps);
    RunOf(After(steps), t);
  }

  // ---------------------------------------------------------------- the saga and its log

  /** The stored saga is the replay of the stored log, and the intent is active exactly while unresolved. */
  lemma LogReplaysToSaga(steps: seq<Step>, i: nat)
    requires Run(steps) && i in After(steps).db.core.intents
    ensures var row := After(steps).db.core.intents[i];
            && i != 0 && S.Replay(S.New(i).saga, row.log) == Some(row.saga)
            && row.saga.version == Min(|row.log|, U64_MAX) && S.Coherent(row.saga)
            && (row.active <==> !row.saga.state.ExposureResolved())
  {
    SoundCore(steps);
    assert IntentOk(After(steps).db.core.intents[i], i);
    S.RunsAreCoherent(i, After(steps).db.core.intents[i].log);
  }

  /** However long the run goes on, fills and unwinds only grow and a resolved saga never moves again. */
  lemma EpisodesAreMonotone(steps: seq<Step>, more: seq<Step>, i: nat)
    requires Run(steps + more) && i in After(steps).db.core.intents
    ensures i in After(steps + more).db.core.intents
    ensures var early, late := After(steps).db.core.intents[i].saga, After(steps + more).db.core.intents[i].saga;
            && early.filled <= late.filled && early.unwound <= late.unwound
            && (early.spot != 0 ==> late.spot == early.spot)
            && (early.state.Terminal() ==> late == early)
  {
    var early, late := After(steps).db.core.intents, After(steps + more).db.core.intents;
    HistoryIsAppendOnly(steps, more);
    assert ExtendsIn(After(steps), After(steps + more), CoreAspect);
    assert Run(steps) by { forall s | s in steps ensures Admissible(s) { assert s in steps + more; } }
    LogReplaysToSaga(steps, i);
    LogReplaysToSaga(steps + more, i);
    var k := |early[i].log|;
    assert late[i].log[..k] == early[i].log;
    S.RunsAreMonotone(i, late[i].log, k);
    if k == |late[i].log| { assert late[i].log == early[i].log; }
  }

  // ---------------------------------------------------------------- unwinding

  // What is ordered plus what was unwound before is the whole fill.
  predicate Conserves(core: Core, a: nat) {
    && a in core.actions && Owned(core, a)
    && var r, s := core.actions[a], SagaOf(core, a);
    && r.payload.filledBase.Some? && r.payload.filledBase.value > 0
    && r.payload.filledBase.value + r.payload.unwoundBefore.Or(0) == s.filled
    && (r.kind.UnwindPerp? && r.Live() ==> r.payload.filledBase.value == s.filled - s.unwound)
  }

  lemma ActionConserves(core: Core, a: nat)
    requires ActionsOk(core) && LiveActionsOk(core) && a in core.actions
    requires core.actions[a].kind.UnwindPerp? || core.actions[a].kind.ReconcileUnwind?
    ensures Conserves(core, a)
  {
    assert Owned(core, a);
  }

  /** Every unwind order, and every reconciliation of one, is for exactly what its episode still held. */
  lemma UnwindsConserve(steps: seq<Step>, a: nat)
    requires Run(steps) && a in After(steps).db.core.actions
    requires After(steps).db.core.actions[a].kind.UnwindPerp? || After(steps).db.core.actions[a].kind.ReconcileUnwind?
    ensures Conserves(After(steps).db.core, a)
  {
    SoundCore(steps);
    ActionConserves(After(steps).db.core, a);
  }

  // The signed order buys back its payload's amount at its authority's price, for the recorded spot.
  predicate SignedAsPlanned(core: Core, a: nat) {
    && a in core.actions && Owned(core, a)
    && var r := core.actions[a];
    && r.results.signed.Some? && r.payload.authority.Some?
    && var o, authority := r.results.signed.value.order, r.payload.authority.value;
    && Some(o.baseAmount) == r.payload.filledBase && o.reduceOnly && !o.isAsk
    && o.price == authority.unwindPrice >= authority.markPrice && authority.spotIn == SagaOf(core, a).spot
  }

  lemma ActionSignedAsPlanned(core: Core, a: nat)
    requires ActionsOk(core) && a in core.actions && core.actions[a].kind.UnwindPerp?
    requires core.actions[a].results.signed.Some?
    ensures SignedAsPlanned(core, a)
  {
    assert Owned(core, a);
  }

  /** No unwind order is signed for another amount, side or price than its payload and exit authority say. */
  lemma SignedUnwindsMatch(steps: seq<Step>, a: nat)
    requires Run(steps) && a in After(steps).db.core.actions && After(steps).db.core.actions[a].kind.UnwindPerp?
    requires After(steps).db.core.actions[a].results.signed.Some?
    ensures SignedAsPlanned(After(steps).db.core, a)
  {
    SoundCore(steps);
    ActionSignedAsPlanned(After(steps).db.core, a);
  }

  // The perp leg is bought back completely and the action is about all of the spot.
  predicate SellsTheRest(core: Core, a: nat) {
    && a in core.actions && Owned(core, a)
    && var s := SagaOf(core, a);
    s.unwound == s.filled && s.spot > 0 && core.actions[a].payload.spotAmount == Some(s.spot)
  }

  lemma ActionSellsTheRest(core: Core, a: nat)
    requires ActionsOk(core) && a in core.actions
    requires core.actions[a].kind.UnwindSpot? || core.actions[a].kind.ReconcileUnwindSpot?
    ensures SellsTheRest(core, a)
  {
    assert Owned(core, a);
  }

  /** A spot sale is queued or reconciled only once the perp leg is bought back completely, and for all the spot. */
  lemma SalesFollowUnwinds(steps: seq<Step>, a: nat)
    requires Run(steps) && a in After(steps).db.core.actions
    requires After(steps).db.core.actions[a].kind.UnwindSpot? || After(steps).db.core.actions[a].kind.ReconcileUnwindSpot?
    ensures SellsTheRest(After(steps).db.core, a)
  {
    SoundCore(steps);
    ActionSellsTheRest(After(steps).db.core, a);
  }

  // The automatic unwind orders of an intent.
  function AutomaticUnwinds(core: Core, i: nat): (r: set<nat>) {
    set a | a in core.actions && core.actions[a].intentId == i && core.actions[a].kind.UnwindPerp?
            && !core.actions[a].payload.operatorRecovery
  }

  lemma {:induction false} InjectionIsBounded(ids: set<nat>, f: map<nat, nat>, n: nat)
    requires forall x | x in ids :: x in f && f[x] < n
    requires forall x, y | x in ids && y in ids && f[x] == f[y] :: x == y
    ensures |ids| <= n
    decreases n
  {
    if ids != {} {
      if exists x :: x in ids && f[x] == n - 1 {
        var x :| x in ids && f[x] == n - 1;
        InjectionIsBounded(ids - {x}, f, n - 1);
      } else {
        InjectionIsBounded(ids, f, n - 1);
      }
    }
  }

  lemma AttemptOfAutomatic(core: Core, i: nat, a: nat)
    requires IndexInv(core) && i in core.intents && a in AutomaticUnwinds(core, i)
    ensures core.actions[a].payload.attempt.Some?
    ensures core.actions[a].payload.attempt.value < core.intents[i].intent.maxUnwindAttempts
    ensures core.actions[a].payload.orderIndex
            == Some(core.intents[i].intent.unwindOrderIndex + core.actions[a].payload.attempt.value)
  {
    assert Owned(core, a) && OrderIndexOk(core, a) && IntentIndexOk(core, i);
  }

  lemma AttemptsDiffer(core: Core, i: nat, a: nat, b: nat)
    requires IndexInv(core) && i in core.intents && a in AutomaticUnwinds(core, i) && b in AutomaticUnwinds(core, i)
    requires core.actions[a].payload.attempt == core.actions[b].payload.attempt
    ensures a == b
  {
    AttemptOfAutomatic(core, i, a);
    AttemptOfAutomatic(core, i, b);
  }

  lemma AutomaticAreBounded(core: Core, i: nat)
    requires IndexInv(core) && i in core.intents
    ensures |AutomaticUnwinds(core, i)| <= core.intents[i].intent.maxUnwindAttempts
  {
    var ids := AutomaticUnwinds(core, i);
    var attempts := map a | a in ids :: core.actions[a].payload.attempt.Or(0);
    forall a | a in ids ensures attempts[a] < core.intents[i].intent.maxUnwindAttempts {
      AttemptOfAutomatic(core, i, a);
    }
    forall a, b | a in ids && b in ids && attempts[a] == attempts[b] ensures a == b {
      AttemptOfAutomatic(core, i, a);
      AttemptOfAutomatic(core, i, b);
      AttemptsDiffer(core, i, a, b);
    }
    InjectionIsBounded(ids, attempts, core.intents[i].intent.maxUnwindAttempts);
  }

  /** Without an operator no more unwind orders are ever created than the intent allows. */
  lemma AutomaticUnwindsAreBounded(steps: seq<Step>, i: nat)
    requires Run(steps) && i in After(steps).db.core.intents
    ensures |AutomaticUnwinds(After(steps).db.core, i)| <= After(steps).db.core.intents[i].intent.maxUnwindAttempts
  {
    EveryRunIsSound(steps);
    DbOf(After(steps));
    assert DbKeeps(After(steps).db, IndexFacet);
    AutomaticAreBounded(After(steps).db.core, i);
  }

  // ---------------------------------------------------------------- identifiers

  // The client order index of an order action, signed or not.
  function OrderIndexOf(core: Core, a: nat): (r: Option<nat>)
    requires a in core.actions && Owned(core, a)
  {
    if core.actions[a].kind.SubmitPerp? then Some(core.intents[core.actions[a].intentId].intent.clientOrderIndex)
    else core.actions[a].payload.orderIndex
  }

  lemma IndexIsOwned(core: Core, a: nat)
    requires IndexInv(core) && a in core.actions && Owned(core, a) && OrderKind(core.actions[a].kind)
    ensures OrderIndexOf(core, a).Some? && OrderIndexOf(core, a).value in core.orderIndexes
    ensures core.orderIndexes[OrderIndexOf(core, a).value] == core.actions[a].intentId
  {
    var i := core.actions[a].intentId;
    assert IntentIndexOk(core, i);
    if core.actions[a].kind.UnwindPerp? { assert OrderIndexOk(core, a); }
    else { assert IsReserved(core.intents[i].intent, core.intents[i].intent.clientOrderIndex); }
  }

  lemma ReservedRangesAreDisjoint(intent: P.PairIntent, k: nat)
    requires P.Valid(intent) && k < intent.maxUnwindAttempts
    ensures intent.unwindOrderIndex + k != intent.clientOrderIndex
  {
  }

  lemma EntryIsNoUnwind(core: Core, a: nat, b: nat)
    requires IndexInv(core) && a in core.actions && b in core.actions && Owned(core, a) && Owned(core, b)
    requires core.actions[a].kind.SubmitPerp? && core.actions[b].kind.UnwindPerp?
    requires core.actions[a].intentId == core.actions[b].intentId
    requires P.Valid(core.intents[core.actions[a].intentId].intent)
    ensures OrderIndexOf(core, a) != OrderIndexOf(core, b)
  {
    var i := core.actions[a].intentId;
    var p := core.actions[b].payload;
    assert OrderIndexOk(core, b) && IntentIndexOk(core, i);
    if p.attempt.Some? && p.attempt.value < Cursor(core, i)
       && p.orderIndex.value == core.intents[i].intent.unwindOrderIndex + p.attempt.value {
      ReservedRangesAreDisjoint(core.intents[i].intent, p.attempt.value);
    } else {
      assert IsReserved(core.intents[i].intent, core.intents[i].intent.clientOrderIndex);
    }
  }

  lemma IndexesDiffer(core: Core, a: nat, b: nat)
    requires IndexInv(core) && OneEntry(core) && IntentsValid(core) && a in core.actions && b in core.actions && a != b
    requires Owned(core, a) && Owned(core, b) && OrderKind(core.actions[a].kind) && OrderKind(core.actions[b].kind)
    ensures OrderIndexOf(core, a).Some? && OrderIndexOf(core, a) != OrderIndexOf(core, b)
  {
    IndexIsOwned(core, a);
    IndexIsOwned(core, b);
    if core.actions[a].intentId == core.actions[b].intentId {
      if core.actions[a].kind.SubmitPerp? { EntryIsNoUnwind(core, a, b); }
      else if core.actions[b].kind.SubmitPerp? { EntryIsNoUnwind(core, b, a); }
    }
  }

  /** No two order actions share a client order index, signed or not, across intents, attempts and operators. */
  lemma OrderIndexesAreUnique(steps: seq<Step>, a: nat, b: nat)
    requires Run(steps) && a in After(steps).db.core.actions && b in After(steps).db.core.actions && a != b
    requires OrderKind(After(steps).db.core.actions[a].kind) && OrderKind(After(steps).db.core.actions[b].kind)
    ensures var core := After(steps).db.core;
            && Owned(core, a) && Owned(core, b)
            && OrderIndexOf(core, a).Some? && OrderIndexOf(core, a) != OrderIndexOf(core, b)
  {
    var w := After(steps);
    EveryRunIsSound(steps);
    DbOf(w);
    assert DbKeeps(w.db, CoreFacet) && DbKeeps(w.db, IndexFacet) && DbKeeps(w.db, IntentFacet);
    IndexesDiffer(w.db.core, a, b);
  }

  /** Every signed order carries the index and the nonce of its own action. */
  lemma SignedOrdersCarryTheirIds(steps: seq<Step>, a: nat)
    requires Run(steps) && a in After(steps).db.core.actions && OrderKind(After(steps).db.core.actions[a].kind)
    requires After(steps).db.core.actions[a].results.signed.Some?
    ensures var db := After(steps).db;
            var o := db.core.actions[a].results.signed.value.order;
            && Owned(db.core, a) && OrderIndexOf(db.core, a) == Some(o.clientOrderIndex)
            && a in db.nonces.reservations && db.nonces.reservations[a].nonce == o.nonce
  {
    SoundCore(steps);
    assert Owned(After(steps).db.core, a);
    EveryRunIsSound(steps);
    DbOf(After(steps));
    assert DbKeeps(After(steps).db, SignatureFacet);
    assert SignedNonce(After(steps).db, a);
  }

  /** No two actions of one venue account and key ever hold the same nonce. */
  lemma NoncesAreUnique(steps: seq<Step>, a: nat, b: nat)
    requires Run(steps) && a != b
    requires a in After(steps).db.nonces.reservations && b in After(steps).db.nonces.reservations
    requires After(steps).db.nonces.reservations[a].scope == After(steps).db.nonces.reservations[b].scope
    ensures After(steps).db.nonces.reservations[a].nonce != After(steps).db.nonces.reservations[b].nonce
  {
    EveryRunIsSound(steps);
    DbOf(After(steps));
    assert DbKeeps(After(steps).db, NonceFacet);
  }

  /** No two intents share a spot-intent identifier, neither for the purchase nor for the sale. */
  lemma SpotIdsAreUnique(steps: seq<Step>, i: nat, j: nat)
    requires Run(steps) && i in After(steps).db.core.intents && j in After(steps).db.core.intents && i != j
    ensures ReservedSpotIds(After(steps).db.core.intents[i].intent) !! ReservedSpotIds(After(steps).db.core.intents[j].intent)
    ensures |ReservedSpotIds(After(steps).db.core.intents[i].intent)| == 2
  {
    var core := After(steps).db.core;
    EveryRunIsSound(steps);
    DbOf(After(steps));
    assert DbKeeps(After(steps).db, IndexFacet) && DbKeeps(After(steps).db, IntentFacet);
    assert IntentIndexOk(core, i) && IntentIndexOk(core, j);
  }

  /** Asking again, however much later, returns the nonce of the first time. */
  lemma NoncesAreStable(steps: seq<Step>, more: seq<Step>, a: nat, worker: nat, token: nat, scope: Scope, observed: nat)
    requires a in After(steps).db.nonces.reservations
    ensures match AssignLighterNonce(After(steps + more).db, a, worker, token, scope, observed)
            case NonceOk(db, n) => n == After(steps).db.nonces.reservations[a].nonce && db == After(steps + more).db
            case NonceDrift(db) => db.nonces == After(steps + more).db.nonces
            case NonceErr(_) => true
  {
    HistoryIsAppendOnly(steps, more);
    assert ExtendsIn(After(steps), After(steps + more), NonceAspect);
  }

  /** A new nonce is above every nonce reserved for the same account and key, and not below the observed one. */
  lemma NewNoncesIncrease(steps: seq<Step>, a: nat, worker: nat, token: nat, scope: Scope, observed: nat, b: nat)
    requires Run(steps) && a !in After(steps).db.nonces.reservations
    requires AssignLighterNonce(After(steps).db, a, worker, token, scope, observed).NonceOk?
    requires b in After(steps).db.nonces.reservations && After(steps).db.nonces.reservations[b].scope == scope
    ensures var n := AssignLighterNonce(After(steps).db, a, worker, token, scope, observed).nonce;
            n > After(steps).db.nonces.reservations[b].nonce && n >= observed
  {
    EveryRunIsSound(steps);
    DbOf(After(steps));
    assert DbKeeps(After(steps).db, NonceFacet);
  }

  // ---------------------------------------------------------------- decisions are accepted

  /**
   * Whatever a current leaseholder decides about an observation, the saga accepts it; the one
   * exception is an overfill that is no larger than the fill already recorded.
   */
  lemma DecisionsAreAccepted(steps: seq<Step>, t: nat, e: nat, now: nat)
    requires Run(steps) && t in After(steps).runs && Current(After(steps).db, After(steps).runs[t].claim)
    requires After(steps).runs[t].pc == Chosen(e) && e in After(steps).db.venue.events
    ensures var c, o := After(steps).runs[t].claim, After(steps).db.venue.events[e];
            match Decide(c, o.kind, o.observation, now)
            case Apply(event, _, _) => event.Some? ==> S.Apply(c.saga, event.value).Accepted?
            case Stop(cause) => S.Apply(c.saga, cause).Accepted?
            case Overfill(fill) => S.Apply(c.saga, S.PerpOverfilled(fill)).Accepted? <==> fill > c.saga.filled
            case Poisoned => true
  {
    var w := After(steps);
    EveryRunIsSound(steps);
    RunOf(w, t);
    CurrentIsHeld(w, t);
    StoredIsValid(w, e);
    var c, o := w.runs[t].claim, w.db.venue.events[e];
    var row := RowOf(w, t);
    DecidedIsAccepted(row, w.db.core.intents[row.intentId], c, o, now);
  }

  lemma DecidedIsAccepted(row: ActionRow, irow: IntentRow, c: Claim, o: V.VenueEvent, now: nat)
    requires Held(row, irow, c) && Reconciles(c.kind) && V.ValidEvent(o)
    ensures match Decide(c, o.kind, o.observation, now)
            case Apply(event, _, _) => event.Some? ==> S.Apply(c.saga, event.value).Accepted?
            case Stop(cause) => S.Apply(c.saga, cause).Accepted?
            case Overfill(fill) => S.Apply(c.saga, S.PerpOverfilled(fill)).Accepted? <==> fill > c.saga.filled
            case Poisoned => true
  {
    match Decide(c, o.kind, o.observation, now)
    case Apply(_, _, _) => DecisionObserves(row, irow, c, o, now, None, 0);
    case Stop(cause) =>
      DecidedStops(row, irow, c, o.kind, o.observation, now);
      FailureFits(row, irow, c, Some(cause));
    case Overfill(_) => OverfillDecided(c, o.kind, o.observation, now);
    case Poisoned =>
  }

  lemma OverfillIsRefused(w: World, t: nat, e: nat, fill: nat, env: Env)
    requires t in w.runs && RunOk(w.db, t, w.runs[t]) && w.runs[t].pc == OverfillHalted(e, fill)
    requires var c := w.runs[t].claim;
             Holds(w.db, c.actionId, c.worker, c.token) && fill <= c.saga.filled
    ensures ApplyOverfill(w, t, e, fill, env) == Goto(w, t, Poison)
    ensures Next(w, WorkOn(t, env)) == ApplyOverfill(w, t, e, fill, env)
  {
    var c := w.runs[t].claim;
    RefusedOverfill(w.db, c.actionId, c.worker, c.token, e, fill, Some(EmergencyUnwind(fill)), env.newId, env.draws);
  }

  /** The refused overfill: the database stays as it is and the run goes to its fail-safe stop. */
  lemma RefusedOverfillChangesNothing(steps: seq<Step>, t: nat, e: nat, fill: nat, env: Env)
    requires Run(steps) && t in After(steps).runs && After(steps).runs[t].pc == OverfillHalted(e, fill)
    requires var c := After(steps).runs[t].claim;
             Holds(After(steps).db, c.actionId, c.worker, c.token) && fill <= c.saga.filled
    ensures Next(After(steps), WorkOn(t, env)).db == After(steps).db
    ensures Next(After(steps), WorkOn(t, env)).runs[t].pc == Poison
  {
    EveryRunIsSound(steps);
    RunOf(After(steps), t);
    OverfillIsRefused(After(steps), t, e, fill, env);
  }

  // The saga events a submitting worker may ask for.
  predicate Submits(c: Claim, e: S.Event) {
    match c.kind
    case SubmitPerp => e == S.Event.PerpSubmitted || e == S.Event.Cancelled || e == S.Event.Expired
    case SubmitSpot => e == S.Event.SpotSubmitted || e == S.UnwindStarted
    case UnwindPerp | UnwindSpot => e == S.Event.Unhedged
    case _ => false
  }

  lemma HeldAccepts(row: ActionRow, irow: IntentRow, c: Claim, e: S.Event)
    requires Held(row, irow, c) && Submits(c, e)
    ensures S.Apply(c.saga, e).Accepted?
  {
  }

  /** Any submission, rejection or unwind a current leaseholder completes is accepted too. */
  lemma SubmissionsAreAccepted(steps: seq<Step>, t: nat, e: S.Event)
    requires Run(steps) && t in After(steps).runs && Current(After(steps).db, After(steps).runs[t].claim)
    requires !After(steps).runs[t].pc.Bound? && !After(steps).runs[t].pc.Done?
    requires Submits(After(steps).runs[t].claim, e)
    ensures S.Apply(After(steps).runs[t].claim.saga, e).Accepted?
  {
    var w := After(steps);
    EveryRunIsSound(steps);
    CurrentIsHeld(w, t);
    HeldAccepts(RowOf(w, t), w.db.core.intents[RowOf(w, t).intentId], w.runs[t].claim, e);
  }

  // ---------------------------------------------------------------- the venue log of a run

  /** In every run an applied observation has no missing predecessor and is neither late nor mismatched. */
  lemma AppliedInOrder(steps: seq<Step>, e: nat)
    requires Run(steps) && e in After(steps).db.venue.applied
    ensures var log := After(steps).db.venue;
            && e in log.events && V.KeyOf(log.events[e]) in log.sessions
            && V.Covers(V.Sequences(log.events, V.KeyOf(log.events[e])), log.sessions[V.KeyOf(log.events[e])].first,
                        log.events[e].sequence)
            && e in log.routes && log.routes[e] != V.Quarantined(V.Late) && log.routes[e] != V.Quarantined(V.Mismatch)
  {
    EveryRunIsSound(steps);
    DbOf(After(steps));
    VenueOf(After(steps).db);
    V.AppliedEventsAreInOrder(After(steps).db.venue, e);
  }

  /** Once applied, an observation stays applied to that action for good, and no later transaction applies it again. */
  lemma AppliedOnceForAll(steps: seq<Step>, more: seq<Step>, e: nat, a: nat, worker: nat, token: nat,
                          event: Option<S.Event>, complete: bool, orderId: Option<nat>, next: Option<NextAction>, id: nat,
                          draws: seq<nat>)
    requires e in After(steps).db.venue.applied
    ensures e in After(steps + more).db.venue.applied
    ensures After(steps + more).db.venue.applied[e] == After(steps).db.venue.applied[e]
    ensures ApplyVenueEvent(After(steps + more).db, a, worker, token, e, event, complete, orderId, next, id, draws).DbErr?
  {
    HistoryIsAppendOnly(steps, more);
    assert ExtendsIn(After(steps), After(steps + more), VenueAspect);
    AppliedIsRefused(After(steps + more).db, e, a, worker, token, event, complete, orderId, next, id, draws);
  }

  lemma AppliedIsRefused(db: Db, e: nat, a: nat, worker: nat, token: nat, event: Option<S.Event>, complete: bool,
                         orderId: Option<nat>, next: Option<NextAction>, id: nat, draws: seq<nat>)
    requires e in db.venue.applied
    ensures ApplyVenueEvent(db, a, worker, token, e, event, complete, orderId, next, id, draws).DbErr?
  {
  }

  // ---------------------------------------------------------------- events the workers never emit

  /** No run ever logs a restored hedge: an unwind, once begun, is only ever finished. */
  lemma HedgesAreNeverRestored(steps: seq<Step>, i: nat)
    requires Run(steps) && i in After(steps).db.core.intents
    ensures S.HedgeRestored !in After(steps).db.core.intents[i].log
  {
    SoundCore(steps);
    assert IntentOk(After(steps).db.core.intents[i], i);
  }
}
