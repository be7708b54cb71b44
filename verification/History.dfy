/**
 * The history is append-only: whatever the steps, logs only grow, finished actions never change,
 * nothing sent, granted, reserved, recorded or applied is taken back, and no lease comes back.
 */
module Histories {
  import opened Common
  import opened CoordinatorTypes
  import opened StoreOps
  import opened WorkerDecisions
  import opened Worlds
  import opened CoreMoves
  import opened CoreRequests
  import opened OutsideSteps
  import opened WorldInvariants
  import S = Sagas
  import P = PairIntents
  import X = ExitAuthorities
  import V = VenueLogs

  predicate RowExtends(r: ActionRow, n: ActionRow) {
    n.kind == r.kind && n.intentId == r.intentId && (!r.Live() ==> n == r)
  }

  ghost predicate IntentsExtend(core: Core, next: Core) {
    forall i | i in core.intents ::
      && i in next.intents && next.intents[i].intent == core.intents[i].intent
      && core.intents[i].log <= next.intents[i].log
  }

  ghost predicate ActionsExtend(core: Core, next: Core) {
    forall a | a in core.actions :: a in next.actions && RowExtends(core.actions[a], next.actions[a])
  }

  // No action is leased that was not leased just so before.
  ghost predicate LeasesKept(core: Core, next: Core) {
    forall a | a in next.actions && next.actions[a].status.Leased? ::
      a in core.actions && core.actions[a].status == next.actions[a].status
  }

  ghost predicate Extends(core: Core, next: Core) {
    IntentsExtend(core, next) && ActionsExtend(core, next) && LeasesKept(core, next)
  }

  ghost predicate RunsGrow(w: World, n: World) {
    forall t | t in w.runs :: t in n.runs && n.runs[t].claim == w.runs[t].claim
  }

  // A token that was handed out before is in no row it was not in before.
  ghost predicate TokensKept(w: World, n: World) {
    forall a | a in n.db.core.actions && n.db.core.actions[a].status.Leased?
               && n.db.core.actions[a].status.lease.token in w.runs ::
      a in w.db.core.actions && w.db.core.actions[a].status == n.db.core.actions[a].status
  }

  // As facets, so that a proof that only passes the fact on does not look inside.
  datatype Aspect = CoreAspect | SendAspect | GrantAspect | NonceAspect | VenueAspect | RunAspect | LeaseAspect

  ghost predicate ExtendsIn(w: World, n: World, aspect: Aspect) {
    match aspect
    case CoreAspect => IntentsExtend(w.db.core, n.db.core) && ActionsExtend(w.db.core, n.db.core)
    case SendAspect => w.sent <= n.sent && w.handed <= n.handed
    case GrantAspect => w.entryAuthorizations <= n.entryAuthorizations
    case NonceAspect => NoncesGrow(w.db.nonces, n.db.nonces)
    case VenueAspect => VenueGrows(w.db.venue, n.db.venue)
    case RunAspect => RunsGrow(w, n)
    case LeaseAspect => TokensKept(w, n)
  }

  ghost predicate WorldExtends(w: World, n: World) { forall x :: ExtendsIn(w, n, x) }

  lemma AspectsSuffice(w: World, n: World)
    requires IntentsExtend(w.db.core, n.db.core) && ActionsExtend(w.db.core, n.db.core) && TokensKept(w, n)
    requires w.sent <= n.sent && w.handed <= n.handed && w.entryAuthorizations <= n.entryAuthorizations && RunsGrow(w, n)
    requires NoncesGrow(w.db.nonces, n.db.nonces) && VenueGrows(w.db.venue, n.db.venue)
    ensures WorldExtends(w, n)
  {
    forall x ensures ExtendsIn(w, n, x) {
      match x case CoreAspect => case SendAspect => case GrantAspect => case NonceAspect => case VenueAspect =>
      case RunAspect => case LeaseAspect =>
    }
  }

  lemma ExtendsIntro(w: World, n: World)
    requires Extends(w.db.core, n.db.core) && w.sent <= n.sent && w.handed <= n.handed && w.entryAuthorizations <= n.entryAuthorizations
    requires NoncesGrow(w.db.nonces, n.db.nonces) && VenueGrows(w.db.venue, n.db.venue) && RunsGrow(w, n)
    ensures WorldExtends(w, n)
  {
    AspectsSuffice(w, n);
  }

  lemma SameCoreExtends(w: World, n: World)
    requires n.db.core == w.db.core && w.sent <= n.sent && w.handed <= n.handed && w.entryAuthorizations <= n.entryAuthorizations
    requires NoncesGrow(w.db.nonces, n.db.nonces) && VenueGrows(w.db.venue, n.db.venue) && RunsGrow(w, n)
    ensures WorldExtends(w, n)
  {
    SameExtends(w.db.core);
    ExtendsIntro(w, n);
  }

  ghost predicate ResultExtends(db: Db, r: DbResult) {
    r.DbOk? ==> Extends(db.core, r.db.core) && r.db.nonces == db.nonces && VenueGrows(db.venue, r.db.venue)
  }

  lemma Chain(a: Core, b: Core, c: Core)
    requires Extends(a, b) && Extends(b, c)
    ensures Extends(a, c)
  {
    ChainRows(a, b, c);
    forall x | x in c.actions && c.actions[x].status.Leased?
      ensures x in a.actions && a.actions[x].status == c.actions[x].status
    {
      assert x in b.actions && b.actions[x].status == c.actions[x].status;
    }
  }

  lemma ChainRows(a: Core, b: Core, c: Core)
    requires IntentsExtend(a, b) && IntentsExtend(b, c) && ActionsExtend(a, b) && ActionsExtend(b, c)
    ensures IntentsExtend(a, c) && ActionsExtend(a, c)
  {
    forall i | i in a.intents
      ensures i in c.intents && c.intents[i].intent == a.intents[i].intent && a.intents[i].log <= c.intents[i].log
    {
      assert i in b.intents;
    }
    forall x | x in a.actions ensures x in c.actions && RowExtends(a.actions[x], c.actions[x]) {
      assert x in b.actions && RowExtends(a.actions[x], b.actions[x]);
    }
  }

  // ---------------------------------------------------------------- the store

  lemma MoveExtends(core: Core, i: nat, e: Option<S.Event>)
    ensures MaybeTransition(core, i, e).CoreOk? ==> Extends(core, MaybeTransition(core, i, e).core)
  {
  }

  lemma EnqueueExtends(core: Core, i: nat, next: NextAction, id: nat, draws: seq<nat>, now: nat)
    requires i in core.intents
    ensures Enqueue(core, i, next, id, draws, now).CoreOk? ==> Extends(core, Enqueue(core, i, next, id, draws, now).core)
  {
    if Enqueue(core, i, next, id, draws, now).CoreOk? {
      var payload, base := EnqueueShape(core, i, next, id, draws, now);
    }
  }

  lemma PutExtends(core: Core, a: nat, row: ActionRow)
    requires a in core.actions && RowExtends(core.actions[a], row)
    requires row.status.Leased? ==> row.status == core.actions[a].status
    ensures Extends(core, core.(actions := core.actions[a := row]))
  {
  }

  lemma AdvanceExtends(core: Core, a: nat, row: ActionRow, e: Option<S.Event>, next: Option<NextAction>, id: nat,
                       draws: seq<nat>, now: nat)
    requires a in core.actions && RowExtends(core.actions[a], row)
    requires row.status.Leased? ==> row.status == core.actions[a].status
    ensures Advance(core, a, row, e, next, id, draws, now).CoreOk? ==>
              Extends(core, Advance(core, a, row, e, next, id, draws, now).core)
  {
    MoveExtends(core, row.intentId, e);
    if MaybeTransition(core, row.intentId, e).CoreOk? {
      var moved := MaybeTransition(core, row.intentId, e).core;
      PutExtends(moved, a, row);
      var closed := moved.(actions := moved.actions[a := row]);
      Chain(core, moved, closed);
      if next.Some? && row.intentId in closed.intents {
        EnqueueExtends(closed, row.intentId, next.value, id, draws, now);
        if Enqueue(closed, row.intentId, next.value, id, draws, now).CoreOk? {
          Chain(core, closed, Enqueue(closed, row.intentId, next.value, id, draws, now).core);
        }
      }
    }
  }

  lemma {:induction false} ResumeExtends(core: Core, i: nat, events: seq<S.Event>, next: NextAction, id: nat,
                                         draws: seq<nat>, now: nat)
    requires i in core.intents
    ensures Resume(core, i, events, next, id, draws, now).CoreOk? ==>
              Extends(core, Resume(core, i, events, next, id, draws, now).core)
    decreases |events|
  {
    if events == [] {
      EnqueueExtends(core, i, next, id, draws, now);
    } else if TransitionSaga(core, i, events[0]).CoreOk? {
      var moved := TransitionSaga(core, i, events[0]).core;
      MoveExtends(core, i, Some(events[0]));
      ResumeExtends(moved, i, events[1..], next, id, draws, now);
      if Resume(moved, i, events[1..], next, id, draws, now).CoreOk? {
        Chain(core, moved, Resume(moved, i, events[1..], next, id, draws, now).core);
      }
    }
  }

  lemma CompleteExtends(db: Db, a: nat, worker: nat, token: nat, e: Option<S.Event>, completion: Option<Submission>,
                        next: Option<NextAction>, id: nat, draws: seq<nat>)
    ensures ResultExtends(db, CompleteAction(db, a, worker, token, e, completion, next, id, draws))
  {
    if Holds(db, a, worker, token) {
      var row := db.core.actions[a];
      AdvanceExtends(db.core, a, row.(status := Succeeded, results := row.results.(completion := completion)), e, next,
                     id, draws, db.now);
    }
  }

  lemma StopExtends(db: Db, a: nat, worker: nat, token: nat, stop: ActionStop, e: Option<S.Event>)
    ensures ResultExtends(db, StopAction(db, a, worker, token, stop, e))
  {
    if Holds(db, a, worker, token) {
      var status := if stop.StopRejected? then Rejected else FailedSafe;
      AdvanceExtends(db.core, a, db.core.actions[a].(status := status), e, None, 0, [], db.now);
    }
  }

  lemma ContinueExtends(db: Db, a: nat, worker: nat, token: nat, e: Option<S.Event>, next: NextAction, id: nat)
    ensures ResultExtends(db, ContinueAmbiguous(db, a, worker, token, e, next, id))
  {
    if Holds(db, a, worker, token) {
      AdvanceExtends(db.core, a, db.core.actions[a].(status := Ambiguous), e, Some(next), id, [], db.now);
    }
  }

  lemma ApplyShape(db: Db, a: nat, worker: nat, token: nat, v: nat, e: Option<S.Event>, complete: bool,
                   orderId: Option<nat>, next: Option<NextAction>, id: nat, draws: seq<nat>)
    requires ApplyVenueEvent(db, a, worker, token, v, e, complete, orderId, next, id, draws).DbOk?
    ensures Holds(db, a, worker, token)
    ensures Advance(db.core, a, db.core.actions[a].(status := if complete then Succeeded else Pending,
                                                    results := NO_RESULTS.(orderId := orderId), availableAt := db.now + 1),
                    e, next, id, draws, db.now)
            == CoreOk(ApplyVenueEvent(db, a, worker, token, v, e, complete, orderId, next, id, draws).db.core)
    ensures ApplyVenueEvent(db, a, worker, token, v, e, complete, orderId, next, id, draws).db.nonces == db.nonces
    ensures VenueGrows(db.venue, ApplyVenueEvent(db, a, worker, token, v, e, complete, orderId, next, id, draws).db.venue)
  {
  }

  lemma ApplyExtends(db: Db, a: nat, worker: nat, token: nat, v: nat, e: Option<S.Event>, complete: bool,
                     orderId: Option<nat>, next: Option<NextAction>, id: nat, draws: seq<nat>, n: Db)
    requires ApplyVenueEvent(db, a, worker, token, v, e, complete, orderId, next, id, draws) == DbOk(n)
    ensures Extends(db.core, n.core) && n.nonces == db.nonces && VenueGrows(db.venue, n.venue)
  {
    ApplyShape(db, a, worker, token, v, e, complete, orderId, next, id, draws);
    var after := db.core.actions[a].(status := if complete then Succeeded else Pending,
                                     results := NO_RESULTS.(orderId := orderId), availableAt := db.now + 1);
    AdvanceExtends(db.core, a, after, e, next, id, draws, db.now);
  }

  // Every transaction that only rewrites a leased row.
  lemma RewriteExtends(db: Db, a: nat, worker: nat, token: nat, row: ActionRow)
    requires Leases(db, a, worker, token) && row.kind == db.core.actions[a].kind && row.intentId == db.core.actions[a].intentId
    requires row.status.Leased? ==> row.status == db.core.actions[a].status
    ensures Extends(db.core, PutAction(db, a, row).core)
  {
    PutExtends(db.core, a, row);
  }

  lemma ExitSendsExtend(db: Db, a: nat, worker: nat, token: nat, now: nat, quote: Option<X.ExitQuote>)
    ensures ResultExtends(db, AuthorizeUnwindSend(db, a, worker, token, now, quote))
    ensures ResultExtends(db, BindExitAuthority(db, a, worker, token, now, quote))
  {
    SameExtends(db.core);
    if AuthorizeUnwindSend(db, a, worker, token, now, quote).DbOk? {
      RewriteExtends(db, a, worker, token, AuthorizeUnwindSend(db, a, worker, token, now, quote).db.core.actions[a]);
    }
    if BindExitAuthority(db, a, worker, token, now, quote).DbOk? {
      RewriteExtends(db, a, worker, token, BindExitAuthority(db, a, worker, token, now, quote).db.core.actions[a]);
    }
  }

  lemma SameExtends(core: Core)
    ensures Extends(core, core)
  {
  }

  lemma CreateExtends(db: Db, intent: P.PairIntent, nowMs: nat, admitted: bool, id: nat)
    ensures ResultExtends(db, CreateIntent(db, intent, nowMs, admitted, id))
  {
    if CreateIntent(db, intent, nowMs, admitted, id).DbOk? {
      CreateShape(db, intent, nowMs, admitted, id);
      AdmitExtends(db.core, intent);
      EnqueueExtends(Admitted(db.core, intent), intent.id, ENTRY, id, [], db.now);
      Chain(db.core, Admitted(db.core, intent), CreateIntent(db, intent, nowMs, admitted, id).db.core);
    }
  }

  lemma AdmitExtends(core: Core, intent: P.PairIntent)
    requires intent.id != 0 && intent.id !in core.intents
    ensures Extends(core, Admitted(core, intent))
  {
  }

  lemma ExitExtends(db: Db, r: ExitRequest, nowMs: nat, quote: Option<X.ExitQuote>, id: nat, draws: seq<nat>)
    ensures ResultExtends(db, RequestExit(db, r, nowMs, quote, id, draws))
  {
    if RequestExit(db, r, nowMs, quote, id, draws).DbOk? {
      var s := db.core.intents[r.intentId].saga;
      var authority := X.Build(s.spot, quote.value, nowMs, r.submissionDeadline, r.reconciliationDeadline,
                               Some(r.price), Some(r.minimumOut)).value;
      var plan := ExitPlan(s, r.reason, authority).value;
      ResumeExtends(db.core, r.intentId, plan.0, plan.1, id, draws, db.now);
    }
  }

  lemma RecoveryExtends(db: Db, r: RecoveryRequest, nowMs: nat, candidates: seq<nat>, id: nat)
    ensures ResultExtends(db, RequestRecovery(db, r, nowMs, candidates, id))
  {
    if RequestRecovery(db, r, nowMs, candidates, id).DbOk? {
      var i := r.intentId;
      var source := FirstRecoverable(db.core, i, candidates).value;
      var s := db.core.intents[i].saga;
      var next := RecoverySuccessor(s, db.core.actions[source]).value;
      ResumeExtends(db.core, i, RecoveryEvents(s.state, next.0),
                    NextAction(next.0, RecoveryKey(source, next.0, r.requestedAt, r.reason), next.1), id, [], db.now);
    }
  }

  // ---------------------------------------------------------------- a run's awaits

  lemma CommitExtends(w: World, t: nat, r: DbResult, pc: Pc)
    requires t in w.runs && ResultExtends(w.db, r)
    ensures WorldExtends(w, Commit(w, t, r, pc))
  {
    SameExtends(w.db.core);
    ExtendsIntro(w, Commit(w, t, r, pc));
  }

  lemma RetryExtends(w: World, t: nat, env: Env)
    requires t in w.runs
    ensures WorldExtends(w, Retry(w, t, env))
  {
    var c := w.runs[t].claim;
    if Holds(w.db, c.actionId, c.worker, c.token) {
      RewriteExtends(w.db, c.actionId, c.worker, c.token,
                     w.db.core.actions[c.actionId].(status := Pending, availableAt := w.db.now + env.delay));
    }
    CommitExtends(w, t, RescheduleAction(w.db, c.actionId, c.worker, c.token, env.delay), Done);
  }

  lemma StopRunExtends(w: World, t: nat, stop: ActionStop, e: Option<S.Event>)
    requires t in w.runs
    ensures WorldExtends(w, StopRun(w, t, stop, e))
  {
    var c := w.runs[t].claim;
    StopExtends(w.db, c.actionId, c.worker, c.token, stop, e);
    CommitExtends(w, t, StopAction(w.db, c.actionId, c.worker, c.token, stop, e), Done);
  }

  lemma CompletePerpExtends(w: World, t: nat, s: Submission, env: Env)
    requires t in w.runs
    ensures WorldExtends(w, CompletePerp(w, t, s, env))
  {
    var c := w.runs[t].claim;
    var next := AfterPerpSubmission(c, s.txHash);
    if next.None? { SameCoreExtends(w, CompletePerp(w, t, s, env)); } else {
      CompleteExtends(w.db, c.actionId, c.worker, c.token, PerpSubmittedEvent(c), Some(s), next, env.newId, []);
      CommitExtends(w, t, CompleteAction(w.db, c.actionId, c.worker, c.token, PerpSubmittedEvent(c), Some(s), next,
                                         env.newId, []), Done);
    }
  }

  lemma ContinuePerpExtends(w: World, t: nat, hash: nat, env: Env)
    requires t in w.runs
    ensures WorldExtends(w, ContinuePerp(w, t, hash, env))
  {
    var c := w.runs[t].claim;
    var next := AfterPerpSubmission(c, hash);
    if next.None? { SameCoreExtends(w, ContinuePerp(w, t, hash, env)); } else {
      ContinueExtends(w.db, c.actionId, c.worker, c.token, PerpSubmittedEvent(c), next.value, env.newId);
      CommitExtends(w, t, ContinueAmbiguous(w.db, c.actionId, c.worker, c.token, PerpSubmittedEvent(c), next.value,
                                            env.newId), Done);
    }
  }

  lemma CompleteSpotExtends(w: World, t: nat, s: Submission, env: Env)
    requires t in w.runs
    ensures WorldExtends(w, CompleteSpot(w, t, s, env))
  {
    var c := w.runs[t].claim;
    var e := if c.kind.SubmitSpot? && !c.saga.state.SpotSubmitted? then Some(S.Event.SpotSubmitted) else None;
    var next := Some(AfterSpotSubmission(c, s.requestId, Some(s.txHash)));
    if c.kind.SubmitSpot? && !(c.saga.state.PerpPartial? || c.saga.state.PerpFilled? || c.saga.state.SpotSubmitted?) {
      SameCoreExtends(w, CompleteSpot(w, t, s, env));
    } else {
      CompleteExtends(w.db, c.actionId, c.worker, c.token, e, Some(s), next, env.newId, []);
      CommitExtends(w, t, CompleteAction(w.db, c.actionId, c.worker, c.token, e, Some(s), next, env.newId, []), Done);
    }
  }

  lemma BindExtends(w: World, t: nat, env: Env)
    requires t in w.runs
    ensures var c := w.runs[t].claim;
            WorldExtends(w, Commit(w, t, BindExitAuthority(w.db, c.actionId, c.worker, c.token, env.now, env.quote), Bound))
  {
    var c := w.runs[t].claim;
    ExitSendsExtend(w.db, c.actionId, c.worker, c.token, env.now, env.quote);
    CommitExtends(w, t, BindExitAuthority(w.db, c.actionId, c.worker, c.token, env.now, env.quote), Bound);
  }

  lemma PerpStartExtends(w: World, t: nat, env: Env)
    requires t in w.runs
    ensures WorldExtends(w, PerpStart(w, t, env))
  {
    var c := w.runs[t].claim;
    var unwind := c.kind.UnwindPerp?;
    var live := c.results.authorized.Some? && c.results.signed.Some?;
    if c.results.submission.Some? { CompletePerpExtends(w, t, c.results.submission.value, env); }
    else if unwind && ExitAuthorityOf(c).None? {
      if env.now > c.intent.emergencyDeadline { StopRunExtends(w, t, StopFailedSafe, None); } else { BindExtends(w, t, env); }
    } else if unwind && env.now > SubmissionDeadline(c) {
      if live { ContinuePerpExtends(w, t, c.results.signed.value.txHash, env); }
      else { StopRunExtends(w, t, StopFailedSafe, Some(S.Event.Unhedged)); }
    } else if !unwind && env.now > c.intent.deadline {
      if live { ContinuePerpExtends(w, t, c.results.signed.value.txHash, env); }
      else { StopRunExtends(w, t, StopRejected, Some(S.Event.Expired)); }
    } else if c.results.signed.None? && env.observed.None? { RetryExtends(w, t, env); }
    else { SameCoreExtends(w, PerpStart(w, t, env)); }
  }

  lemma SignExtends(w: World, t: nat, tx: SignedTx)
    requires t in w.runs
    ensures var c := w.runs[t].claim;
            WorldExtends(w, Commit(w, t, RecordSigned(w.db, c.actionId, c.worker, c.token, tx), HaveSigned(tx)))
  {
    var c := w.runs[t].claim;
    var r := RecordSigned(w.db, c.actionId, c.worker, c.token, tx);
    if r.DbOk? { RewriteExtends(w.db, c.actionId, c.worker, c.token, r.db.core.actions[c.actionId]); }
    CommitExtends(w, t, r, HaveSigned(tx));
  }

  lemma PerpSignExtends(w: World, t: nat, nonce: nat, env: Env)
    requires t in w.runs
    ensures WorldExtends(w, PerpSign(w, t, nonce, env))
  {
    match LighterRequest(w.runs[t].claim, nonce) {
      case None => SameCoreExtends(w, PerpSign(w, t, nonce, env));
      case Some(order) =>
        match env.signer {
          case SignedBy(hash, encodable) => SignExtends(w, t, SignedTx(hash, order, encodable));
          case SignerBusy => RetryExtends(w, t, env);
          case SignerRefused =>
            if w.runs[t].claim.kind.UnwindPerp? { StopRunExtends(w, t, StopFailedSafe, Some(S.Event.Unhedged)); }
            else { StopRunExtends(w, t, StopRejected, Some(S.Event.Cancelled)); }
        }
    }
  }

  lemma EntryGrantExtends(db: Db, a: nat, worker: nat, token: nat, claimed: nat)
    ensures ResultExtends(db, AuthorizeEntrySend(db, a, worker, token, claimed))
  {
    var r := AuthorizeEntrySend(db, a, worker, token, claimed);
    if r.DbOk? { RewriteExtends(db, a, worker, token, r.db.core.actions[a]); }
  }

  lemma PerpAuthorizeExtends(w: World, t: nat, tx: SignedTx, env: Env)
    requires t in w.runs
    ensures WorldExtends(w, PerpAuthorize(w, t, tx, env))
  {
    var c := w.runs[t].claim;
    var r := if c.kind.UnwindPerp? then AuthorizeUnwindSend(w.db, c.actionId, c.worker, c.token, env.now, env.quote)
             else AuthorizeEntrySend(w.db, c.actionId, c.worker, c.token, c.controlVersion);
    assert ResultExtends(w.db, r) by {
      ExitSendsExtend(w.db, c.actionId, c.worker, c.token, env.now, env.quote);
      EntryGrantExtends(w.db, c.actionId, c.worker, c.token, c.controlVersion);
    }
    if r.DbErr? { SameCoreExtends(w, PerpAuthorize(w, t, tx, env)); } else { ExtendsIntro(w, PerpAuthorize(w, t, tx, env)); }
  }

  lemma PerpGiveUpExtends(w: World, t: nat, tx: SignedTx, refused: bool, env: Env)
    requires t in w.runs
    ensures WorldExtends(w, PerpGiveUp(w, t, tx, refused, env))
  {
    ContinuePerpExtends(w, t, tx.txHash, env);
    StopRunExtends(w, t, StopFailedSafe, if refused then None else Some(S.Event.Unhedged));
    StopRunExtends(w, t, StopRejected, Some(S.Event.Cancelled));
  }

  lemma PersistRequestExtends(w: World, t: nat)
    requires t in w.runs
    ensures WorldExtends(w, PersistRequest(w, t))
  {
    var c := w.runs[t].claim;
    var expected := ExpectedRequest(c);
    if expected.None? || !RequestAgrees(c, expected.value) || c.results.request.Some? {
      SameCoreExtends(w, PersistRequest(w, t));
    } else {
      var r := RecordRequest(w.db, c.actionId, c.worker, c.token, expected.value);
      if r.DbOk? { RewriteExtends(w.db, c.actionId, c.worker, c.token, r.db.core.actions[c.actionId]); }
      CommitExtends(w, t, r, Requested(expected.value));
    }
  }

  lemma SpotStartExtends(w: World, t: nat, env: Env)
    requires t in w.runs
    ensures WorldExtends(w, SpotStart(w, t, env))
  {
    var c := w.runs[t].claim;
    if Positive(c.payload.filledBase).None? { SameCoreExtends(w, SpotStart(w, t, env)); }
    else if c.results.submission.Some? { CompleteSpotExtends(w, t, c.results.submission.value, env); }
    else if env.now > c.intent.deadline && !Attempted(c) { SameCoreExtends(w, SpotStart(w, t, env)); }
    else if P.SpotAmountsForFill(c.intent, c.payload.filledBase.value).None? { SameCoreExtends(w, SpotStart(w, t, env)); }
    else { PersistRequestExtends(w, t); }
  }

  lemma SpotAnsweredExtends(w: World, t: nat, request: SpotRequest, env: Env)
    requires t in w.runs
    ensures WorldExtends(w, SpotAnswered(w, t, request, env))
  {
    var c := w.runs[t].claim;
    match env.spot {
      case SpotAccepted(_) => SameCoreExtends(w, SpotAnswered(w, t, request, env));
      case SpotConflict =>
        var e := if c.kind.SubmitSpot? then Some(S.Event.SpotSubmitted) else None;
        var next := AfterSpotSubmission(c, request.requestId, None);
        ContinueExtends(w.db, c.actionId, c.worker, c.token, e, next, env.newId);
        CommitExtends(w, t, ContinueAmbiguous(w.db, c.actionId, c.worker, c.token, e, next, env.newId), Done);
      case SpotRefused =>
        if c.kind.SubmitSpot? { SameCoreExtends(w, SpotAnswered(w, t, request, env)); }
        else { StopRunExtends(w, t, StopFailedSafe, Some(S.Event.Unhedged)); }
      case SpotBusy => RetryExtends(w, t, env);
    }
  }

  lemma SpotExecuteExtends(w: World, t: nat, request: SpotRequest, env: Env)
    requires t in w.runs
    ensures WorldExtends(w, SpotAnswered(HandOver(w, t, request), t, request, env))
  {
    var handed := HandOver(w, t, request);
    SameCoreExtends(w, handed);
    SpotAnsweredExtends(handed, t, request, env);
    ChainWorlds(w, handed, SpotAnswered(handed, t, request, env));
  }

  lemma ScheduleUnwindExtends(w: World, t: nat, env: Env)
    requires t in w.runs
    ensures WorldExtends(w, ScheduleUnwind(w, t, env))
  {
    var c := w.runs[t].claim;
    if c.payload.filledBase.None? { SameCoreExtends(w, ScheduleUnwind(w, t, env)); } else {
      var next := Some(EmergencyUnwind(c.payload.filledBase.value));
      CompleteExtends(w.db, c.actionId, c.worker, c.token, Some(S.UnwindStarted), None, next, env.newId, env.draws);
      CommitExtends(w, t, CompleteAction(w.db, c.actionId, c.worker, c.token, Some(S.UnwindStarted), None, next, env.newId,
                                         env.draws), Done);
    }
  }

  lemma ClearSpotExtends(w: World, t: nat, env: Env)
    requires t in w.runs
    ensures var c := w.runs[t].claim;
            WorldExtends(w, match AuthorizeUnwindSend(w.db, c.actionId, c.worker, c.token, env.now, env.quote)
                            case DbOk(db) => Goto(w.(db := db), t, SpotCleared)
                            case DbErr(e) => Goto(w, t, if e.MarketAuthorityUnavailable? then SpotSendRefused else FailPc(e)))
  {
    var c := w.runs[t].claim;
    ExitSendsExtend(w.db, c.actionId, c.worker, c.token, env.now, env.quote);
    match AuthorizeUnwindSend(w.db, c.actionId, c.worker, c.token, env.now, env.quote) {
      case DbOk(db) => ExtendsIntro(w, Goto(w.(db := db), t, SpotCleared));
      case DbErr(e) => SameCoreExtends(w, Goto(w, t, if e.MarketAuthorityUnavailable? then SpotSendRefused else FailPc(e)));
    }
  }

  lemma UnwindSpotStartExtends(w: World, t: nat, env: Env)
    requires t in w.runs
    ensures WorldExtends(w, UnwindSpotStart(w, t, env))
  {
    var c := w.runs[t].claim;
    if Positive(c.payload.spotAmount).None? { SameCoreExtends(w, UnwindSpotStart(w, t, env)); }
    else if c.results.submission.Some? { CompleteSpotExtends(w, t, c.results.submission.value, env); }
    else if Attempted(c) || c.results.authorized.Some? { SameCoreExtends(w, UnwindSpotStart(w, t, env)); }
    else if env.now > SubmissionDeadline(c) { StopRunExtends(w, t, StopFailedSafe, Some(S.Event.Unhedged)); }
    else { ClearSpotExtends(w, t, env); }
  }

  lemma ReconcileStartExtends(w: World, t: nat, env: Env)
    requires t in w.runs
    ensures WorldExtends(w, ReconcileStart(w, t, env))
  {
    if env.event.None? && !env.overdue { RetryExtends(w, t, env); }
    else { SameCoreExtends(w, ReconcileStart(w, t, env)); }
  }

  lemma ObservationExtends(w: World, t: nat, v: nat, e: Option<S.Event>, complete: bool, orderId: Option<nat>,
                           next: Option<NextAction>, env: Env)
    requires t in w.runs
    ensures var c := w.runs[t].claim;
            WorldExtends(w, Commit(w, t, ApplyVenueEvent(w.db, c.actionId, c.worker, c.token, v, e, complete, orderId, next,
                                                         env.newId, env.draws), Done))
  {
    var c := w.runs[t].claim;
    var r := ApplyVenueEvent(w.db, c.actionId, c.worker, c.token, v, e, complete, orderId, next, env.newId, env.draws);
    if r.DbOk? {
      ApplyExtends(w.db, c.actionId, c.worker, c.token, v, e, complete, orderId, next, env.newId, env.draws, r.db);
    }
    CommitExtends(w, t, r, Done);
  }

  lemma ReconcileChosenExtends(w: World, t: nat, v: nat, env: Env)
    requires t in w.runs
    ensures WorldExtends(w, ReconcileChosen(w, t, v, env))
  {
    if v !in w.db.venue.events { SameCoreExtends(w, w); } else {
      var o := w.db.venue.events[v];
      match Decide(w.runs[t].claim, o.kind, o.observation, env.now) {
        case Apply(e, complete, next) =>
          var orderId := if o.observation.PerpObservation? then Some(o.observation.orderId) else None;
          ObservationExtends(w, t, v, e, complete, orderId, next, env);
        case Stop(cause) => StopRunExtends(w, t, StopFailedSafe, Some(cause));
        case Overfill(fill) => SameCoreExtends(w, HaltAnd(w, t, OverfillHalted(v, fill)));
        case Poisoned => SameCoreExtends(w, Goto(w, t, Poison));
      }
    }
  }

  lemma StartExtends(w: World, t: nat, env: Env)
    requires t in w.runs && w.runs[t].pc.Start?
    ensures WorldExtends(w, Work(w, t, env))
  {
    match w.runs[t].claim.kind
    case SubmitPerp => PerpStartExtends(w, t, env);
    case UnwindPerp => PerpStartExtends(w, t, env);
    case SubmitSpot => SpotStartExtends(w, t, env);
    case UnwindSpot => UnwindSpotStartExtends(w, t, env);
    case _ => ReconcileStartExtends(w, t, env);
  }

  lemma RecordSubmissionExtends(w: World, t: nat, s: Submission)
    requires t in w.runs
    ensures var c := w.runs[t].claim;
            WorldExtends(w, Commit(w, t, RecordSubmission(w.db, c.actionId, c.worker, c.token, s), Recorded(s)))
  {
    var c := w.runs[t].claim;
    var r := RecordSubmission(w.db, c.actionId, c.worker, c.token, s);
    if r.DbOk? { RewriteExtends(w.db, c.actionId, c.worker, c.token, r.db.core.actions[c.actionId]); }
    CommitExtends(w, t, r, Recorded(s));
  }

  predicate Sending(pc: Pc) {
    pc.NonceAssigned? || pc.HaveSigned? || pc.Cleared? || pc.SendRefused? || pc.MaySend? || pc.CannotEncode? || pc.Unclear?
  }

  lemma SendingExtends(w: World, t: nat, env: Env)
    requires t in w.runs && Sending(w.runs[t].pc)
    ensures WorldExtends(w, Work(w, t, env))
  {
    match w.runs[t].pc
    case NonceAssigned(nonce) => PerpSignExtends(w, t, nonce, env);
    case Cleared(tx) => PerpAuthorizeExtends(w, t, tx, env);
    case SendRefused(tx) => PerpGiveUpExtends(w, t, tx, true, env);
    case CannotEncode(tx) => PerpGiveUpExtends(w, t, tx, false, env);
    case Unclear(tx) => ContinuePerpExtends(w, t, tx.txHash, env);
    case HaveSigned(tx) => SameCoreExtends(w, Work(w, t, env));
    case MaySend(tx) => SameCoreExtends(w, PerpBroadcast(w, t, tx, env));
  }

  lemma RecordedExtends(w: World, t: nat, s: Submission, env: Env)
    requires t in w.runs && w.runs[t].pc == Recorded(s)
    ensures WorldExtends(w, Work(w, t, env))
  {
    if OrderKind(w.runs[t].claim.kind) { CompletePerpExtends(w, t, s, env); } else { CompleteSpotExtends(w, t, s, env); }
  }

  lemma OverfillExtends(w: World, t: nat, v: nat, fill: nat, env: Env)
    requires t in w.runs
    ensures WorldExtends(w, ApplyOverfill(w, t, v, fill, env))
  {
    ObservationExtends(w, t, v, Some(S.PerpOverfilled(fill)), true, None, Some(EmergencyUnwind(fill)), env);
  }

  lemma WorkAtPoison(w: World, t: nat, env: Env)
    requires t in w.runs && w.runs[t].pc.Poison?
    ensures Work(w, t, env) == StopRun(w, t, StopFailedSafe, None)
  {
  }

  lemma WorkAtRetry(w: World, t: nat, env: Env)
    requires t in w.runs && (w.runs[t].pc.Bound? || w.runs[t].pc.Retrying?)
    ensures Work(w, t, env) == Retry(w, t, env)
  {
  }

  predicate Leaving(pc: Pc) { pc.Bound? || pc.Retrying? || pc.Poison? || pc.Done? }

  lemma LeavingExtends(w: World, t: nat, env: Env)
    requires t in w.runs && Leaving(w.runs[t].pc)
    ensures WorldExtends(w, Work(w, t, env))
  {
    match w.runs[t].pc
    case Bound =>
      WorkAtRetry(w, t, env);
      RetryExtends(w, t, env);
    case Retrying =>
      WorkAtRetry(w, t, env);
      RetryExtends(w, t, env);
    case Poison =>
      WorkAtPoison(w, t, env);
      StopRunExtends(w, t, StopFailedSafe, None);
    case Done => SameCoreExtends(w, w);
  }

  lemma WorkExtends(w: World, t: nat, env: Env)
    requires t in w.runs
    ensures WorldExtends(w, Work(w, t, env))
  {
    if Sending(w.runs[t].pc) { SendingExtends(w, t, env); }
    else if Leaving(w.runs[t].pc) { LeavingExtends(w, t, env); }
    else {
      match w.runs[t].pc
      case Start => StartExtends(w, t, env);
      case Accepted(s) => RecordSubmissionExtends(w, t, s);
      case Recorded(s) => RecordedExtends(w, t, s, env);
      case Chosen(v) => ReconcileChosenExtends(w, t, v, env);
      case OverfillHalted(v, fill) => OverfillExtends(w, t, v, fill, env);
      case MustUnwind => SameCoreExtends(w, HaltAnd(w, t, HaltedToUnwind));
      case HaltedToUnwind => ScheduleUnwindExtends(w, t, env);
      case SpotCleared => PersistRequestExtends(w, t);
      case SpotSendRefused => StopRunExtends(w, t, StopFailedSafe, None);
      case Requested(request) => SpotExecuteExtends(w, t, request, env);
    }
  }

  lemma KeptExtends(w: World, r: DbResult)
    requires ResultExtends(w.db, r)
    ensures WorldExtends(w, OrKeep(w, r))
  {
    SameExtends(w.db.core);
    ExtendsIntro(w, OrKeep(w, r));
  }

  lemma LeaseExtends(w: World, a: nat, worker: nat, token: nat, leaseFor: nat)
    ensures WorldExtends(w, Next(w, TakeLease(a, worker, token, leaseFor)))
  {
    var n := Next(w, TakeLease(a, worker, token, leaseFor));
    SameExtends(w.db.core);
    AspectsSuffice(w, n);
  }

  lemma EventExtends(w: World, e: V.VenueEvent, id: nat)
    ensures WorldExtends(w, Next(w, RecordEvent(e, id)))
  {
    if V.ValidEvent(e) && e.intentId in w.db.core.intents && id !in w.db.venue.events { RecordGrows(w.db.venue, e, id); }
    SameCoreExtends(w, Next(w, RecordEvent(e, id)));
  }

  /** One step of the world. */
  lemma StepExtends(w: World, s: Step)
    ensures WorldExtends(w, Next(w, s))
  {
    match s
    case Tick(_) => SameCoreExtends(w, Next(w, s));
    case SetMode(_, _) => SameCoreExtends(w, Next(w, s));
    case HaltNow => SameCoreExtends(w, Next(w, s));
    case Create(intent, nowMs, admitted, id) =>
      CreateExtends(w.db, intent, nowMs, admitted, id);
      KeptExtends(w, CreateIntent(w.db, intent, nowMs, admitted, id));
    case Exit(request, nowMs, quote, id, draws) =>
      ExitExtends(w.db, request, nowMs, quote, id, draws);
      KeptExtends(w, RequestExit(w.db, request, nowMs, quote, id, draws));
    case Recover(r, nowMs, candidates, id) =>
      RecoveryExtends(w.db, r, nowMs, candidates, id);
      KeptExtends(w, RequestRecovery(w.db, r, nowMs, candidates, id));
    case RecordEvent(event, id) => EventExtends(w, event, id);
    case TakeLease(a, worker, token, leaseFor) => LeaseExtends(w, a, worker, token, leaseFor);
    case WorkOn(token, env) => if token in w.runs { WorkExtends(w, token, env); } else { SameCoreExtends(w, w); }
  }

  lemma ChainWorlds(a: World, b: World, c: World)
    requires WorldExtends(a, b) && WorldExtends(b, c)
    ensures WorldExtends(a, c)
  {
    assert ExtendsIn(a, b, CoreAspect) && ExtendsIn(b, c, CoreAspect);
    ChainRows(a.db.core, b.db.core, c.db.core);
    forall x ensures ExtendsIn(a, c, x) {
      if !x.CoreAspect? { ChainAspect(a, b, c, x); }
    }
  }

  lemma ChainAspect(a: World, b: World, c: World, x: Aspect)
    requires !x.CoreAspect? && WorldExtends(a, b) && WorldExtends(b, c)
    ensures ExtendsIn(a, c, x)
  {
    assert ExtendsIn(a, b, x) && ExtendsIn(b, c, x);
    match x {
      case SendAspect =>
      case GrantAspect =>
      case NonceAspect =>
      case VenueAspect =>
      case RunAspect =>
      case LeaseAspect => assert ExtendsIn(a, b, RunAspect);
    }
  }

  /** Any number of further steps. */
  lemma {:induction false} HistoryIsAppendOnly(steps: seq<Step>, more: seq<Step>)
    ensures WorldExtends(After(steps), After(steps + more))
    decreases |more|
  {
    if more == [] {
      assert steps + more == steps;
      SameCoreExtends(After(steps), After(steps));
    } else {
      var front, last := more[..|more|-1], more[|more|-1];
      HistoryIsAppendOnly(steps, front);
      var all := steps + more;
      assert all[..|all|-1] == steps + front && all[|all|-1] == last;
      StepExtends(After(steps + front), last);
      ChainWorlds(After(steps), After(steps + front), After(all));
    }
  }
}
