/**
 * What a worker can still do once its lease is gone, and which awaits reach the venue.
 */
module LostLeases {
  import opened Common
  import opened CoordinatorTypes
  import opened StoreOps
  import opened WorkerDecisions
  import opened Worlds
  import opened WorldInvariants
  import opened Histories

  // ---------------------------------------------------------------- which awaits reach outside

  // The Lighter order the next await broadcasts.
  function Broadcasts(w: World, t: nat): (r: seq<(nat, SignedTx)>)
    requires t in w.runs
  {
    if w.runs[t].pc.MaySend? && w.runs[t].pc.tx.encodable then [(w.runs[t].claim.actionId, w.runs[t].pc.tx)] else []
  }

  // The spot request the next await hands to the signer.
  function Requests(w: World, t: nat): (r: seq<(nat, SpotRequest)>)
    requires t in w.runs
  {
    if w.runs[t].pc.Requested? then [(w.runs[t].claim.actionId, w.runs[t].pc.request)] else []
  }

  predicate Reaches(w: World, n: World, t: nat)
    requires t in w.runs
  {
    n.sent == w.sent + Broadcasts(w, t) && n.handed == w.handed + Requests(w, t)
  }

  lemma SendingReaches(w: World, t: nat, env: Env)
    requires t in w.runs && Sending(w.runs[t].pc)
    ensures Reaches(w, Work(w, t, env), t)
  {
  }

  lemma StartReaches(w: World, t: nat, env: Env)
    requires t in w.runs && w.runs[t].pc.Start?
    ensures Reaches(w, Work(w, t, env), t)
  {
    match w.runs[t].claim.kind
    case SubmitPerp =>
    case UnwindPerp =>
    case SubmitSpot =>
    case UnwindSpot =>
    case _ =>
  }

  lemma ObservingReaches(w: World, t: nat, env: Env)
    requires t in w.runs && (w.runs[t].pc.Chosen? || w.runs[t].pc.OverfillHalted?)
    ensures Reaches(w, Work(w, t, env), t)
  {
  }

  lemma RequestedReaches(w: World, t: nat, env: Env)
    requires t in w.runs && w.runs[t].pc.Requested?
    ensures Reaches(w, Work(w, t, env), t)
  {
  }

  /**
   * An await broadcasts a Lighter order exactly if it is past its authorization with a transaction it
   * can encode, hands a spot request over exactly at its request, and reaches outside in no other way.
   */
  lemma ReachesExactly(w: World, t: nat, env: Env)
    requires t in w.runs
    ensures Next(w, WorkOn(t, env)).sent == w.sent + Broadcasts(w, t)
    ensures Next(w, WorkOn(t, env)).handed == w.handed + Requests(w, t)
  {
    if Sending(w.runs[t].pc) { SendingReaches(w, t, env); }
    else if w.runs[t].pc.Start? { StartReaches(w, t, env); }
    else if w.runs[t].pc.Chosen? || w.runs[t].pc.OverfillHalted? { ObservingReaches(w, t, env); }
    else if w.runs[t].pc.Requested? { RequestedReaches(w, t, env); }
  }

  // ---------------------------------------------------------------- a worker without its lease

  predicate Stale(w: World, t: nat) { t in w.runs && !Current(w.db, w.runs[t].claim) }

  // The await changed no table a lease protects, and did not authorize a send.
  predicate Harmless(w: World, n: World, t: nat)
    requires t in w.runs
  {
    && n.db.core == w.db.core && n.db.nonces == w.db.nonces
    && t in n.runs && n.runs[t].claim == w.runs[t].claim && !n.runs[t].pc.MaySend?
  }

  lemma StaleStart(w: World, t: nat, env: Env)
    requires Stale(w, t) && w.runs[t].pc.Start?
    ensures Harmless(w, Work(w, t, env), t)
  {
    match w.runs[t].claim.kind
    case SubmitPerp => StalePerpStart(w, t, env);
    case UnwindPerp => StalePerpStart(w, t, env);
    case SubmitSpot =>
    case UnwindSpot =>
    case _ =>
  }

  lemma StalePerpStart(w: World, t: nat, env: Env)
    requires Stale(w, t) && w.runs[t].pc.Start?
    ensures Harmless(w, PerpStart(w, t, env), t)
  {
  }

  lemma StaleSending(w: World, t: nat, env: Env)
    requires Stale(w, t) && Sending(w.runs[t].pc)
    ensures Harmless(w, Work(w, t, env), t)
  {
  }

  lemma StaleObserving(w: World, t: nat, env: Env)
    requires Stale(w, t) && (w.runs[t].pc.Chosen? || w.runs[t].pc.OverfillHalted?)
    ensures Harmless(w, Work(w, t, env), t)
  {
  }

  lemma StaleRequested(w: World, t: nat, env: Env)
    requires Stale(w, t) && w.runs[t].pc.Requested?
    ensures Harmless(w, Work(w, t, env), t)
  {
  }

  /** Without its lease no await of a worker changes an action, an intent, an index or a nonce, or authorizes a send. */
  lemma StaleIsHarmless(w: World, t: nat, env: Env)
    requires Stale(w, t)
    ensures Harmless(w, Next(w, WorkOn(t, env)), t)
  {
    if Sending(w.runs[t].pc) { StaleSending(w, t, env); }
    else if w.runs[t].pc.Start? { StaleStart(w, t, env); }
    else if w.runs[t].pc.Chosen? || w.runs[t].pc.OverfillHalted? { StaleObserving(w, t, env); }
    else if w.runs[t].pc.Requested? { StaleRequested(w, t, env); }
  }

  // ---------------------------------------------------------------- for good

  // What a later world keeps of a worker that lost its lease.
  predicate StillLost(w: World, n: World, t: nat)
    requires t in w.runs
  {
    Stale(n, t) && (n.runs[t].pc.MaySend? ==> n.runs[t].pc == w.runs[t].pc)
  }

  lemma OtherStepsKeepRun(w: World, t: nat, s: Step)
    requires t in w.runs && !(s.WorkOn? && s.token == t)
    ensures t in Next(w, s).runs && Next(w, s).runs[t] == w.runs[t]
  {
    if s.WorkOn? && s.token in w.runs { OthersKeepRun(w, t, s.token, s.env); }
  }

  lemma OthersKeepRun(w: World, t: nat, u: nat, env: Env)
    requires t in w.runs && u in w.runs && u != t
    ensures t in Work(w, u, env).runs && Work(w, u, env).runs[t] == w.runs[t]
  {
    if Sending(w.runs[u].pc) { }
    else if w.runs[u].pc.Start? { OthersKeepRunAtStart(w, t, u, env); }
    else if w.runs[u].pc.Chosen? || w.runs[u].pc.OverfillHalted? { }
  }

  lemma OthersKeepRunAtStart(w: World, t: nat, u: nat, env: Env)
    requires t in w.runs && u in w.runs && u != t && w.runs[u].pc.Start?
    ensures t in Work(w, u, env).runs && Work(w, u, env).runs[t] == w.runs[t]
  {
    match w.runs[u].claim.kind
    case SubmitPerp =>
    case UnwindPerp =>
    case SubmitSpot =>
    case UnwindSpot =>
    case _ =>
  }

  lemma StepKeepsLost(w: World, t: nat, s: Step)
    requires Stale(w, t) && w.runs[t].claim.token == t
    ensures StillLost(w, Next(w, s), t) && Next(w, s).runs[t].claim == w.runs[t].claim
  {
    var n := Next(w, s);
    StepExtends(w, s);
    assert ExtendsIn(w, n, LeaseAspect) && ExtendsIn(w, n, RunAspect);
    if s.WorkOn? && s.token == t { StaleIsHarmless(w, t, s.env); } else { OtherStepsKeepRun(w, t, s); }
  }

  // ---------------------------------------------------------------- a spot request it still carries

  // The claim brought a persisted request with it, and it is the one the action must send.
  predicate Carries(c: Claim) {
    c.results.request.Some? && ExpectedRequest(c).Some? && RequestAgrees(c, ExpectedRequest(c).value)
  }

  // Nothing between here and the signer asks for the lease.
  predicate Armed(w: World, t: nat) {
    && t in w.runs
    && var c := w.runs[t].claim;
    match w.runs[t].pc
    case Requested(_) => true
    case SpotCleared => Carries(c)
    case Start => SpotKind(c.kind) && Carries(c) && c.results.submission.None?
    case _ => false
  }

  lemma StaleStartArms(w: World, t: nat, env: Env)
    requires Stale(w, t) && w.runs[t].pc.Start?
    ensures Armed(Work(w, t, env), t) ==> Armed(w, t)
  {
    match w.runs[t].claim.kind
    case SubmitPerp => StalePerpStartArms(w, t, env);
    case UnwindPerp => StalePerpStartArms(w, t, env);
    case SubmitSpot => StaleSpotStartArms(w, t, env);
    case UnwindSpot => StaleUnwindSpotStartArms(w, t, env);
    case _ => StaleReconcileStartArms(w, t, env);
  }

  lemma StalePerpStartArms(w: World, t: nat, env: Env)
    requires Stale(w, t) && w.runs[t].pc.Start? && OrderKind(w.runs[t].claim.kind)
    ensures !Armed(PerpStart(w, t, env), t)
  {
  }

  lemma StaleSpotStartArms(w: World, t: nat, env: Env)
    requires Stale(w, t) && w.runs[t].pc.Start? && w.runs[t].claim.kind.SubmitSpot?
    ensures Armed(SpotStart(w, t, env), t) ==> Armed(w, t)
  {
  }

  lemma StaleUnwindSpotStartArms(w: World, t: nat, env: Env)
    requires Stale(w, t) && w.runs[t].pc.Start? && w.runs[t].claim.kind.UnwindSpot?
    ensures Armed(UnwindSpotStart(w, t, env), t) ==> Armed(w, t)
  {
  }

  lemma StaleReconcileStartArms(w: World, t: nat, env: Env)
    requires Stale(w, t) && w.runs[t].pc.Start? && !SpotKind(w.runs[t].claim.kind)
    ensures !Armed(ReconcileStart(w, t, env), t)
  {
  }

  lemma StaleSendingArms(w: World, t: nat, env: Env)
    requires Stale(w, t) && Sending(w.runs[t].pc)
    ensures !Armed(Work(w, t, env), t)
  {
  }

  lemma StaleObservingArms(w: World, t: nat, env: Env)
    requires Stale(w, t) && (w.runs[t].pc.Chosen? || w.runs[t].pc.OverfillHalted?)
    ensures !Armed(Work(w, t, env), t)
  {
  }

  lemma StaleRequestedArms(w: World, t: nat, env: Env)
    requires Stale(w, t) && w.runs[t].pc.Requested?
    ensures !Armed(Work(w, t, env), t)
  {
  }

  /** Without its lease a worker never comes by a request, and having handed one over it does not do so again. */
  lemma StaleNeverArms(w: World, t: nat, env: Env)
    requires Stale(w, t)
    ensures Armed(Next(w, WorkOn(t, env)), t) ==> Armed(w, t)
    ensures w.runs[t].pc.Requested? ==> !Armed(Next(w, WorkOn(t, env)), t)
  {
    if Sending(w.runs[t].pc) { StaleSendingArms(w, t, env); }
    else if w.runs[t].pc.Start? { StaleStartArms(w, t, env); }
    else if w.runs[t].pc.Chosen? || w.runs[t].pc.OverfillHalted? { StaleObservingArms(w, t, env); }
    else if w.runs[t].pc.Requested? { StaleRequestedArms(w, t, env); }
  }

  lemma StepKeepsUnarmed(w: World, t: nat, s: Step)
    requires Stale(w, t)
    ensures Armed(Next(w, s), t) ==> Armed(w, t)
  {
    if s.WorkOn? && s.token == t { StaleNeverArms(w, t, s.env); } else { OtherStepsKeepRun(w, t, s); }
  }

  // An await in which nothing outside answers.
  const QUIET: Env := Env(0, 0, [], 0, Scope(1, 2), None, SignerBusy, false, SpotBusy, None, None, false)

  // How many awaits an armed worker is from its request.
  function Distance(pc: Pc): (n: nat) { if pc.Requested? then 0 else if pc.SpotCleared? then 1 else 2 }

  lemma ArmedAdvances(w: World, t: nat)
    requires Armed(w, t) && !w.runs[t].pc.Requested?
    ensures var n := Next(w, WorkOn(t, QUIET));
            Armed(n, t) && Distance(n.runs[t].pc) < Distance(w.runs[t].pc)
  {
    if w.runs[t].pc.Start? {
      match w.runs[t].claim.kind
      case SubmitSpot => ArmedSpotStart(w, t);
      case UnwindSpot => ArmedUnwindSpotStart(w, t);
    }
  }

  lemma ArmedSpotStart(w: World, t: nat)
    requires Armed(w, t) && w.runs[t].pc.Start? && w.runs[t].claim.kind.SubmitSpot?
    ensures Armed(SpotStart(w, t, QUIET), t) && SpotStart(w, t, QUIET).runs[t].pc.Requested?
  {
  }

  lemma ArmedUnwindSpotStart(w: World, t: nat)
    requires Armed(w, t) && w.runs[t].pc.Start? && w.runs[t].claim.kind.UnwindSpot?
    ensures Armed(UnwindSpotStart(w, t, QUIET), t) && UnwindSpotStart(w, t, QUIET).runs[t].pc.SpotCleared?
  {
  }

  // ---------------------------------------------------------------- a finished action

  // Every worker of the action was there before.
  ghost predicate NoNewWorkers(w: World, n: World, a: nat) {
    forall t | t in n.runs && n.runs[t].claim.actionId == a :: t in w.runs && w.runs[t].claim == n.runs[t].claim
  }

  lemma FinishedIsNotClaimed(w: World, a: nat, s: Step)
    requires a in w.db.core.actions && !w.db.core.actions[a].Live()
    ensures NoNewWorkers(w, Next(w, s), a)
  {
    var n := Next(w, s);
    forall t | t in n.runs && n.runs[t].claim.actionId == a ensures t in w.runs && w.runs[t].claim == n.runs[t].claim {
      if t in w.runs {
        StepExtends(w, s);
        assert ExtendsIn(w, n, RunAspect);
      } else {
        NewRunsAreClaims(w, t, s);
      }
    }
  }

  lemma NewRunsAreClaims(w: World, t: nat, s: Step)
    requires t !in w.runs && t in Next(w, s).runs
    ensures s.TakeLease? && s.token == t && Next(w, s).runs[t].claim.actionId == s.actionId && Claimable(w.db, s.actionId)
  {
    if s.WorkOn? && s.token in w.runs { WorkKeepsTokens(w, s.token, s.env); }
  }

  lemma WorkKeepsTokens(w: World, u: nat, env: Env)
    requires u in w.runs
    ensures Work(w, u, env).runs.Keys == w.runs.Keys
  {
    if Sending(w.runs[u].pc) { }
    else if w.runs[u].pc.Start? { StartKeepsTokens(w, u, env); }
    else if w.runs[u].pc.Chosen? || w.runs[u].pc.OverfillHalted? { }
  }

  lemma StartKeepsTokens(w: World, u: nat, env: Env)
    requires u in w.runs && w.runs[u].pc.Start?
    ensures Work(w, u, env).runs.Keys == w.runs.Keys
  {
    match w.runs[u].claim.kind
    case SubmitPerp =>
    case UnwindPerp =>
    case SubmitSpot =>
    case UnwindSpot =>
    case _ =>
  }
}
