/** What every reachable world keeps: database, runs, leases, sends. */
module WorldInvariants {
  import opened Common
  import opened CoordinatorTypes
  import opened StoreOps
  import opened WorkerDecisions
  import opened Worlds
  import opened CoreInvariants
  import opened CoreMoves
  import opened WorkerFits
  import S = Sagas
  import V = VenueLogs

  // ---------------------------------------------------------------- the database

  ghost predicate NonceInv(t: NonceTable) {
    && (forall a | a in t.reservations ::
          t.reservations[a].scope in t.next && t.reservations[a].nonce < t.next[t.reservations[a].scope])
    && (forall a, b | a in t.reservations && b in t.reservations && a != b
                      && t.reservations[a].scope == t.reservations[b].scope ::
          t.reservations[a].nonce != t.reservations[b].nonce)
  }

  predicate SignedNonce(db: Db, a: nat)
    requires a in db.core.actions
  {
    var r := db.core.actions[a];
    OrderKind(r.kind) && r.results.signed.Some? ==>
      a in db.nonces.reservations && db.nonces.reservations[a].nonce == r.results.signed.value.order.nonce
  }

  ghost predicate SignedNonces(db: Db) {
    forall a | a in db.core.actions :: SignedNonce(db, a)
  }

  // A confirmed spot sale of the whole spot amount, at no less than its authority's minimum, was applied.
  predicate SaleOf(core: Core, log: V.VenueLog, i: nat, e: nat) {
    && i in core.intents
    && e in log.applied && e in log.events && log.applied[e] in core.actions
    && var event, r := log.events[e], core.actions[log.applied[e]];
    && event.intentId == i && event.kind.SpotUnwindConfirmed? && event.observation.SpotObservation?
    && event.observation.spotIntentId == core.intents[i].intent.spotUnwindId
    && event.observation.amountIn == core.intents[i].saga.spot
    && r.intentId == i && r.kind.ReconcileUnwindSpot? && r.status.Succeeded?
    && r.payload.authority.Some? && event.observation.amountOut >= r.payload.authority.value.minimumOut
  }

  ghost predicate SaleConfirmed(core: Core, log: V.VenueLog, i: nat) { exists e :: SaleOf(core, log, i, e) }

  predicate SoldOut(s: S.Saga) { s.state.Closed? && s.spot > 0 }

  ghost predicate FlatInv(core: Core, log: V.VenueLog) {
    forall i | i in core.intents && SoldOut(core.intents[i].saga) :: SaleConfirmed(core, log, i)
  }

  // The invariant is a family of facets, so that a proof can look at one at a time.
  datatype DbFacet = CoreFacet | IndexFacet | IntentFacet | VenueFacet | NonceFacet | SignatureFacet | ClosureFacet

  ghost predicate DbKeeps(db: Db, f: DbFacet) {
    match f
    case CoreFacet => CoreInv(db.core)
    case IndexFacet => IndexInv(db.core)
    case IntentFacet => IntentsValid(db.core)
    case VenueFacet => V.Inv(db.venue)
    case NonceFacet => NonceInv(db.nonces)
    case SignatureFacet => SignedNonces(db)
    case ClosureFacet => FlatInv(db.core, db.venue)
  }

  ghost predicate DbInv(db: Db) { forall f :: DbKeeps(db, f) }

  // ---------------------------------------------------------------- runs

  predicate Current(db: Db, c: Claim) {
    && c.actionId in db.core.actions && db.core.actions[c.actionId].status.Leased?
    && db.core.actions[c.actionId].status.lease.token == c.token
  }

  predicate Reconciles(k: ActionKind) {
    k.ReconcilePerp? || k.ReconcileSpot? || k.ReconcileUnwind? || k.ReconcileUnwindSpot?
  }

  predicate PcFits(k: ActionKind, pc: Pc) {
    match pc
    case NonceAssigned(_) | HaveSigned(_) | Cleared(_) | SendRefused(_) | MaySend(_) | CannotEncode(_) | Unclear(_) =>
      OrderKind(k)
    case Bound => k.UnwindPerp?
    case MustUnwind | HaltedToUnwind => k.SubmitSpot?
    case SpotCleared | SpotSendRefused => k.UnwindSpot?
    case Requested(_) => k.SubmitSpot? || k.UnwindSpot?
    case Accepted(_) | Recorded(_) => OrderKind(k) || k.SubmitSpot? || k.UnwindSpot?
    case Chosen(_) => Reconciles(k)
    case OverfillHalted(_, _) => k.ReconcilePerp?
    case Start | Retrying | Poison | Done => true
  }

  // What the stored results of a current leaseholder's action are at each point.
  predicate ResultsAt(c: Claim, pc: Pc, r: Results) {
    match pc
    case Start => r == c.results
    case NonceAssigned(_) => r == c.results && r.signed.None?
    case HaveSigned(tx) => r.signed == Some(tx) && r.authorized == c.results.authorized
    case Cleared(tx) => r.signed == Some(tx) && r.authorized == c.results.authorized
    case SendRefused(tx) => r.signed == Some(tx) && r.authorized == c.results.authorized
    case MaySend(tx) => r.signed == Some(tx) && r.authorized.Some?
    case CannotEncode(tx) => r.signed == Some(tx) && !tx.encodable
    case Accepted(_) => OrderKind(c.kind) ==> r.authorized.Some?
    case MustUnwind | HaltedToUnwind => r.submission.None?
    case SpotCleared => r.request == c.results.request
    case Requested(_) | Poison => c.kind.SubmitSpot? ==> r.submission.None?
    case _ => true
  }

  // What stays true of a run whether or not it still holds its lease.
  predicate Durable(db: Db, c: Claim, pc: Pc)
    requires c.actionId in db.core.actions
  {
    match pc
    case NonceAssigned(n) =>
      c.actionId in db.nonces.reservations && db.nonces.reservations[c.actionId].nonce == n
    case MaySend(tx) =>
      db.core.actions[c.actionId].results.signed == Some(tx) && db.core.actions[c.actionId].results.authorized.Some?
    case Requested(r) =>
      ExpectedRequest(c) == Some(r) && db.core.actions[c.actionId].results.request == Some(r)
    case Accepted(_) | Recorded(_) => OrderKind(c.kind) || ExpectedRequest(c).Some?
    case _ => true
  }

  predicate Snapshot(db: Db, c: Claim, pc: Pc)
    requires c.actionId in db.core.actions && c.intent.id in db.core.intents
  {
    && db.core.intents[c.intent.id].saga == c.saga
    && (pc.Bound? || pc.Done? || db.core.actions[c.actionId].payload == c.payload)
    && ResultsAt(c, pc, db.core.actions[c.actionId].results)
  }

  predicate ClaimOk(db: Db, c: Claim) {
    && c.actionId in db.core.actions && c.intent.id in db.core.intents
    && db.core.actions[c.actionId].kind == c.kind && db.core.actions[c.actionId].intentId == c.intent.id
    && db.core.intents[c.intent.id].intent == c.intent
    && (SpotKind(c.kind) ==> db.core.actions[c.actionId].payload == c.payload)
    && (SpotKind(c.kind) && c.results.request.Some? ==> db.core.actions[c.actionId].results.request == c.results.request)
    && c.controlVersion <= db.control.version && c.haltsAtClaim <= db.control.halts
    && db.control.halts - c.haltsAtClaim <= db.control.version - c.controlVersion
  }

  predicate RunOk(db: Db, t: nat, run: Run) {
    && run.claim.token == t && ClaimOk(db, run.claim)
    && PcFits(run.claim.kind, run.pc) && Durable(db, run.claim, run.pc)
    && (Current(db, run.claim) ==> Snapshot(db, run.claim, run.pc))
  }

  ghost predicate RunsInv(w: World) { forall t | t in w.runs :: RunOk(w.db, t, w.runs[t]) }

  // Every lease in the table belongs to a run that claimed that action.
  predicate LeaseOf(w: World, a: nat)
    requires a in w.db.core.actions
  {
    w.db.core.actions[a].status.Leased? ==>
      && w.db.core.actions[a].status.lease.token in w.runs
      && w.runs[w.db.core.actions[a].status.lease.token].claim.actionId == a
  }

  ghost predicate LeaseInv(w: World) { forall a | a in w.db.core.actions :: LeaseOf(w, a) }

  // Every broadcast is the persisted transaction of an action whose send was authorized.
  predicate SentOk(core: Core, p: (nat, SignedTx)) {
    && p.0 in core.actions && OrderKind(core.actions[p.0].kind)
    && core.actions[p.0].results.signed == Some(p.1) && core.actions[p.0].results.authorized.Some?
    && p.1.encodable
  }

  // The request an action's row determines.
  function RequestOfRow(core: Core, a: nat): (r: Option<SpotRequest>)
    requires a in core.actions && Owned(core, a)
  {
    RequestFor(a, core.actions[a].kind, core.intents[core.actions[a].intentId].intent, core.actions[a].payload)
  }

  // Every request handed to the signer is the one its action determines, persisted on it.
  predicate HandedOk(core: Core, p: (nat, SpotRequest)) {
    && p.0 in core.actions && Owned(core, p.0) && SpotKind(core.actions[p.0].kind)
    && core.actions[p.0].results.request == Some(p.1) && RequestOfRow(core, p.0) == Some(p.1)
  }

  ghost predicate SentInv(w: World) {
    && (forall p | p in w.sent :: SentOk(w.db.core, p))
    && (forall p | p in w.handed :: HandedOk(w.db.core, p))
  }

  ghost predicate Granted(grants: set<EntryAuthorization>, a: nat) { exists g :: g in grants && g.actionId == a }

  // An entry is authorized only by a grant on record.
  ghost predicate GrantOf(w: World, a: nat)
    requires a in w.db.core.actions
  {
    w.db.core.actions[a].kind.SubmitPerp? && w.db.core.actions[a].results.authorized.Some? ==>
      Granted(w.entryAuthorizations, a)
  }

  // No grant has a halt between the claim it was asked under and itself.
  ghost predicate FenceInv(w: World) {
    && (forall g | g in w.entryAuthorizations :: g.haltsAtClaim == g.haltsAtSend)
    && (forall a | a in w.db.core.actions :: GrantOf(w, a))
  }

  datatype Facet = DbFacets | RunFacet | LeaseFacet | SendFacet | FenceFacet

  ghost predicate Keeps(w: World, f: Facet) {
    match f
    case DbFacets => DbInv(w.db)
    case RunFacet => RunsInv(w)
    case LeaseFacet => LeaseInv(w)
    case SendFacet => SentInv(w)
    case FenceFacet => FenceInv(w)
  }

  ghost predicate WorldInv(w: World) { forall f :: Keeps(w, f) }

  lemma DbInvIntro(db: Db)
    requires CoreInv(db.core) && IndexInv(db.core) && IntentsValid(db.core)
    requires V.Inv(db.venue) && NonceInv(db.nonces) && SignedNonces(db) && FlatInv(db.core, db.venue)
    ensures DbInv(db)
  {
    forall f ensures DbKeeps(db, f) {
      match f case CoreFacet => case IndexFacet => case IntentFacet => case VenueFacet => case NonceFacet =>
      case SignatureFacet => case ClosureFacet =>
    }
  }

  lemma WorldInvIntro(w: World)
    requires DbInv(w.db) && RunsInv(w) && LeaseInv(w) && SentInv(w) && FenceInv(w)
    ensures WorldInv(w)
  {
    forall f ensures Keeps(w, f) {
      match f case DbFacets => case RunFacet => case LeaseFacet => case SendFacet => case FenceFacet =>
    }
  }

  // ---------------------------------------------------------------- access to single facets

  lemma CoreOf(db: Db)
    requires DbInv(db)
    ensures CoreInv(db.core)
  {
    assert DbKeeps(db, CoreFacet);
  }

  lemma VenueOf(db: Db)
    requires DbInv(db)
    ensures V.Inv(db.venue)
  {
    assert DbKeeps(db, VenueFacet);
  }

  lemma DbOf(w: World)
    requires WorldInv(w)
    ensures DbInv(w.db)
  {
    assert Keeps(w, DbFacets);
  }

  lemma RunOf(w: World, t: nat)
    requires WorldInv(w) && t in w.runs
    ensures RunOk(w.db, t, w.runs[t])
  {
    assert Keeps(w, RunFacet);
  }

  // ---------------------------------------------------------------- growth of the database

  predicate ControlGrows(c: Control, n: Control) {
    c.version <= n.version && c.halts <= n.halts && n.halts - c.halts <= n.version - c.version
  }

  ghost predicate NoncesGrow(t: NonceTable, n: NonceTable) {
    forall a | a in t.reservations :: a in n.reservations && n.reservations[a] == t.reservations[a]
  }

  ghost predicate VenueGrows(v: V.VenueLog, n: V.VenueLog) {
    && (forall e | e in v.events :: e in n.events && n.events[e] == v.events[e])
    && (forall e | e in v.applied :: e in n.applied && n.applied[e] == v.applied[e])
  }

  ghost predicate DbGrows(db: Db, n: Db) {
    && Grows(db.core, n.core) && ControlGrows(db.control, n.control)
    && NoncesGrow(db.nonces, n.nonces) && VenueGrows(db.venue, n.venue)
  }

  // The step leaves this claim's action and saga alone.
  predicate Undisturbed(db: Db, n: Db, c: Claim)
    requires ClaimOk(db, c)
  {
    Current(n, c) ==>
      && Current(db, c) && n.core.actions[c.actionId] == db.core.actions[c.actionId]
      && c.intent.id in n.core.intents && n.core.intents[c.intent.id].saga == db.core.intents[c.intent.id].saga
  }

  lemma ClaimStays(db: Db, n: Db, c: Claim)
    requires ClaimOk(db, c) && Grows(db.core, n.core) && ControlGrows(db.control, n.control)
    ensures ClaimOk(n, c)
  {
    assert ActionGrows(db.core.actions[c.actionId], n.core.actions[c.actionId]);
  }

  lemma DurableStays(db: Db, n: Db, c: Claim, pc: Pc)
    requires c.actionId in db.core.actions && Durable(db, c, pc) && PcFits(c.kind, pc)
    requires db.core.actions[c.actionId].kind == c.kind
    requires Grows(db.core, n.core) && NoncesGrow(db.nonces, n.nonces)
    ensures c.actionId in n.core.actions && Durable(n, c, pc)
  {
    assert ActionGrows(db.core.actions[c.actionId], n.core.actions[c.actionId]);
  }

  lemma RunStays(db: Db, n: Db, t: nat, run: Run)
    requires RunOk(db, t, run) && Undisturbed(db, n, run.claim)
    requires Grows(db.core, n.core) && ControlGrows(db.control, n.control) && NoncesGrow(db.nonces, n.nonces)
    ensures RunOk(n, t, run)
  {
    ClaimStays(db, n, run.claim);
    DurableStays(db, n, run.claim, run.pc);
  }

  lemma SentStays(core: Core, next: Core, p: (nat, SignedTx))
    requires SentOk(core, p) && Grows(core, next)
    ensures SentOk(next, p)
  {
    assert ActionGrows(core.actions[p.0], next.actions[p.0]);
  }

  lemma HandedStays(core: Core, next: Core, p: (nat, SpotRequest))
    requires HandedOk(core, p) && Grows(core, next)
    ensures HandedOk(next, p)
  {
    assert ActionGrows(core.actions[p.0], next.actions[p.0]);
  }

  // Moving one action with its intent disturbs no other leaseholder.
  lemma OthersUndisturbed(db: Db, n: Db, a: nat, c: Claim)
    requires OneLive(db.core) && ClaimOk(db, c)
    requires a in db.core.actions && db.core.actions[a].Live()
    requires Touches(db.core, n.core, a, db.core.actions[a].intentId)
    requires a in n.core.actions
    requires n.core.actions[a].status.Leased? ==> n.core.actions[a].status.lease.token != c.token
    ensures Undisturbed(db, n, c)
  {
    if Current(n, c) && c.actionId != a {
      assert db.core.actions[c.actionId].Live();
    }
  }

  // Resuming an episode that has no live action disturbs no leaseholder.
  lemma NoneUndisturbed(db: Db, n: Db, id: nat, i: nat, c: Claim)
    requires ClaimOk(db, c) && !HasLive(db.core, i) && id !in db.core.actions
    requires Touches(db.core, n.core, id, i)
    ensures Undisturbed(db, n, c)
  {
    if Current(n, c) {
      assert db.core.actions[c.actionId].Live();
    }
  }

  // A current leaseholder's snapshot is never stale.
  lemma HeldWhenCurrent(db: Db, t: nat, run: Run)
    requires CoreInv(db.core) && RunOk(db, t, run) && Current(db, run.claim) && !run.pc.Bound? && !run.pc.Done?
    ensures Held(db.core.actions[run.claim.actionId], db.core.intents[run.claim.intent.id], run.claim)
    ensures ResultsAt(run.claim, run.pc, db.core.actions[run.claim.actionId].results)
    ensures db.core.actions[run.claim.actionId].intentId == run.claim.intent.id
  {
    assert Owned(db.core, run.claim.actionId);
  }
}
