/** Requests, claims and recorded venue events keep the world invariant. */
module OutsideSteps {
  import opened Common
  import opened CoordinatorTypes
  import opened StoreOps
  import opened Worlds
  import opened CoreInvariants
  import opened CoreSteps
  import opened CoreMoves
  import opened CoreRequests
  import opened WorldInvariants
  import opened WorldSteps
  import S = Sagas
  import P = PairIntents
  import X = ExitAuthorities
  import V = VenueLogs

  // ---------------------------------------------------------------- requests on idle episodes

  lemma RunsAfterRequest(w: World, n: Db, id: nat, i: nat)
    requires WorldInv(w) && DbGrows(w.db, n)
    requires !HasLive(w.db.core, i) && id !in w.db.core.actions && Touches(w.db.core, n.core, id, i)
    ensures RunsInv(w.(db := n))
  {
    forall u | u in w.runs ensures RunOk(n, u, w.runs[u]) {
      RunOf(w, u);
      NoneUndisturbed(w.db, n, id, i, w.runs[u].claim);
      RunStays(w.db, n, u, w.runs[u]);
    }
  }

  lemma LeasesAfterRequest(w: World, n: Db, id: nat, i: nat)
    requires WorldInv(w) && id !in w.db.core.actions && Touches(w.db.core, n.core, id, i)
    ensures LeaseInv(w.(db := n))
  {
    var after := w.(db := n);
    assert Keeps(w, LeaseFacet);
    forall b | b in after.db.core.actions ensures LeaseOf(after, b) {
      if b in w.db.core.actions { assert LeaseOf(w, b); }
    }
  }

  lemma FencesAfterRequest(w: World, n: Db, id: nat, i: nat)
    requires WorldInv(w) && id !in w.db.core.actions && Touches(w.db.core, n.core, id, i)
    ensures FenceInv(w.(db := n))
  {
    var after := w.(db := n);
    assert Keeps(w, FenceFacet);
    forall b | b in after.db.core.actions ensures GrantOf(after, b) {
      if b in w.db.core.actions { assert GrantOf(w, b); }
    }
  }

  lemma RequestKeepsWorld(w: World, n: Db, id: nat, i: nat)
    requires WorldInv(w) && DbInv(n) && DbGrows(w.db, n)
    requires !HasLive(w.db.core, i) && id !in w.db.core.actions && Touches(w.db.core, n.core, id, i)
    ensures WorldInv(w.(db := n))
  {
    RunsAfterRequest(w, n, id, i);
    LeasesAfterRequest(w, n, id, i);
    FencesAfterRequest(w, n, id, i);
    assert SentInv(w.(db := n)) by { assert Keeps(w, SendFacet); SendsAfter(w, w.(db := n)); }
    WorldInvIntro(w.(db := n));
  }

  lemma ResumeKeepsDb(db: Db, n: Db, i: nat, events: seq<S.Event>, next: NextAction, id: nat, draws: seq<nat>)
    requires DbInv(db) && MayResume(db.core, i, events, next)
    requires Resume(db.core, i, events, next, id, draws, db.now) == CoreOk(n.core) && n == db.(core := n.core)
    requires !SoldOut(MovedAll(db.core.intents[i], events).saga)
    ensures DbInv(n) && DbGrows(db, n) && Touches(db.core, n.core, id, i) && id !in db.core.actions
  {
    assert CoreInv(n.core) && IndexInv(n.core) by {
      assert DbKeeps(db, CoreFacet) && DbKeeps(db, IndexFacet);
      ResumeKeepsInv(db.core, i, events, next, id, draws, db.now);
    }
    CoreOf(db);
    ResumeTouches(db.core, i, events, next, id, draws, db.now);
    RestKept(db, n, id, i);
    assert DbKeeps(db, VenueFacet) && DbKeeps(db, NonceFacet);
    DbInvIntro(n);
  }

  // The facets beside the core and its indexes, after a request.
  lemma RestKept(db: Db, n: Db, id: nat, i: nat)
    requires DbInv(db) && n == db.(core := n.core) && i in db.core.intents
    requires Grows(db.core, n.core) && Touches(db.core, n.core, id, i) && id !in db.core.actions && id in n.core.actions
    requires i in n.core.intents && !SoldOut(n.core.intents[i].saga)
    ensures IntentsValid(n.core) && FlatInv(n.core, n.venue) && SignedNonces(n)
  {
    assert IntentsValid(n.core) by {
      assert DbKeeps(db, IntentFacet);
      ValidIntentsKept(db.core, n.core, id, i);
    }
    assert FlatInv(n.core, n.venue) by {
      assert DbKeeps(db, ClosureFacet);
      FlatKept(db.core, n.core, db.venue, n.venue, id, i);
    }
    assert SignedNonces(n) by {
      assert DbKeeps(db, SignatureFacet);
      SignedNoncesKept(db, n, id, i);
    }
  }

  lemma ResumeKeepsWorld(w: World, n: Db, i: nat, events: seq<S.Event>, next: NextAction, id: nat, draws: seq<nat>)
    requires WorldInv(w) && MayResume(w.db.core, i, events, next)
    requires Resume(w.db.core, i, events, next, id, draws, w.db.now) == CoreOk(n.core) && n == w.db.(core := n.core)
    requires !SoldOut(MovedAll(w.db.core.intents[i], events).saga)
    ensures WorldInv(w.(db := n))
  {
    DbOf(w);
    ResumeKeepsDb(w.db, n, i, events, next, id, draws);
    RequestKeepsWorld(w, n, id, i);
  }

  lemma ExitKeeps(w: World, r: ExitRequest, nowMs: nat, quote: Option<X.ExitQuote>, id: nat, draws: seq<nat>)
    requires WorldInv(w) && (quote.Some? ==> X.ValidQuote(quote.value))
    ensures WorldInv(OrKeep(w, RequestExit(w.db, r, nowMs, quote, id, draws)))
  {
    match RequestExit(w.db, r, nowMs, quote, id, draws) {
      case DbErr(_) =>
      case DbOk(n) =>
        var s := w.db.core.intents[r.intentId].saga;
        X.BuiltIsAccepted(s.spot, quote.value, nowMs, r.submissionDeadline, r.reconciliationDeadline, Some(r.price),
                          Some(r.minimumOut));
        var authority := X.Build(s.spot, quote.value, nowMs, r.submissionDeadline, r.reconciliationDeadline,
                                 Some(r.price), Some(r.minimumOut)).value;
        DbOf(w);
        CoreOf(w.db);
        ExitMayResume(w.db.core, r.intentId, r.reason, authority);
        var plan := ExitPlan(s, r.reason, authority).value;
        ResumeKeepsWorld(w, n, r.intentId, plan.0, plan.1, id, draws);
    }
  }

  lemma RecoverKeeps(w: World, r: RecoveryRequest, nowMs: nat, candidates: seq<nat>, id: nat)
    requires WorldInv(w)
    ensures WorldInv(OrKeep(w, RequestRecovery(w.db, r, nowMs, candidates, id)))
  {
    match RequestRecovery(w.db, r, nowMs, candidates, id) {
      case DbErr(_) =>
      case DbOk(n) =>
        DbOf(w);
        CoreOf(w.db);
        var i := r.intentId;
        var source := FirstRecoverable(w.db.core, i, candidates).value;
        var s := w.db.core.intents[i].saga;
        var next := RecoverySuccessor(s, w.db.core.actions[source]).value;
        var key := RecoveryKey(source, next.0, r.requestedAt, r.reason);
        RecoveryMayResume(w.db.core, i, source, key);
        ResumeKeepsWorld(w, n, i, RecoveryEvents(s.state, next.0), NextAction(next.0, key, next.1), id, []);
    }
  }

  // ---------------------------------------------------------------- creating an intent

  lemma ValidMeansNamed(intent: P.PairIntent)
    requires P.Valid(intent)
    ensures intent.id != 0
  {
  }

  lemma CreateShape(db: Db, intent: P.PairIntent, nowMs: nat, admitted: bool, id: nat)
    requires CreateIntent(db, intent, nowMs, admitted, id).DbOk?
    ensures P.Valid(intent) && intent.id != 0 && intent.id !in db.core.intents
    ensures forall j | j in db.core.intents :: !db.core.intents[j].active
    ensures db.core.orderIndexes.Keys !! ReservedOrders(intent) && db.core.spotIds.Keys !! ReservedSpotIds(intent)
    ensures Enqueue(Admitted(db.core, intent), intent.id, ENTRY, id, [], db.now).CoreOk?
    ensures CreateIntent(db, intent, nowMs, admitted, id).db
            == db.(core := Enqueue(Admitted(db.core, intent), intent.id, ENTRY, id, [], db.now).core)
  {
    ValidMeansNamed(intent);
  }

  lemma CreatedIntentsValid(core: Core, next: Core, intent: P.PairIntent, id: nat)
    requires IntentsValid(core) && Grows(core, next) && Touches(core, next, id, intent.id) && P.Valid(intent)
    requires intent.id in next.intents && next.intents[intent.id].intent == intent
    ensures IntentsValid(next)
  {
  }

  lemma CreateKeepsDb(db: Db, intent: P.PairIntent, nowMs: nat, admitted: bool, id: nat)
    requires DbInv(db) && CreateIntent(db, intent, nowMs, admitted, id).DbOk?
    ensures var n := CreateIntent(db, intent, nowMs, admitted, id).db;
            && DbInv(n) && DbGrows(db, n) && Touches(db.core, n.core, id, intent.id)
            && id !in db.core.actions && !HasLive(db.core, intent.id)
  {
    CreateShape(db, intent, nowMs, admitted, id);
    var n := CreateIntent(db, intent, nowMs, admitted, id).db;
    assert DbKeeps(db, CoreFacet) && DbKeeps(db, IndexFacet) && DbKeeps(db, IntentFacet) && DbKeeps(db, VenueFacet)
           && DbKeeps(db, NonceFacet) && DbKeeps(db, SignatureFacet) && DbKeeps(db, ClosureFacet);
    CreateKeepsCore(db.core, intent, id, db.now);
    CreateTouches(db.core, intent, id, db.now);
    CreatedIntentsValid(db.core, n.core, intent, id);
    NewIntentOk(intent);
    FlatKept(db.core, n.core, db.venue, n.venue, id, intent.id);
    SignedNoncesKept(db, n, id, intent.id);
    EntryFits(db.core, intent);
    DbInvIntro(n);
  }

  lemma CreateKeeps(w: World, intent: P.PairIntent, nowMs: nat, admitted: bool, id: nat)
    requires WorldInv(w)
    ensures WorldInv(OrKeep(w, CreateIntent(w.db, intent, nowMs, admitted, id)))
  {
    if CreateIntent(w.db, intent, nowMs, admitted, id).DbOk? {
      DbOf(w);
      CreateKeepsDb(w.db, intent, nowMs, admitted, id);
      RequestKeepsWorld(w, CreateIntent(w.db, intent, nowMs, admitted, id).db, id, intent.id);
    }
  }

  // ---------------------------------------------------------------- claiming

  lemma LeaseKeepsDb(db: Db, a: nat, lease: Lease)
    requires DbInv(db) && a in db.core.actions && db.core.actions[a].Live()
    ensures var after := db.core.actions[a].(status := Leased(lease));
            ActionGrows(db.core.actions[a], after) && DbInv(PutAction(db, a, after))
  {
    RestatusKeepsDb(db, a, Leased(lease), db.core.actions[a].availableAt);
  }

  lemma ClaimedIsOk(db: Db, a: nat, worker: nat, token: nat, leaseFor: nat)
    requires DbInv(db) && ClaimAction(db, a, worker, token, leaseFor).Some?
    ensures var claimed := ClaimAction(db, a, worker, token, leaseFor).value;
            RunOk(claimed.0, token, Run(claimed.1, Start))
  {
    CoreOf(db);
    assert IntentOk(db.core.intents[db.core.actions[a].intentId], db.core.actions[a].intentId);
  }

  lemma ClaimKeepsRun(w: World, n: Db, a: nat, lease: Lease, u: nat)
    requires WorldInv(w) && u in w.runs && u != lease.token && a in w.db.core.actions && w.db.core.actions[a].Live()
    requires n == PutAction(w.db, a, w.db.core.actions[a].(status := Leased(lease)))
    ensures RunOk(n, u, w.runs[u])
  {
    DbOf(w);
    CoreOf(w.db);
    RunOf(w, u);
    PutGrows(w.db, a, n.core.actions[a]);
    OthersUndisturbed(w.db, n, a, w.runs[u].claim);
    RunStays(w.db, n, u, w.runs[u]);
  }

  lemma ClaimKeepsRuns(w: World, a: nat, worker: nat, token: nat, leaseFor: nat)
    requires WorldInv(w) && token !in w.runs && ClaimAction(w.db, a, worker, token, leaseFor).Some?
    ensures RunsInv(Next(w, TakeLease(a, worker, token, leaseFor)))
  {
    var n := Next(w, TakeLease(a, worker, token, leaseFor));
    DbOf(w);
    ClaimedIsOk(w.db, a, worker, token, leaseFor);
    forall u | u in n.runs ensures RunOk(n.db, u, n.runs[u]) {
      if u != token { ClaimKeepsRun(w, n.db, a, Lease(worker, token, w.db.now + leaseFor), u); }
    }
  }

  lemma ClaimKeepsLeases(w: World, a: nat, worker: nat, token: nat, leaseFor: nat)
    requires WorldInv(w) && token !in w.runs && ClaimAction(w.db, a, worker, token, leaseFor).Some?
    ensures LeaseInv(Next(w, TakeLease(a, worker, token, leaseFor)))
    ensures FenceInv(Next(w, TakeLease(a, worker, token, leaseFor)))
  {
    var n := Next(w, TakeLease(a, worker, token, leaseFor));
    assert Keeps(w, LeaseFacet) && Keeps(w, FenceFacet);
    forall b | b in n.db.core.actions ensures LeaseOf(n, b) && GrantOf(n, b) {
      assert GrantOf(w, b);
      if b != a { assert LeaseOf(w, b); }
    }
  }

  lemma ClaimKeepsDb(w: World, a: nat, worker: nat, token: nat, leaseFor: nat)
    requires WorldInv(w) && token !in w.runs && ClaimAction(w.db, a, worker, token, leaseFor).Some?
    ensures DbInv(Next(w, TakeLease(a, worker, token, leaseFor)).db)
  {
    DbOf(w);
    LeaseKeepsDb(w.db, a, Lease(worker, token, w.db.now + leaseFor));
  }

  lemma LeasedGrows(core: Core, a: nat, lease: Lease)
    requires IntentsOk(core) && a in core.actions && core.actions[a].Live()
    ensures Grows(core, core.(actions := core.actions[a := core.actions[a].(status := Leased(lease))]))
  {
    PutTouches(core, a, core.actions[a].(status := Leased(lease)));
  }

  lemma ClaimShape(w: World, a: nat, worker: nat, token: nat, leaseFor: nat)
    requires token !in w.runs && ClaimAction(w.db, a, worker, token, leaseFor).Some?
    ensures var n := Next(w, TakeLease(a, worker, token, leaseFor));
            && a in w.db.core.actions && w.db.core.actions[a].Live()
            && n.db.core.intents == w.db.core.intents && n.sent == w.sent && n.handed == w.handed
            && n.db.core.actions
               == w.db.core.actions[a := w.db.core.actions[a].(status := Leased(Lease(worker, token, w.db.now + leaseFor)))]
  {
  }

  lemma ClaimKeepsSends(w: World, n: World, a: nat, lease: Lease)
    requires WorldInv(w) && a in w.db.core.actions && w.db.core.actions[a].Live()
    requires n.db.core.intents == w.db.core.intents && n.sent == w.sent && n.handed == w.handed
    requires n.db.core.actions == w.db.core.actions[a := w.db.core.actions[a].(status := Leased(lease))]
    ensures SentInv(n)
  {
    DbOf(w);
    CoreOf(w.db);
    LeasedGrows(w.db.core, a, lease);
    assert Keeps(w, SendFacet);
    SendsAfter(w, n);
  }

  lemma ClaimKeeps(w: World, a: nat, worker: nat, token: nat, leaseFor: nat)
    requires WorldInv(w)
    ensures WorldInv(Next(w, TakeLease(a, worker, token, leaseFor)))
  {
    if token !in w.runs && ClaimAction(w.db, a, worker, token, leaseFor).Some? {
      ClaimKeepsRuns(w, a, worker, token, leaseFor);
      ClaimKeepsLeases(w, a, worker, token, leaseFor);
      ClaimKeepsDb(w, a, worker, token, leaseFor);
      ClaimShape(w, a, worker, token, leaseFor);
      ClaimKeepsSends(w, Next(w, TakeLease(a, worker, token, leaseFor)), a, Lease(worker, token, w.db.now + leaseFor));
      WorldInvIntro(Next(w, TakeLease(a, worker, token, leaseFor)));
    }
  }

  // ---------------------------------------------------------------- venue events

  lemma RecordGrows(log: V.VenueLog, e: V.VenueEvent, id: nat)
    requires id !in log.events
    ensures VenueGrows(log, V.Record(log, e, id).0)
  {
  }

  lemma RecordKeepsDb(db: Db, e: V.VenueEvent, id: nat)
    requires DbInv(db) && V.ValidEvent(e) && id !in db.venue.events
    ensures DbInv(db.(venue := V.Record(db.venue, e, id).0))
  {
    var log := V.Record(db.venue, e, id).0;
    VenueOf(db);
    V.RecordKeepsInv(db.venue, e, id);
    RecordGrows(db.venue, e, id);
    NewVenueKeepsDb(db, log);
  }

  lemma NewVenueKeepsDb(db: Db, log: V.VenueLog)
    requires DbInv(db) && V.Inv(log) && VenueGrows(db.venue, log)
    ensures DbInv(db.(venue := log))
  {
    var n := db.(venue := log);
    forall f ensures DbKeeps(n, f) {
      assert DbKeeps(db, f);
      if f.SignatureFacet? {
        forall b | b in n.core.actions ensures SignedNonce(n, b) { assert SignedNonce(db, b); }
      } else if f.ClosureFacet? {
        CoreOf(db);
        SameCoreGrows(db.core);
        forall i | i in n.core.intents && SoldOut(n.core.intents[i].saga) ensures SaleConfirmed(n.core, log, i) {
          SaleStays(db.core, n.core, db.venue, log, i);
        }
      }
    }
  }

  lemma RecordKeeps(w: World, e: V.VenueEvent, id: nat)
    requires WorldInv(w)
    ensures WorldInv(Next(w, RecordEvent(e, id)))
  {
    if V.ValidEvent(e) && e.intentId in w.db.core.intents && id !in w.db.venue.events {
      var recorded := V.Record(w.db.venue, e, id);
      var n := w.db.(venue := recorded.0);
      DbOf(w);
      RecordKeepsDb(w.db, e, id);
      AsideKeepsWorld(w, n);
      if recorded.1.Conflict? { HaltKeepsWorld(w.(db := n)); }
    }
  }

  // ---------------------------------------------------------------- time and control

  lemma ControlKeeps(w: World, control: Control, now: nat)
    requires WorldInv(w) && ControlGrows(w.db.control, control)
    ensures WorldInv(w.(db := w.db.(control := control, now := now)))
  {
    DbOf(w);
    ControlKeepsDb(w.db, control, now);
    AsideKeepsWorld(w, w.db.(control := control, now := now));
  }
}
