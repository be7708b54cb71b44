/** Changes of the database and of one run that keep the world invariant. */
module WorldSteps {
  import opened Common
  import opened CoordinatorTypes
  import opened StoreOps
  import opened WorkerDecisions
  import opened Worlds
  import opened CoreInvariants
  import opened CoreSteps
  import opened CoreMoves
  import opened WorkerFits
  import opened WorldInvariants
  import S = Sagas
  import V = VenueLogs

  // ---------------------------------------------------------------- one run moves

  lemma RunsAfter(w: World, t: nat, n: Db, pc: Pc)
    requires RunsInv(w) && t in w.runs && OneLive(w.db.core) && Current(w.db, w.runs[t].claim)
    requires DbGrows(w.db, n)
    requires var a := w.runs[t].claim.actionId;
             && Touches(w.db.core, n.core, a, w.db.core.actions[a].intentId) && a in n.core.actions
             && (n.core.actions[a].status.Leased? ==> n.core.actions[a].status == w.db.core.actions[a].status)
    requires RunOk(n, t, w.runs[t].(pc := pc))
    ensures RunsInv(Goto(w.(db := n), t, pc))
  {
    var after := Goto(w.(db := n), t, pc);
    forall u | u in after.runs ensures RunOk(after.db, u, after.runs[u]) {
      if u != t {
        assert RunOk(w.db, u, w.runs[u]) && RunOk(w.db, t, w.runs[t]);
        OthersUndisturbed(w.db, n, w.runs[t].claim.actionId, w.runs[u].claim);
        RunStays(w.db, n, u, w.runs[u]);
      }
    }
  }

  lemma LeasesAfter(w: World, t: nat, n: Db, pc: Pc)
    requires LeaseInv(w) && t in w.runs && Current(w.db, w.runs[t].claim)
    requires var a := w.runs[t].claim.actionId;
             && Touches(w.db.core, n.core, a, w.db.core.actions[a].intentId) && a in n.core.actions
             && (n.core.actions[a].status.Leased? ==> n.core.actions[a].status == w.db.core.actions[a].status)
    ensures LeaseInv(Goto(w.(db := n), t, pc))
  {
    var after := Goto(w.(db := n), t, pc);
    forall b | b in after.db.core.actions ensures LeaseOf(after, b) {
      if b in w.db.core.actions { assert LeaseOf(w, b); }
    }
  }

  lemma SendsAfter(w: World, n: World)
    requires SentInv(w) && Grows(w.db.core, n.db.core) && n.sent == w.sent && n.handed == w.handed
    ensures SentInv(n)
  {
    forall p | p in n.sent ensures SentOk(n.db.core, p) { SentStays(w.db.core, n.db.core, p); }
    forall p | p in n.handed ensures HandedOk(n.db.core, p) { HandedStays(w.db.core, n.db.core, p); }
  }

  // The row a leaseholder leaves behind carries no entry authorization without a grant.
  ghost predicate GrantBacked(w: World, a: nat, row: ActionRow)
    requires a in w.db.core.actions
  {
    row.kind.SubmitPerp? && row.results.authorized.Some? ==>
      || (w.db.core.actions[a].kind.SubmitPerp? && w.db.core.actions[a].results.authorized.Some?)
      || Granted(w.entryAuthorizations, a)
  }

  lemma FencesAfter(w: World, t: nat, n: Db, pc: Pc)
    requires FenceInv(w) && t in w.runs && Current(w.db, w.runs[t].claim)
    requires var a := w.runs[t].claim.actionId;
             && Touches(w.db.core, n.core, a, w.db.core.actions[a].intentId) && a in n.core.actions
             && GrantBacked(w, a, n.core.actions[a])
    ensures FenceInv(Goto(w.(db := n), t, pc))
  {
    var after := Goto(w.(db := n), t, pc);
    forall b | b in after.db.core.actions ensures GrantOf(after, b) {
      if b in w.db.core.actions { assert GrantOf(w, b); }
    }
  }

  /** A leaseholder's transaction on its own action and intent disturbs nobody else. */
  lemma RunKeepsWorld(w: World, t: nat, n: Db, pc: Pc)
    requires WorldInv(w) && t in w.runs && Current(w.db, w.runs[t].claim)
    requires DbInv(n) && DbGrows(w.db, n)
    requires var a := w.runs[t].claim.actionId;
             && Touches(w.db.core, n.core, a, w.db.core.actions[a].intentId) && a in n.core.actions
             && (n.core.actions[a].status.Leased? ==> n.core.actions[a].status == w.db.core.actions[a].status)
             && GrantBacked(w, a, n.core.actions[a])
    requires RunOk(n, t, w.runs[t].(pc := pc))
    ensures WorldInv(Goto(w.(db := n), t, pc))
  {
    var after := Goto(w.(db := n), t, pc);
    assert RunsInv(after) by {
      DbOf(w);
      CoreOf(w.db);
      assert Keeps(w, RunFacet);
      RunsAfter(w, t, n, pc);
    }
    assert LeaseInv(after) by { assert Keeps(w, LeaseFacet); LeasesAfter(w, t, n, pc); }
    assert SentInv(after) by { assert Keeps(w, SendFacet); SendsAfter(w, after); }
    assert FenceInv(after) by { assert Keeps(w, FenceFacet); FencesAfter(w, t, n, pc); }
    WorldInvIntro(after);
  }

  lemma FinishedIsOk(w: World, t: nat, n: Db)
    requires WorldInv(w) && t in w.runs && DbGrows(w.db, n) && !Current(n, w.runs[t].claim)
    ensures RunOk(n, t, w.runs[t].(pc := Done))
  {
    RunOf(w, t);
    ClaimStays(w.db, n, w.runs[t].claim);
  }

  lemma FinishKeepsWorld(w: World, t: nat, n: Db)
    requires WorldInv(w) && t in w.runs && Current(w.db, w.runs[t].claim)
    requires DbInv(n) && DbGrows(w.db, n)
    requires var a := w.runs[t].claim.actionId;
             && Touches(w.db.core, n.core, a, w.db.core.actions[a].intentId) && a in n.core.actions
             && !n.core.actions[a].status.Leased? && GrantBacked(w, a, n.core.actions[a])
    ensures WorldInv(Goto(w.(db := n), t, Done))
  {
    FinishedIsOk(w, t, n);
    RunKeepsWorld(w, t, n, Done);
  }

  lemma PcKeepsWorld(w: World, t: nat, pc: Pc)
    requires WorldInv(w) && t in w.runs && RunOk(w.db, t, w.runs[t].(pc := pc))
    ensures WorldInv(Goto(w, t, pc))
  {
    var after := Goto(w, t, pc);
    DbOf(w);
    forall u | u in after.runs ensures RunOk(after.db, u, after.runs[u]) { RunOf(w, u); }
    assert LeaseInv(after) by {
      assert Keeps(w, LeaseFacet);
      forall b | b in after.db.core.actions ensures LeaseOf(after, b) { assert LeaseOf(w, b); }
    }
    assert Keeps(w, SendFacet);
    assert FenceInv(after) by {
      assert Keeps(w, FenceFacet);
      forall b | b in after.db.core.actions ensures GrantOf(after, b) { assert GrantOf(w, b); }
    }
    WorldInvIntro(after);
  }

  lemma DoneKeepsWorld(w: World, t: nat)
    requires WorldInv(w) && t in w.runs
    ensures WorldInv(Goto(w, t, Done))
  {
    RunOf(w, t);
    PcKeepsWorld(w, t, Done);
  }

  lemma PoisonKeepsWorld(w: World, t: nat)
    requires WorldInv(w) && t in w.runs && !w.runs[t].pc.Bound? && !w.runs[t].pc.Done?
    requires var c := w.runs[t].claim;
             c.kind.SubmitSpot? && Current(w.db, c) ==> w.db.core.actions[c.actionId].results.submission.None?
    ensures WorldInv(Goto(w, t, Poison))
  {
    RunOf(w, t);
    PcKeepsWorld(w, t, Poison);
  }

  // ---------------------------------------------------------------- changes outside the core

  lemma SameCoreGrows(core: Core)
    requires IntentsOk(core)
    ensures Grows(core, core)
  {
  }

  lemma ControlKeepsDb(db: Db, control: Control, now: nat)
    requires DbInv(db)
    ensures DbInv(db.(control := control, now := now))
  {
    var n := db.(control := control, now := now);
    forall f ensures DbKeeps(n, f) {
      assert DbKeeps(db, f);
      if f.SignatureFacet? {
        forall a | a in n.core.actions ensures SignedNonce(n, a) { assert SignedNonce(db, a); }
      }
    }
  }

  // A step that changes neither the core nor the runs.
  lemma AsideKeepsWorld(w: World, n: Db)
    requires WorldInv(w) && DbInv(n) && n.core == w.db.core
    requires ControlGrows(w.db.control, n.control) && NoncesGrow(w.db.nonces, n.nonces)
    ensures WorldInv(w.(db := n))
  {
    DbOf(w);
    CoreOf(w.db);
    SameCoreGrows(w.db.core);
    var after := w.(db := n);
    forall u | u in after.runs ensures RunOk(after.db, u, after.runs[u]) {
      RunOf(w, u);
      RunStays(w.db, n, u, w.runs[u]);
    }
    assert LeaseInv(after) by {
      assert Keeps(w, LeaseFacet);
      forall b | b in after.db.core.actions ensures LeaseOf(after, b) { assert LeaseOf(w, b); }
    }
    assert Keeps(w, SendFacet);
    assert FenceInv(after) by {
      assert Keeps(w, FenceFacet);
      forall b | b in after.db.core.actions ensures GrantOf(after, b) { assert GrantOf(w, b); }
    }
    WorldInvIntro(after);
  }

  lemma HaltKeepsWorld(w: World)
    requires WorldInv(w)
    ensures WorldInv(w.(db := w.db.(control := Halt(w.db.control))))
  {
    DbOf(w);
    ControlKeepsDb(w.db, Halt(w.db.control), w.db.now);
    AsideKeepsWorld(w, w.db.(control := Halt(w.db.control)));
  }

  lemma HaltAndKeepsWorld(w: World, t: nat, pc: Pc)
    requires WorldInv(w) && t in w.runs
    requires RunOk(w.db.(control := Halt(w.db.control)), t, w.runs[t].(pc := pc))
    ensures WorldInv(HaltAnd(w, t, pc))
  {
    HaltKeepsWorld(w);
    PcKeepsWorld(w.(db := w.db.(control := Halt(w.db.control))), t, pc);
  }

  // ---------------------------------------------------------------- transactions on the core

  lemma SaleStays(core: Core, next: Core, v: V.VenueLog, nv: V.VenueLog, j: nat)
    requires SaleConfirmed(core, v, j) && Grows(core, next) && VenueGrows(v, nv)
    requires j in core.intents && j in next.intents && next.intents[j].saga == core.intents[j].saga
    ensures SaleConfirmed(next, nv, j)
  {
    var e :| SaleOf(core, v, j, e);
    assert ActionGrows(core.actions[v.applied[e]], next.actions[v.applied[e]]);
    assert SaleOf(next, nv, j, e);
  }

  lemma FlatKept(core: Core, next: Core, v: V.VenueLog, nv: V.VenueLog, a: nat, i: nat)
    requires FlatInv(core, v) && Grows(core, next) && VenueGrows(v, nv) && Touches(core, next, a, i)
    requires i in next.intents && SoldOut(next.intents[i].saga) ==> SaleConfirmed(next, nv, i)
    ensures FlatInv(next, nv)
  {
    forall j | j in next.intents && SoldOut(next.intents[j].saga) ensures SaleConfirmed(next, nv, j) {
      if j != i {
        assert j in core.intents && SoldOut(core.intents[j].saga);
        SaleStays(core, next, v, nv, j);
      }
    }
  }

  lemma SignedNoncesKept(db: Db, n: Db, a: nat, i: nat)
    requires SignedNonces(db) && Touches(db.core, n.core, a, i) && n.nonces == db.nonces
    requires a in n.core.actions
    requires n.core.actions[a].results.signed.None?
             || (a in db.core.actions && n.core.actions[a].kind == db.core.actions[a].kind
                 && n.core.actions[a].results.signed == db.core.actions[a].results.signed)
    ensures SignedNonces(n)
  {
    forall b | b in n.core.actions ensures SignedNonce(n, b) {
      if b in db.core.actions { assert SignedNonce(db, b); }
    }
  }

  lemma ValidIntentsKept(core: Core, next: Core, a: nat, i: nat)
    requires IntentsValid(core) && Grows(core, next) && Touches(core, next, a, i) && i in core.intents
    ensures IntentsValid(next)
  {
  }

  // The facets beside the core and its indexes, after an action handed over.
  lemma RestAdvanced(db: Db, n: Db, a: nat, i: nat)
    requires DbInv(db) && i in db.core.intents
    requires Grows(db.core, n.core) && Touches(db.core, n.core, a, i) && a in db.core.actions && a in n.core.actions
    requires n.nonces == db.nonces && VenueGrows(db.venue, n.venue)
    requires n.core.actions[a].results.signed.None?
             || n.core.actions[a].results.signed == db.core.actions[a].results.signed
    requires i in n.core.intents && SoldOut(n.core.intents[i].saga) ==> SaleConfirmed(n.core, n.venue, i)
    ensures IntentsValid(n.core) && FlatInv(n.core, n.venue) && SignedNonces(n) && NonceInv(n.nonces)
  {
    assert IntentsValid(n.core) by {
      assert DbKeeps(db, IntentFacet);
      ValidIntentsKept(db.core, n.core, a, i);
    }
    assert FlatInv(n.core, n.venue) by {
      assert DbKeeps(db, ClosureFacet);
      FlatKept(db.core, n.core, db.venue, n.venue, a, i);
    }
    assert SignedNonces(n) by {
      assert DbKeeps(db, SignatureFacet);
      SignedNoncesKept(db, n, a, i);
    }
    assert DbKeeps(db, NonceFacet);
  }

  /** Handing a live action over to its successor keeps the database sound. */
  lemma AdvanceKeepsDb(db: Db, n: Db, a: nat, row: ActionRow, e: Option<S.Event>, next: Option<NextAction>,
                       id: nat, draws: seq<nat>)
    requires DbInv(db) && MayAdvance(db.core, a, row, e, next)
    requires Advance(db.core, a, row, e, next, id, draws, db.now) == CoreOk(n.core)
    requires n.nonces == db.nonces && ControlGrows(db.control, n.control)
    requires V.Inv(n.venue) && VenueGrows(db.venue, n.venue)
    requires row.results.signed.None? || row.results.signed == db.core.actions[a].results.signed
    requires SoldOut(Moved(db.core.intents[row.intentId], e).saga) ==> SaleConfirmed(n.core, n.venue, row.intentId)
    ensures DbInv(n) && DbGrows(db, n) && Touches(db.core, n.core, a, row.intentId)
    ensures a in n.core.actions && n.core.actions[a] == row
  {
    assert CoreInv(n.core) && IndexInv(n.core) by {
      assert DbKeeps(db, CoreFacet) && DbKeeps(db, IndexFacet);
      AdvanceKeepsInv(db.core, a, row, e, next, id, draws, db.now);
    }
    CoreOf(db);
    AdvanceTouches(db.core, a, row, e, next, id, draws, db.now);
    RestAdvanced(db, n, a, row.intentId);
    DbInvIntro(n);
  }

  /** The same for a whole run that ends with it. */
  lemma AdvanceKeepsWorld(w: World, t: nat, n: Db, row: ActionRow, e: Option<S.Event>, next: Option<NextAction>,
                          id: nat, draws: seq<nat>)
    requires WorldInv(w) && t in w.runs && Current(w.db, w.runs[t].claim)
    requires MayAdvance(w.db.core, w.runs[t].claim.actionId, row, e, next) && !row.status.Leased?
    requires Advance(w.db.core, w.runs[t].claim.actionId, row, e, next, id, draws, w.db.now) == CoreOk(n.core)
    requires n.nonces == w.db.nonces && ControlGrows(w.db.control, n.control)
    requires V.Inv(n.venue) && VenueGrows(w.db.venue, n.venue)
    requires row.results.signed.None?
             || row.results.signed == w.db.core.actions[w.runs[t].claim.actionId].results.signed
    requires GrantBacked(w, w.runs[t].claim.actionId, row)
    requires SoldOut(Moved(w.db.core.intents[row.intentId], e).saga) ==> SaleConfirmed(n.core, n.venue, row.intentId)
    ensures WorldInv(Goto(w.(db := n), t, Done))
  {
    DbOf(w);
    AdvanceKeepsDb(w.db, n, w.runs[t].claim.actionId, row, e, next, id, draws);
    FinishKeepsWorld(w, t, n);
  }

  // ---------------------------------------------------------------- rewriting one row

  lemma PutTouches(core: Core, a: nat, row: ActionRow)
    requires a in core.actions && ActionGrows(core.actions[a], row) && IntentsOk(core)
    ensures Touches(core, SetAction(core, a, row), a, row.intentId) && Grows(core, SetAction(core, a, row))
  {
  }

  lemma PutKeepsCore(db: Db, a: nat, row: ActionRow)
    requires DbInv(db) && a in db.core.actions && ActionGrows(db.core.actions[a], row) && db.core.actions[a].Live()
    requires Placeable(db.core, a, row)
    ensures CoreInv(PutAction(db, a, row).core) && IndexInv(PutAction(db, a, row).core)
  {
    assert DbKeeps(db, CoreFacet) && DbKeeps(db, IndexFacet);
    SetActionKeepsInv(db.core, a, row);
    SetActionKeepsIndex(db.core, a, row);
  }

  lemma PutKeepsSignatures(db: Db, a: nat, row: ActionRow)
    requires DbInv(db) && a in db.core.actions && SignedNonce(PutAction(db, a, row), a)
    ensures SignedNonces(PutAction(db, a, row))
  {
    var n := PutAction(db, a, row);
    assert DbKeeps(db, SignatureFacet);
    forall b | b in n.core.actions ensures SignedNonce(n, b) {
      if b != a { assert SignedNonce(db, b); }
    }
  }

  lemma PutKeepsDb(db: Db, a: nat, row: ActionRow)
    requires DbInv(db) && a in db.core.actions && ActionGrows(db.core.actions[a], row) && db.core.actions[a].Live()
    requires Placeable(db.core, a, row)
    requires SignedNonce(PutAction(db, a, row), a)
    ensures DbInv(PutAction(db, a, row))
  {
    PutKeepsCore(db, a, row);
    PutKeepsFlat(db, a, row);
    PutKeepsSignatures(db, a, row);
    PutKeepsRest(db, a, row);
    DbInvIntro(PutAction(db, a, row));
  }

  lemma PutKeepsRest(db: Db, a: nat, row: ActionRow)
    requires DbInv(db)
    ensures IntentsValid(PutAction(db, a, row).core) && V.Inv(db.venue) && NonceInv(db.nonces)
  {
    assert DbKeeps(db, IntentFacet) && DbKeeps(db, VenueFacet) && DbKeeps(db, NonceFacet);
  }

  lemma PutGrows(db: Db, a: nat, row: ActionRow)
    requires DbInv(db) && a in db.core.actions && ActionGrows(db.core.actions[a], row)
    ensures DbGrows(db, PutAction(db, a, row))
    ensures Touches(db.core, PutAction(db, a, row).core, a, row.intentId)
  {
    CoreOf(db);
    PutTouches(db.core, a, row);
  }

  lemma PutKeepsFlat(db: Db, a: nat, row: ActionRow)
    requires DbInv(db) && a in db.core.actions && ActionGrows(db.core.actions[a], row)
    ensures FlatInv(PutAction(db, a, row).core, db.venue)
  {
    assert DbKeeps(db, CoreFacet) && DbKeeps(db, ClosureFacet);
    var n := PutAction(db, a, row);
    PutTouches(db.core, a, row);
    forall j | j in n.core.intents && SoldOut(n.core.intents[j].saga) ensures SaleConfirmed(n.core, n.venue, j) {
      SaleStays(db.core, n.core, db.venue, n.venue, j);
    }
  }

  // A live row may pass between pending and leased.
  lemma RestatusPlaceable(core: Core, a: nat, status: Status, at: nat)
    requires ActionsOk(core) && LiveActionsOk(core) && a in core.actions && core.actions[a].Live()
    requires status.Pending? || status.Leased?
    ensures Placeable(core, a, core.actions[a].(status := status, availableAt := at))
    ensures ActionGrows(core.actions[a], core.actions[a].(status := status, availableAt := at))
  {
    assert Owned(core, a);
  }

  lemma RestatusKeepsDb(db: Db, a: nat, status: Status, at: nat)
    requires DbInv(db) && a in db.core.actions && db.core.actions[a].Live() && (status.Pending? || status.Leased?)
    ensures var after := db.core.actions[a].(status := status, availableAt := at);
            ActionGrows(db.core.actions[a], after) && DbInv(PutAction(db, a, after))
  {
    assert SignedNonce(db, a) by { assert DbKeeps(db, SignatureFacet); }
    CoreOf(db);
    RestatusPlaceable(db.core, a, status, at);
    PutKeepsDb(db, a, db.core.actions[a].(status := status, availableAt := at));
  }
}
