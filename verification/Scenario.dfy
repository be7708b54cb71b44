/**
 * One run in full: a worker claims an entry, signs and authorizes it, stalls past its lease,
 * loses the action to a second worker, and sends all the same.
 */
module Scenarios {
  import opened Common
  import opened CoordinatorTypes
  import opened StoreOps
  import opened WorkerDecisions
  import opened Worlds
  import opened WorldInvariants
  import opened CoreRequests
  import opened OutsideSteps
  import opened LostLeases
  import opened Coordinator
  import V = VenueLogs
  import S = Sagas
  import P = PairIntents

  // The intent of the source's own tests (execution/src/intent.rs).
  const CANARY: P.PairIntent := P.PairIntent(
    0x1111_1111_1111_1111_1111_1111_1111_1111_1111_1111_1111_1111_1111_1111_1111_1111,
    0x2222_2222_2222_2222_2222_2222_2222_2222_2222_2222_2222_2222_2222_2222_2222_2222, "NVDA", 1, 101, P.Buy, P.Short, 25_000_000, 25_000_000, 10_000_000_000,
    2_000_000, 25_000_000, 1_990_000, 24_000_000, 6, 1, 1_000_000, 6, 3, 25_000,
    1, 30_000, 2, 3, 301_000, 601_000, 86_401_000, 1_000_000, 1_000, 1_500,
    P.FrozenEvidence(
      0xdddd_dddd_dddd_dddd_dddd_dddd_dddd_dddd_dddd_dddd_dddd_dddd_dddd_dddd_dddd_dddd, "strategy",
      0xaaaa_aaaa_aaaa_aaaa_aaaa_aaaa_aaaa_aaaa_aaaa_aaaa_aaaa_aaaa_aaaa_aaaa_aaaa_aaaa,
      0xbbbb_bbbb_bbbb_bbbb_bbbb_bbbb_bbbb_bbbb_bbbb_bbbb_bbbb_bbbb_bbbb_bbbb_bbbb_bbbb, 900, 1_500, 500_000_000_000_000_000, 25_000))

  lemma CanaryNotional()
    ensures P.DerivedPerpNotional(CANARY) == Some(25_000_000)
  {
    assert P.Pow10(3) == 1_000;
    P.Pow10Adds(6, 3);
    P.Pow10Adds(3, 3);
    assert P.Pow10(9) == 1_000_000_000;
  }

  lemma CanaryExposure()
    ensures P.ExposureMatches(CANARY)
  {
  }

  /** Validation accepts the intent the source's tests use. */
  lemma CanaryIsValid()
    ensures P.Valid(CANARY)
  {
    CanaryNotional();
    CanaryExposure();
  }

  // What every step of this run reads from outside.
  function Outside(nowMs: nat): (e: Env) {
    Env(nowMs, 0, [], 0, Scope(1, 2), Some(0), SignedBy(9, true), true, SpotBusy, None, None, false)
  }

  function EntryOrder(i: P.PairIntent): (o: LighterOrder) {
    LighterOrder(i.marketIndex, i.clientOrderIndex, i.baseAmount, i.limitPrice, true, false, 0, i.orderExpiry)
  }

  function EntryTx(i: P.PairIntent): (t: SignedTx) { SignedTx(9, EntryOrder(i), true) }

  // The intent may be admitted and its entry sent at `nowMs`.
  predicate Sendable(i: P.PairIntent, nowMs: nat) {
    P.Valid(i) && i.createdAt <= nowMs <= i.deadline && i.baseAmount <= I64_MAX && i.orderExpiry <= I64_MAX
  }

  // ---------------------------------------------------------------- the stages

  function Prechecked(i: P.PairIntent): (s: S.Saga) { S.Saga(i.id, S.Prechecked, 1, 0, 0, 0) }

  // Nothing but this intent and its entry is in the tables.
  predicate Alone(w: World, i: P.PairIntent) {
    && i.id in w.db.core.intents && w.db.core.intents[i.id].intent == i
    && w.db.core.intents[i.id].saga == Prechecked(i)
    && w.db.core.actions.Keys == {1} && w.db.core.cursors == map[] && w.db.venue == V.EMPTY
  }

  predicate Queued(w: World, i: P.PairIntent) {
    && Alone(w, i)
    && w.runs == map[] && w.db.now == 0 && w.db.control == Control(Active, 0, 0)
    && w.db.nonces == NonceTable(map[], map[])
    && 1 in w.db.core.actions
    && w.db.core.actions[1] == ActionRow(i.id, SubmitPerp, EntryPerpKey, NO_PAYLOAD, NO_RESULTS, Pending, 0)
  }

  predicate Holding(w: World, i: P.PairIntent, pc: Pc, results: Results) {
    && Alone(w, i)
    && w.runs.Keys == {1} && w.runs[1].pc == pc
    && w.db.now == 0 && w.db.control == Control(Active, 0, 0)
    && 1 in w.db.core.actions
    && w.db.core.actions[1] == ActionRow(i.id, SubmitPerp, EntryPerpKey, NO_PAYLOAD, results, Leased(Lease(1, 1, 60)), 0)
    && var c := w.runs[1].claim;
    && c.actionId == 1 && c.worker == 1 && c.token == 1 && c.intent == i && c.kind.SubmitPerp?
    && c.results == NO_RESULTS && c.controlVersion == 0
    && (1 in w.db.nonces.reservations ==> w.db.nonces.reservations[1] == Reservation(Scope(1, 2), 0))
    && (1 !in w.db.nonces.reservations ==> w.db.nonces == NonceTable(map[], map[]))
  }

  lemma Admit(i: P.PairIntent, nowMs: nat)
    requires Sendable(i, nowMs)
    ensures var open := Next(INITIAL, SetMode(Active, 0));
            Queued(Next(open, Create(i, nowMs, true, 1)), i)
  {
    var open := Next(INITIAL, SetMode(Active, 0));
    ValidMeansNamed(i);
    var core := Admitted(open.db.core, i);
    assert !KeyTaken(core, i.id, EntryPerpKey);
    assert open.db.core.spotIds.Keys !! ReservedSpotIds(i) && open.db.core.orderIndexes.Keys !! ReservedOrders(i);
  }

  lemma ClaimEntry(w: World, i: P.PairIntent)
    requires Queued(w, i)
    ensures Holding(Next(w, TakeLease(1, 1, 1, 60)), i, Start, NO_RESULTS)
  {
  }

  lemma EntryTakesNonce(db: Db)
    requires 1 in db.core.actions && db.core.actions[1].status == Leased(Lease(1, 1, 60)) && db.now == 0
    requires db.core.actions[1].kind.SubmitPerp?
    requires 1 in db.nonces.reservations ==> db.nonces.reservations[1] == Reservation(Scope(1, 2), 0)
    requires 1 !in db.nonces.reservations ==> db.nonces == NonceTable(map[], map[])
    ensures var r := AssignLighterNonce(db, 1, 1, 1, Scope(1, 2), 0);
            && r.NonceOk? && r.nonce == 0 && r.db == db.(nonces := r.db.nonces)
            && 1 in r.db.nonces.reservations && r.db.nonces.reservations[1] == Reservation(Scope(1, 2), 0)
  {
  }

  lemma AssignEntry(w: World, i: P.PairIntent, nowMs: nat)
    requires Holding(w, i, Start, NO_RESULTS) && Sendable(i, nowMs)
    ensures Holding(Next(w, WorkOn(1, Outside(nowMs))), i, NonceAssigned(0), NO_RESULTS)
  {
    EntryTakesNonce(w.db);
  }

  lemma EntryIsSigned(w: World, i: P.PairIntent, nowMs: nat)
    requires 1 in w.runs && w.runs[1].pc == NonceAssigned(0)
    requires w.runs[1].claim.intent == i && w.runs[1].claim.kind.SubmitPerp? && Sendable(i, nowMs)
    ensures var c := w.runs[1].claim;
            Next(w, WorkOn(1, Outside(nowMs)))
            == Commit(w, 1, RecordSigned(w.db, c.actionId, c.worker, c.token, EntryTx(i)), HaveSigned(EntryTx(i)))
  {
    assert LighterRequest(w.runs[1].claim, 0) == Some(EntryOrder(i));
  }

  lemma SignEntry(w: World, i: P.PairIntent, nowMs: nat)
    requires Holding(w, i, NonceAssigned(0), NO_RESULTS) && Sendable(i, nowMs)
    ensures Holding(Next(w, WorkOn(1, Outside(nowMs))), i, HaveSigned(EntryTx(i)), NO_RESULTS.(signed := Some(EntryTx(i))))
  {
    EntryIsSigned(w, i, nowMs);
  }

  lemma ClearEntry(w: World, i: P.PairIntent, nowMs: nat, r: Results)
    requires Holding(w, i, HaveSigned(EntryTx(i)), r)
    ensures Holding(Next(w, WorkOn(1, Outside(nowMs))), i, Cleared(EntryTx(i)), r)
  {
  }

  lemma AuthorizeEntry(w: World, i: P.PairIntent, nowMs: nat, r: Results)
    requires Holding(w, i, Cleared(EntryTx(i)), r)
    ensures Holding(Next(w, WorkOn(1, Outside(nowMs))), i, MaySend(EntryTx(i)), r.(authorized := Some(EntrySend(0))))
  {
  }

  // Time passes, and a second worker takes the expired lease.
  lemma LoseLease(w: World, i: P.PairIntent, r: Results)
    requires Holding(w, i, MaySend(EntryTx(i)), r) && r.authorized.Some?
    ensures var n := Next(Next(w, Tick(61)), TakeLease(1, 2, 2, 60));
            && 1 in n.runs && n.runs[1] == w.runs[1] && 1 in n.db.core.actions
            && n.db.core.actions[1].status == Leased(Lease(2, 2, 121))
            && !Current(n.db, n.runs[1].claim)
            && 2 in n.runs && n.runs[2].claim.actionId == 1 && Current(n.db, n.runs[2].claim)
  {
  }

  lemma Append(steps: seq<Step>, s: Step)
    ensures After(steps + [s]) == Next(After(steps), s)
  {
    assert (steps + [s])[..|steps|] == steps;
  }

  lemma RunAppend(steps: seq<Step>, s: Step)
    requires Coordinator.Run(steps) && Admissible(s)
    ensures Coordinator.Run(steps + [s]) && After(steps + [s]) == Next(After(steps), s)
  {
    Append(steps, s);
  }

  lemma RunUpToClaim(i: P.PairIntent, nowMs: nat) returns (steps: seq<Step>)
    requires Sendable(i, nowMs)
    ensures Coordinator.Run(steps) && Holding(After(steps), i, Start, NO_RESULTS)
  {
    RunAppend([], SetMode(Active, 0));
    steps := [] + [SetMode(Active, 0)];
    Admit(i, nowMs);
    RunAppend(steps, Create(i, nowMs, true, 1));
    steps := steps + [Create(i, nowMs, true, 1)];
    ClaimEntry(After(steps), i);
    RunAppend(steps, TakeLease(1, 1, 1, 60));
    steps := steps + [TakeLease(1, 1, 1, 60)];
  }

  lemma RunUpToAuthorization(i: P.PairIntent, nowMs: nat) returns (steps: seq<Step>)
    requires Sendable(i, nowMs)
    ensures Coordinator.Run(steps)
    ensures Holding(After(steps), i, MaySend(EntryTx(i)),
                    NO_RESULTS.(signed := Some(EntryTx(i)), authorized := Some(EntrySend(0))))
  {
    var work := WorkOn(1, Outside(nowMs));
    steps := RunUpToClaim(i, nowMs);
    AssignEntry(After(steps), i, nowMs);
    RunAppend(steps, work);
    steps := steps + [work];
    SignEntry(After(steps), i, nowMs);
    RunAppend(steps, work);
    steps := steps + [work];
    ClearEntry(After(steps), i, nowMs, NO_RESULTS.(signed := Some(EntryTx(i))));
    RunAppend(steps, work);
    steps := steps + [work];
    AuthorizeEntry(After(steps), i, nowMs, NO_RESULTS.(signed := Some(EntryTx(i))));
    RunAppend(steps, work);
    steps := steps + [work];
  }

  lemma RunUpToLoss(i: P.PairIntent, nowMs: nat) returns (steps: seq<Step>)
    requires Sendable(i, nowMs)
    ensures Coordinator.Run(steps) && 1 in After(steps).runs && 2 in After(steps).runs
    ensures After(steps).runs[1].pc == MaySend(EntryTx(i)) && !Current(After(steps).db, After(steps).runs[1].claim)
    ensures Current(After(steps).db, After(steps).runs[2].claim)
    ensures After(steps).runs[1].claim.actionId == 1 && After(steps).runs[2].claim.actionId == 1
  {
    var front := RunUpToAuthorization(i, nowMs);
    LoseLease(After(front), i, NO_RESULTS.(signed := Some(EntryTx(i)), authorized := Some(EntrySend(0))));
    RunAppend(front, Tick(61));
    RunAppend(front + [Tick(61)], TakeLease(1, 2, 2, 60));
    steps := front + [Tick(61)] + [TakeLease(1, 2, 2, 60)];
  }

  /**
   * Entries are sent, and a worker without the lease can be the one that sends: of any sendable
   * intent there is a run in which the sender's lease already belongs to another worker.
   */
  lemma StalledWorkerSends(i: P.PairIntent, nowMs: nat) returns (before: seq<Step>, steps: seq<Step>)
    requires Sendable(i, nowMs)
    ensures Coordinator.Run(before) && steps == before + [WorkOn(1, Outside(nowMs))]
    ensures var w := After(before);
            && Stale(w, 1) && 2 in w.runs && Current(w.db, w.runs[2].claim)
            && w.runs[2].claim.actionId == w.runs[1].claim.actionId
    ensures After(steps).sent == After(before).sent + [(1, EntryTx(i))]
  {
    before := RunUpToLoss(i, nowMs);
    steps := before + [WorkOn(1, Outside(nowMs))];
    Append(before, WorkOn(1, Outside(nowMs)));
    ReachesExactly(After(before), 1, Outside(nowMs));
  }
}
