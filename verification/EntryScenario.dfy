/** The first half that two runs share: an entry is accepted, recorded, and waits for news of its order. */
module EntryScenarios {
  import opened Common
  import opened CoordinatorTypes
  import opened StoreOps
  import opened WorkerDecisions
  import opened Worlds
  import opened Coordinator
  import opened Scenarios
  import S = Sagas
  import P = PairIntents
  import V = VenueLogs

  function Reading(nowMs: nat, id: nat, event: Option<nat>): (e: Env) { Outside(nowMs).(newId := id, event := event) }

  function Submitted(i: P.PairIntent): (s: S.Saga) { S.Saga(i.id, S.State.PerpSubmitted, 2, 0, 0, 0) }

  function Reconciliation(i: P.PairIntent, results: Results, status: Status, at: nat): (r: ActionRow) {
    ActionRow(i.id, ReconcilePerp, ReconcileEntryKey, NO_PAYLOAD.(txHash := Some(9)), results, status, at)
  }

  // The episode waits for news of its order: the saga and the reconciliation.
  predicate Waiting(w: World, i: P.PairIntent, s: S.Saga, row: ActionRow) {
    && i.id in w.db.core.intents && w.db.core.intents[i.id].intent == i && w.db.core.intents[i.id].saga == s
    && w.db.core.actions.Keys == {1, 2} && w.db.core.actions[1].key == EntryPerpKey && w.db.core.actions[2] == row
    && w.db.core.cursors == map[]
  }

  // The lease tokens used so far.
  predicate TokensUpTo(w: World, n: nat) { forall t | t in w.runs :: t <= n }

  predicate Claimed(w: World, i: P.PairIntent, t: nat, pc: Pc, s: S.Saga, results: Results) {
    && t in w.runs && w.runs[t].pc == pc
    && var c := w.runs[t].claim;
    && c.actionId == 2 && c.worker == 1 && c.token == t && c.intent == i && c.saga == s
    && c.kind == ReconcilePerp && c.payload == NO_PAYLOAD.(txHash := Some(9)) && c.results == results
  }

  lemma AcceptEntry(w: World, i: P.PairIntent, nowMs: nat, r: Results)
    requires Holding(w, i, MaySend(EntryTx(i)), r)
    ensures Holding(Next(w, WorkOn(1, Reading(nowMs, 2, None))), i, Accepted(Submission(0, 9)), r)
  {
  }

  lemma RecordEntry(w: World, i: P.PairIntent, nowMs: nat, r: Results)
    requires Holding(w, i, Accepted(Submission(0, 9)), r)
    ensures Holding(Next(w, WorkOn(1, Reading(nowMs, 2, None))), i, Recorded(Submission(0, 9)),
                    r.(submission := Some(Submission(0, 9))))
  {
  }

  lemma EntryCompletes(core: Core, i: P.PairIntent, row: ActionRow)
    requires core.actions.Keys == {1} && core.actions[1].key == EntryPerpKey && core.cursors == map[]
    requires row.intentId == i.id && row.key == EntryPerpKey
    requires i.id in core.intents && core.intents[i.id].intent == i && core.intents[i.id].saga == Prechecked(i)
    ensures var next := NextAction(ReconcilePerp, ReconcileEntryKey, NO_PAYLOAD.(txHash := Some(9)));
            var r := Advance(core, 1, row, Some(S.Event.PerpSubmitted), Some(next), 2, [], 0);
            && r.CoreOk? && i.id in r.core.intents && r.core.intents[i.id].intent == i
            && r.core.intents[i.id].saga == Submitted(i) && r.core.cursors == map[]
            && r.core.actions.Keys == {1, 2} && r.core.actions[1].key == EntryPerpKey
            && r.core.actions[2] == Reconciliation(i, NO_RESULTS, Pending, 0)
  {
    var moved := core.(actions := core.actions[1 := row]);
    assert forall a | a in moved.actions :: moved.actions[a].key == EntryPerpKey;
  }

  lemma WorkAtRecorded(w: World, sub: Submission, env: Env)
    requires 1 in w.runs && w.runs[1].pc == Recorded(sub) && w.runs[1].claim.kind.SubmitPerp?
    ensures Next(w, WorkOn(1, env)) == CompletePerp(w, 1, sub, env)
  {
  }

  lemma CompleteEntry(w: World, i: P.PairIntent, nowMs: nat, r: Results)
    requires Holding(w, i, Recorded(Submission(0, 9)), r)
    ensures var n := Next(w, WorkOn(1, Reading(nowMs, 2, None)));
            && Waiting(n, i, Submitted(i), Reconciliation(i, NO_RESULTS, Pending, 0))
            && n.db.venue == V.EMPTY && n.db.now == 0 && TokensUpTo(n, 1)
  {
    WorkAtRecorded(w, Submission(0, 9), Reading(nowMs, 2, None));
    var row := w.db.core.actions[1];
    EntryCompletes(w.db.core, i,
                   row.(status := Succeeded, results := row.results.(completion := Some(Submission(0, 9)))));
  }

  lemma UpToWaiting(i: P.PairIntent, nowMs: nat) returns (steps: seq<Step>)
    requires Sendable(i, nowMs)
    ensures Coordinator.Run(steps) && Waiting(After(steps), i, Submitted(i), Reconciliation(i, NO_RESULTS, Pending, 0))
    ensures After(steps).db.venue == V.EMPTY && After(steps).db.now == 0 && TokensUpTo(After(steps), 1)
  {
    steps := RunUpToAuthorization(i, nowMs);
    var work := WorkOn(1, Reading(nowMs, 2, None));
    var r := NO_RESULTS.(signed := Some(EntryTx(i)), authorized := Some(EntrySend(0)));
    AcceptEntry(After(steps), i, nowMs, r);
    RunAppend(steps, work);
    steps := steps + [work];
    RecordEntry(After(steps), i, nowMs, r);
    RunAppend(steps, work);
    steps := steps + [work];
    CompleteEntry(After(steps), i, nowMs, r.(submission := Some(Submission(0, 9))));
    RunAppend(steps, work);
    steps := steps + [work];
  }

  lemma ReconciliationIsClaimable(db: Db, i: P.PairIntent, t: nat, s: S.Saga, results: Results, at: nat)
    requires i.id in db.core.intents && db.core.intents[i.id].intent == i && db.core.intents[i.id].saga == s
    requires 2 in db.core.actions && db.core.actions[2] == Reconciliation(i, results, Pending, at) && at <= db.now
    ensures ClaimAction(db, 2, 1, t, 60)
            == Some((PutAction(db, 2, Reconciliation(i, results, Leased(Lease(1, t, db.now + 60)), at)),
                     Claim(2, 1, t, i, s, ReconcilePerp, NO_PAYLOAD.(txHash := Some(9)), results,
                           db.control.version, db.control.halts)))
  {
  }

  lemma ClaimReconciliation(w: World, i: P.PairIntent, t: nat, s: S.Saga, results: Results, at: nat) returns (step: Step)
    requires Waiting(w, i, s, Reconciliation(i, results, Pending, at)) && at <= w.db.now && t > 0 && TokensUpTo(w, t - 1)
    ensures Admissible(step)
    ensures var n := Next(w, step);
            && Waiting(n, i, s, Reconciliation(i, results, Leased(Lease(1, t, w.db.now + 60)), at))
            && Claimed(n, i, t, Start, s, results) && n.db.venue == w.db.venue && n.db.now == w.db.now
            && TokensUpTo(n, t)
  {
    ReconciliationIsClaimable(w.db, i, t, s, results, at);
    step := TakeLease(2, 1, t, 60);
  }

  lemma WorkAtStart(w: World, t: nat, env: Env)
    requires t in w.runs && w.runs[t].pc.Start? && w.runs[t].claim.kind.ReconcilePerp?
    ensures Next(w, WorkOn(t, env)) == ReconcileStart(w, t, env)
  {
  }

  lemma WorkAtChosen(w: World, t: nat, e: nat, env: Env)
    requires t in w.runs && w.runs[t].pc == Chosen(e)
    ensures Next(w, WorkOn(t, env)) == ReconcileChosen(w, t, e, env)
  {
  }
}
