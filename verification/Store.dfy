/**
 * The store object of coordinator/src/store.rs.  A `Transaction` updates its tables step by step
 * and is dropped when a step fails; `Store` commits one, so a failed call leaves no trace.
 */
module Stores {
  import opened Common
  import opened CoordinatorTypes
  import opened StoreOps
  import opened Worlds
  import opened CoreRequests
  import S = Sagas
  import P = PairIntents
  import X = ExitAuthorities
  import V = VenueLogs

  class Transaction {
    var intents: map<nat, IntentRow>
    var actions: map<nat, ActionRow>
    var cursors: map<nat, nat>
    var orderIndexes: map<nat, nat>
    var spotIds: map<nat, nat>

    function View(): (c: Core)
      reads this
    {
      Core(intents, actions, cursors, orderIndexes, spotIds)
    }

    constructor (c: Core)
      ensures View() == c
    {
      intents, actions, cursors, orderIndexes, spotIds := c.intents, c.actions, c.cursors, c.orderIndexes, c.spotIds;
    }

    /** `transition_saga`: state, version and log move together, and a refused event moves nothing. */
    method MoveSaga(i: nat, e: S.Event) returns (failure: Option<StoreError>)
      modifies this`intents
      ensures TransitionSaga(old(View()), i, e)
              == if failure.None? then CoreOk(View()) else CoreErr(failure.value)
      ensures failure.Some? ==> View() == old(View())
    {
      if i !in intents { return Some(MissingIntent); }
      var row := intents[i];
      match S.Apply(row.saga, e) {
        case Refused(cause) => return Some(Transition(cause));
        case Accepted(s) =>
          intents := intents[i := IntentRow(row.intent, s, row.log + [e], !s.state.ExposureResolved())];
          return None;
      }
    }

    /** `allocate_operator_order_index`: the first of sixteen draws nobody holds, registered to the intent. */
    method AllocateOperatorIndex(i: nat, draws: seq<nat>) returns (index: Option<nat>)
      modifies this`orderIndexes
      ensures index == FirstFree(old(orderIndexes), if |draws| <= 16 then draws else draws[..16])
      ensures orderIndexes == if index.Some? then old(orderIndexes)[index.value := i] else old(orderIndexes)
    {
      var tries := if |draws| <= 16 then draws else draws[..16];
      var k := 0;
      while k < |tries|
        invariant 0 <= k <= |tries| && orderIndexes == old(orderIndexes)
        invariant FirstFree(orderIndexes, tries) == FirstFree(orderIndexes, tries[k..])
      {
        if tries[k] !in orderIndexes {
          orderIndexes := orderIndexes[tries[k] := i];
          return Some(tries[k]);
        }
        assert tries[k..][1..] == tries[k + 1..];
        k := k + 1;
      }
      return None;
    }

    method InsertAction(i: nat, kind: ActionKind, key: Key, payload: Payload, id: nat, now: nat)
      returns (failure: Option<StoreError>)
      modifies this`actions
      ensures Insert(old(View()), i, kind, key, payload, id, now)
              == if failure.None? then CoreOk(View()) else CoreErr(failure.value)
      ensures failure.Some? ==> View() == old(View())
    {
      if id in actions || KeyTaken(View(), i, key) { return Some(Conflict); }
      actions := actions[id := ActionRow(i, kind, key, payload, NO_RESULTS, Pending, now)];
      return None;
    }

    /** `enqueue_action` */
    method EnqueueAction(i: nat, next: NextAction, id: nat, draws: seq<nat>, now: nat)
      returns (failure: Option<StoreError>)
      requires i in intents
      modifies this
      ensures Enqueue(old(View()), i, next, id, draws, now)
              == if failure.None? then CoreOk(View()) else CoreErr(failure.value)
    {
      var payload := next.payload;
      if next.kind.UnwindPerp? {
        var intent := intents[i].intent;
        var attempt := if i in cursors then cursors[i] else 0;
        if attempt < intent.maxUnwindAttempts {
          cursors := cursors[i := attempt + 1];
          payload := payload.(attempt := Some(attempt), orderIndex := Some(intent.unwindOrderIndex + attempt));
        } else if payload.operatorRecovery {
          var index := AllocateOperatorIndex(i, draws);
          if index.None? { return Some(Conflict); }
          payload := payload.(orderIndex := index);
        } else {
          return Some(InvalidAction);
        }
      }
      failure := InsertAction(i, next.kind, next.key, payload, id, now);
    }

    /** Close or re-queue one action, move its saga, queue its successor. */
    method AdvanceAction(a: nat, row: ActionRow, e: Option<S.Event>, next: Option<NextAction>, id: nat, draws: seq<nat>,
                         now: nat) returns (failure: Option<StoreError>)
      modifies this
      ensures Advance(old(View()), a, row, e, next, id, draws, now)
              == if failure.None? then CoreOk(View()) else CoreErr(failure.value)
    {
      if e.Some? {
        failure := MoveSaga(row.intentId, e.value);
        if failure.Some? { return; }
      } else if row.intentId !in intents {
        return Some(MissingIntent);
      }
      actions := actions[a := row];
      failure := None;
      if next.Some? { failure := EnqueueAction(row.intentId, next.value, id, draws, now); }
    }

    /** The saga moves of `request_exit` and `request_recovery`, one after the other, then their action. */
    method ResumeEpisode(i: nat, events: seq<S.Event>, next: NextAction, id: nat, draws: seq<nat>, now: nat)
      returns (failure: Option<StoreError>)
      requires i in intents
      modifies this
      ensures Resume(old(View()), i, events, next, id, draws, now)
              == if failure.None? then CoreOk(View()) else CoreErr(failure.value)
    {
      ghost var begun := View();
      var k := 0;
      while k < |events|
        invariant 0 <= k <= |events| && i in intents
        invariant Resume(begun, i, events, next, id, draws, now) == Resume(View(), i, events[k..], next, id, draws, now)
      {
        assert events[k..][0] == events[k] && events[k..][1..] == events[k + 1..];
        failure := MoveSaga(i, events[k]);
        if failure.Some? { return; }
        k := k + 1;
      }
      assert events[k..] == [];
      failure := EnqueueAction(i, next, id, draws, now);
    }

    /** The identifier rows of `create_intent`: all of them, or the first one taken refuses. */
    method ReserveIdentifiers(intent: P.PairIntent) returns (ok: bool)
      requires intent.id != intent.spotUnwindId
      requires !(intent.unwindOrderIndex <= intent.clientOrderIndex < intent.unwindOrderIndex + intent.maxUnwindAttempts)
      modifies this`spotIds, this`orderIndexes
      ensures ok <==> old(spotIds.Keys !! ReservedSpotIds(intent) && orderIndexes.Keys !! ReservedOrders(intent))
      ensures ok ==> spotIds == Claiming(old(spotIds), ReservedSpotIds(intent), intent.id)
      ensures ok ==> orderIndexes == Claiming(old(orderIndexes), ReservedOrders(intent), intent.id)
    {
      ok := false;
      if intent.id in spotIds { return; }
      spotIds := spotIds[intent.id := intent.id];
      if intent.spotUnwindId in spotIds { return; }
      spotIds := spotIds[intent.spotUnwindId := intent.id];
      if intent.clientOrderIndex in orderIndexes {
        assert intent.clientOrderIndex in ReservedOrders(intent);
        return;
      }
      orderIndexes := orderIndexes[intent.clientOrderIndex := intent.id];
      ok := ReserveAttempts(intent);
      if ok {
        assert spotIds == Claiming(old(spotIds), ReservedSpotIds(intent), intent.id);
        assert orderIndexes == Claiming(old(orderIndexes), ReservedOrders(intent), intent.id);
      }
    }

    /** The writes of `create_intent`: the intent, its identifiers, its entry action. */
    method Admit(intent: P.PairIntent, id: nat, now: nat) returns (failure: Option<StoreError>)
      requires intent.id != 0 && intent.id != intent.spotUnwindId
      requires !(intent.unwindOrderIndex <= intent.clientOrderIndex < intent.unwindOrderIndex + intent.maxUnwindAttempts)
      modifies this
      ensures if old(spotIds.Keys !! ReservedSpotIds(intent) && orderIndexes.Keys !! ReservedOrders(intent))
              then Enqueue(Admitted(old(View()), intent), intent.id, ENTRY, id, [], now)
                   == (if failure.None? then CoreOk(View()) else CoreErr(failure.value))
              else failure == Some(Conflict)
    {
      var saga := S.Apply(S.New(intent.id).saga, S.PrecheckPassed).saga;
      intents := intents[intent.id := IntentRow(intent, saga, [S.PrecheckPassed], true)];
      var reserved := ReserveIdentifiers(intent);
      if !reserved { return Some(Conflict); }
      failure := EnqueueAction(intent.id, ENTRY, id, [], now);
    }

    method ReserveAttempts(intent: P.PairIntent) returns (ok: bool)
      modifies this`orderIndexes
      ensures ok <==> forall v | intent.unwindOrderIndex <= v < intent.unwindOrderIndex + intent.maxUnwindAttempts ::
                        v !in old(orderIndexes)
      ensures ok ==> forall v: nat ::
                && (v in orderIndexes <==>
                      v in old(orderIndexes)
                      || intent.unwindOrderIndex <= v < intent.unwindOrderIndex + intent.maxUnwindAttempts)
                && (v in orderIndexes ==>
                      orderIndexes[v] == if v in old(orderIndexes) then old(orderIndexes)[v] else intent.id)
    {
      var k := 0;
      while k < intent.maxUnwindAttempts
        invariant 0 <= k <= intent.maxUnwindAttempts
        invariant forall v | intent.unwindOrderIndex <= v < intent.unwindOrderIndex + k :: v !in old(orderIndexes)
        invariant forall v: nat ::
                    && (v in orderIndexes <==>
                          v in old(orderIndexes) || intent.unwindOrderIndex <= v < intent.unwindOrderIndex + k)
                    && (v in orderIndexes ==>
                          orderIndexes[v] == if v in old(orderIndexes) then old(orderIndexes)[v] else intent.id)
      {
        var value := intent.unwindOrderIndex + k;
        if value in orderIndexes { return false; }
        orderIndexes := orderIndexes[value := intent.id];
        k := k + 1;
      }
      return true;
    }
  }

  // ---------------------------------------------------------------- routing

  // What `next_venue_event` does with its candidates, in the order the query lists them.
  function Scan(log: V.VenueLog, c: Claim, candidates: seq<nat>): (r: (V.VenueLog, Option<nat>))
    decreases |candidates|
  {
    if candidates == [] then (log, None)
    else
      var e := candidates[0];
      if e !in log.events then Scan(log, c, candidates[1..])
      else if PayloadMatches(c.kind, c.intent, c.payload, c.results, log.events[e].observation)
      then (V.AddRoute(log, e, V.Matched(c.actionId)), Some(e))
      else Scan(V.AddRoute(log, e, V.Quarantined(V.Mismatch)), c, candidates[1..])
  }

  ghost predicate Distinct(xs: seq<nat>) { forall i, j | 0 <= i < j < |xs| :: xs[i] != xs[j] }

  lemma RoutingKeepsCandidates(log: V.VenueLog, e: nat, route: V.Route, xs: seq<nat>)
    requires e !in xs && forall x | x in xs :: V.Candidate(log, x)
    ensures forall x | x in xs :: V.Candidate(V.AddRoute(log, e, route), x)
  {
  }

  lemma MismatchKeeps(log: V.VenueLog, e: nat, rest: seq<nat>)
    requires V.Inv(log) && V.Candidate(log, e) && e !in rest && forall x | x in rest :: V.Candidate(log, x)
    ensures V.Inv(V.AddRoute(log, e, V.Quarantined(V.Mismatch)))
    ensures forall x | x in rest :: V.Candidate(V.AddRoute(log, e, V.Quarantined(V.Mismatch)), x)
  {
    V.RoutingKeepsInv(log, e, V.Quarantined(V.Mismatch));
    RoutingKeepsCandidates(log, e, V.Quarantined(V.Mismatch), rest);
  }

  /** Whatever the scan routes, the log stays sound. */
  lemma {:induction false} ScanKeepsInv(log: V.VenueLog, c: Claim, candidates: seq<nat>)
    requires V.Inv(log) && Distinct(candidates) && forall x | x in candidates :: V.Candidate(log, x)
    ensures V.Inv(Scan(log, c, candidates).0)
    decreases |candidates|
  {
    if candidates != [] {
      var e, rest := candidates[0], candidates[1..];
      assert V.Candidate(log, e);
      if PayloadMatches(c.kind, c.intent, c.payload, c.results, log.events[e].observation) {
        V.RoutingKeepsInv(log, e, V.Matched(c.actionId));
      } else {
        MismatchKeeps(log, e, rest);
        ScanKeepsInv(V.AddRoute(log, e, V.Quarantined(V.Mismatch)), c, rest);
      }
    }
  }

  /** What the scan chooses is an unapplied event about this very order that may be applied to its action. */
  lemma {:induction false} ScanChoosesOwnEvent(log: V.VenueLog, c: Claim, candidates: seq<nat>)
    requires Distinct(candidates) && forall x | x in candidates :: V.Candidate(log, x)
    ensures Scan(log, c, candidates).0.events == log.events && Scan(log, c, candidates).0.applied == log.applied
    ensures Scan(log, c, candidates).1.Some? ==>
              var e := Scan(log, c, candidates).1.value;
              && e in candidates && e in log.events && e !in log.applied
              && PayloadMatches(c.kind, c.intent, c.payload, c.results, log.events[e].observation)
              && V.Eligible(Scan(log, c, candidates).0, e, c.actionId)
    ensures Scan(log, c, candidates).1.None? ==>
              forall x | x in candidates ::
                x in log.events && !PayloadMatches(c.kind, c.intent, c.payload, c.results, log.events[x].observation)
    decreases |candidates|
  {
    if candidates != [] {
      var e, rest := candidates[0], candidates[1..];
      assert V.Candidate(log, e);
      RoutingKeepsCandidates(log, e, V.Quarantined(V.Mismatch), rest);
      ScanChoosesOwnEvent(V.AddRoute(log, e, V.Quarantined(V.Mismatch)), c, rest);
      assert candidates == [e] + rest;
    }
  }

  // A row of the first query: routed to this action and waiting.
  predicate RoutedTo(log: V.VenueLog, c: Claim, e: nat) {
    && e in log.events && log.events[e].intentId == c.intent.id && KindListens(c.kind, log.events[e].kind)
    && e in log.routes && log.routes[e] == V.Matched(c.actionId) && e !in log.applied
  }

  // A row of the second query: not routed yet, or quarantined for a gap that has healed.
  predicate Offered(log: V.VenueLog, c: Claim, e: nat) {
    V.Candidate(log, e) && log.events[e].intentId == c.intent.id && KindListens(c.kind, log.events[e].kind)
  }

  function NextEvent(log: V.VenueLog, c: Claim, candidates: seq<nat>): (r: (V.VenueLog, Option<nat>)) {
    var routed := set e | e in log.events && RoutedTo(log, c, e);
    if routed != {} then (log, Some(Least(routed))) else Scan(log, c, candidates)
  }

  /**
   * Whatever order the candidates come in, the answer is an unapplied event about this very order
   * that may be applied to its action, and there is none only if no offered event matches it.
   */
  lemma NextEventIsOwn(log: V.VenueLog, c: Claim, candidates: seq<nat>)
    requires V.Inv(log) && Distinct(candidates) && forall e :: e in candidates <==> Offered(log, c, e)
    ensures NextEvent(log, c, candidates).1.Some? ==>
              var e := NextEvent(log, c, candidates).1.value;
              && e in log.events && e !in log.applied && log.events[e].intentId == c.intent.id
              && KindListens(c.kind, log.events[e].kind) && V.Eligible(NextEvent(log, c, candidates).0, e, c.actionId)
    ensures NextEvent(log, c, candidates).1.None? ==>
              forall e | Offered(log, c, e) ::
                !PayloadMatches(c.kind, c.intent, c.payload, c.results, log.events[e].observation)
  {
    ScanChoosesOwnEvent(log, c, candidates);
    var routed := set e | e in log.events && RoutedTo(log, c, e);
    if routed != {} { RoutedIsEligible(log, c, Least(routed)); }
  }

  lemma RoutedIsEligible(log: V.VenueLog, c: Claim, e: nat)
    requires V.Inv(log) && RoutedTo(log, c, e)
    ensures V.Eligible(log, e, c.actionId)
  {
    assert V.EventOk(log, e);
  }

  /** One round of that loop is one step of a reconciling run. */
  lemma ScanIsSteps(w: World, t: nat, env: Env, e: nat)
    requires t in w.runs && env.event == Some(e) && V.Candidate(w.db.venue, e)
    requires w.db.venue.events[e].intentId == w.runs[t].claim.intent.id
    requires KindListens(w.runs[t].claim.kind, w.db.venue.events[e].kind)
    ensures var scanned := Scan(w.db.venue, w.runs[t].claim, [e]);
            var n := ReconcileStart(w, t, env);
            && n.db == w.db.(venue := scanned.0)
            && n.runs == if scanned.1.Some? then w.runs[t := w.runs[t].(pc := Chosen(e))] else w.runs
  {
    assert [e][1..] == [];
  }

  // ---------------------------------------------------------------- the store

  class Store {
    var now: nat
    var control: Control
    var core: Core
    var venue: V.VenueLog
    var nonces: NonceTable

    function View(): (db: Db)
      reads this
    {
      Db(now, control, core, venue, nonces)
    }

    // The outcome of a call, as the transaction on values reports it.
    ghost predicate Did(before: Db, r: DbResult, failure: Option<StoreError>)
      reads this
    {
      match r
      case DbOk(db) => failure.None? && View() == db
      case DbErr(e) => failure == Some(e) && View() == before
    }

    constructor ()
      ensures View() == INITIAL.db
    {
      now, control := 0, Control(Halted, 0, 0);
      core := Core(map[], map[], map[], map[], map[]);
      venue := V.EMPTY;
      nonces := NonceTable(map[], map[]);
    }

    method Advanced(a: nat, row: ActionRow, e: Option<S.Event>, next: Option<NextAction>, id: nat, draws: seq<nat>,
                    after: Control) returns (failure: Option<StoreError>)
      modifies this
      ensures Did(old(View()), Lift(old(View()), Advance(old(core), a, row, e, next, id, draws, old(now)), after), failure)
    {
      var tx := new Transaction(core);
      failure := tx.AdvanceAction(a, row, e, next, id, draws, now);
      if failure.Some? { return; }
      core := tx.View();
      control := after;
    }

    method Complete(a: nat, worker: nat, token: nat, e: Option<S.Event>, completion: Option<Submission>,
                    next: Option<NextAction>, id: nat, draws: seq<nat>) returns (failure: Option<StoreError>)
      modifies this
      ensures Did(old(View()), CompleteAction(old(View()), a, worker, token, e, completion, next, id, draws), failure)
    {
      if !Holds(View(), a, worker, token) { return Some(LeaseLost); }
      var row := core.actions[a];
      failure := Advanced(a, row.(status := Succeeded, results := row.results.(completion := completion)), e, next, id,
                          draws, control);
    }

    method Stop(a: nat, worker: nat, token: nat, stop: ActionStop, e: Option<S.Event>)
      returns (failure: Option<StoreError>)
      modifies this
      ensures Did(old(View()), StopAction(old(View()), a, worker, token, stop, e), failure)
    {
      if !Holds(View(), a, worker, token) { return Some(LeaseLost); }
      var status := if stop.StopRejected? then Rejected else FailedSafe;
      failure := Advanced(a, core.actions[a].(status := status), e, None, 0, [],
                          if stop.StopRejected? then control else Halt(control));
    }

    method Continue(a: nat, worker: nat, token: nat, e: Option<S.Event>, next: NextAction, id: nat)
      returns (failure: Option<StoreError>)
      modifies this
      ensures Did(old(View()), ContinueAmbiguous(old(View()), a, worker, token, e, next, id), failure)
    {
      if !Holds(View(), a, worker, token) { return Some(LeaseLost); }
      failure := Advanced(a, core.actions[a].(status := Ambiguous), e, Some(next), id, [], Halt(control));
    }

    /** `reschedule_action`: only the holder lets go, then nobody holds the action and nobody can claim it before its time. */
    method Reschedule(a: nat, worker: nat, token: nat, delay: nat) returns (failure: Option<StoreError>)
      modifies this`core
      ensures Did(old(View()), RescheduleAction(old(View()), a, worker, token, delay), failure)
      ensures failure.None? <==> old(Holds(View(), a, worker, token))
      ensures failure.None? ==> forall w, t :: !Holds(View(), a, w, t)
      ensures failure.None? && delay > 0 ==> !Claimable(View(), a)
      ensures failure.None? ==>
                && a in core.actions && core.actions[a].Live()
                && core.actions[a].payload == old(core).actions[a].payload
                && core.actions[a].results == old(core).actions[a].results
                && core == old(core).(actions := old(core).actions[a := core.actions[a]])
    {
      if !Holds(View(), a, worker, token) { return Some(LeaseLost); }
      var row := core.actions[a].(status := Pending, availableAt := now + delay);
      core := core.(actions := core.actions[a := row]);
      return None;
    }

    /** `claim_action`: taken only from nobody, then held by this worker alone, with a snapshot of what is stored. */
    method TakeAction(a: nat, worker: nat, token: nat, leaseFor: nat) returns (claim: Option<Claim>)
      modifies this`core
      ensures ClaimAction(old(View()), a, worker, token, leaseFor)
              == if claim.Some? then Some((View(), claim.value)) else None
      ensures claim.None? ==> View() == old(View())
      ensures claim.Some? ==> forall w, t :: !old(Holds(View(), a, w, t))
      ensures claim.Some? ==> forall w, t :: Holds(View(), a, w, t) <==> w == worker && t == token
      ensures claim.Some? ==>
                && a in core.actions && core.actions[a].intentId in core.intents
                && claim.value.saga == core.intents[core.actions[a].intentId].saga
                && claim.value.payload == core.actions[a].payload && claim.value.results == core.actions[a].results
                && claim.value.controlVersion == control.version
                && core == old(core).(actions := old(core).actions[a := core.actions[a]])
    {
      if worker == 0 || leaseFor == 0 || leaseFor > 60 || !Claimable(View(), a) { return None; }
      var row := core.actions[a];
      var irow := core.intents[row.intentId];
      core := core.(actions := core.actions[a := row.(status := Leased(Lease(worker, token, now + leaseFor)))]);
      return Some(Claim(a, worker, token, irow.intent, irow.saga, row.kind, row.payload, row.results,
                        control.version, control.halts));
    }

    /** `assign_lighter_nonce`: a drifted scope halts, a repeated request repeats its nonce. */
    method AssignNonce(a: nat, worker: nat, token: nat, scope: Scope, observed: nat)
      returns (nonce: Option<nat>, failure: Option<StoreError>)
      modifies this`control, this`nonces
      ensures nonce.Some? ==> a in nonces.reservations && nonces.reservations[a] == Reservation(scope, nonce.value)
      ensures nonce.Some? && a in old(nonces).reservations ==> View() == old(View())
      ensures nonce.Some? && a !in old(nonces).reservations ==>
                && nonce.value >= observed && (scope in old(nonces).next ==> nonce.value >= old(nonces).next[scope])
                && scope in nonces.next && nonces.next[scope] == nonce.value + 1 && control == old(control)
      ensures nonce.None? ==> nonces == old(nonces)
      ensures forall b | b in old(nonces).reservations && b != a ::
                b in nonces.reservations && nonces.reservations[b] == old(nonces).reservations[b]
      ensures match AssignLighterNonce(old(View()), a, worker, token, scope, observed)
              case NonceOk(db, n) => View() == db && nonce == Some(n) && failure.None?
              case NonceDrift(db) => View() == db && nonce.None? && failure == Some(LighterConfigDrift)
              case NonceErr(e) => View() == old(View()) && nonce.None? && failure == Some(e)
    {
      if !ValidScope(scope) || observed > I64_MAX { return None, Some(InvalidAction); }
      if !Holds(View(), a, worker, token) { return None, Some(LeaseLost); }
      if !OrderKind(core.actions[a].kind) { return None, Some(InvalidAction); }
      if a in nonces.reservations {
        if nonces.reservations[a].scope != scope {
          control := Halt(control);
          return None, Some(LighterConfigDrift);
        }
        return Some(nonces.reservations[a].nonce), None;
      }
      var stored := if scope in nonces.next then nonces.next[scope] else observed;
      var value := if stored >= observed then stored else observed;
      if value + 1 > I64_MAX { return None, Some(InvalidAction); }
      nonces := NonceTable(nonces.next[scope := value + 1], nonces.reservations[a := Reservation(scope, value)]);
      return Some(value), None;
    }

    /** `authorize_entry_send` under the control row's lock: the version must be the claimed one. */
    method AuthorizeEntry(a: nat, worker: nat, token: nat, claimed: nat) returns (failure: Option<StoreError>)
      modifies this`core
      ensures Did(old(View()), AuthorizeEntrySend(old(View()), a, worker, token, claimed), failure)
      ensures claimed < control.version || !control.mode.Active? ==> failure.Some? && View() == old(View())
      ensures failure.None? ==>
                && old(Holds(View(), a, worker, token)) && control.version == claimed
                && a in core.actions && core.actions[a].kind.SubmitPerp?
                && core.actions[a].results == old(core).actions[a].results.(authorized := Some(EntrySend(claimed)))
                && core == old(core).(actions := old(core).actions[a := core.actions[a]])
    {
      if !Holds(View(), a, worker, token) { return Some(LeaseLost); }
      var row := core.actions[a];
      if !row.kind.SubmitPerp? { return Some(InvalidAction); }
      if !control.mode.Active? || control.version != claimed { return Some(CoordinatorHalted); }
      var results := row.results.(authorized := Some(EntrySend(control.version)));
      core := core.(actions := core.actions[a := row.(results := results)]);
      return None;
    }

    /** `request_exit` */
    method Exit(r: ExitRequest, nowMs: nat, quote: Option<X.ExitQuote>, id: nat, draws: seq<nat>)
      returns (failure: Option<StoreError>)
      modifies this`core
      ensures Did(old(View()), RequestExit(old(View()), r, nowMs, quote, id, draws), failure)
    {
      if !ValidExitRequest(r, nowMs) { return Some(InvalidAction); }
      if r.intentId !in core.intents { return Some(MissingIntent); }
      var s := core.intents[r.intentId].saga;
      if s.filled == 0 { return Some(InvalidAction); }
      if HasLive(core, r.intentId) { return Some(Conflict); }
      if quote.None? || quote.value.spotIn != s.spot { return Some(MarketAuthorityUnavailable); }
      var authority := X.Build(s.spot, quote.value, nowMs, r.submissionDeadline, r.reconciliationDeadline,
                               Some(r.price), Some(r.minimumOut));
      if authority.None? { return Some(MarketEvidenceMismatch); }
      var plan := ExitPlan(s, r.reason, authority.value);
      if plan.None? { return Some(InvalidAction); }
      var tx := new Transaction(core);
      failure := tx.ResumeEpisode(r.intentId, plan.value.0, plan.value.1, id, draws, now);
      if failure.Some? { return; }
      core := tx.View();
    }

    /** The search of `request_recovery`: the first stopped action that it can resume from. */
    method FindRecoverable(i: nat, candidates: seq<nat>) returns (source: Option<nat>)
      requires i in core.intents
      ensures source == FirstRecoverable(core, i, candidates)
      ensures source.Some? ==> source.value in candidates && Recoverable(core, i, source.value)
      ensures source.None? ==> forall a | a in candidates :: !Recoverable(core, i, a)
    {
      var k := 0;
      while k < |candidates|
        invariant 0 <= k <= |candidates|
        invariant forall j | 0 <= j < k :: !Recoverable(core, i, candidates[j])
        invariant FirstRecoverable(core, i, candidates) == FirstRecoverable(core, i, candidates[k..])
      {
        assert candidates[k..][0] == candidates[k] && candidates[k..][1..] == candidates[k + 1..];
        if Recoverable(core, i, candidates[k]) { return Some(candidates[k]); }
        k := k + 1;
      }
      assert candidates[k..] == [];
      return None;
    }

    /** `request_recovery`; refused for want of a candidate only if no stopped action has a successor. */
    method Recover(r: RecoveryRequest, nowMs: nat, candidates: seq<nat>, id: nat) returns (failure: Option<StoreError>)
      requires forall a :: a in candidates <==> Stopped(core, r.intentId, a)
      modifies this`core
      ensures Did(old(View()), RequestRecovery(old(View()), r, nowMs, candidates, id), failure)
    {
      if !ValidRecoveryRequest(r, nowMs) { return Some(InvalidAction); }
      var i := r.intentId;
      if i !in core.intents { return Some(MissingIntent); }
      if HasLive(core, i) { return Some(Conflict); }
      var source := FindRecoverable(i, candidates);
      if source.None? { return Some(InvalidAction); }
      var s := core.intents[i].saga;
      var next := RecoverySuccessor(s, core.actions[source.value]).value;
      var tx := new Transaction(core);
      failure := tx.ResumeEpisode(i, RecoveryEvents(s.state, next.0),
        NextAction(next.0, RecoveryKey(source.value, next.0, r.requestedAt, r.reason), next.1), id, [], now);
      if failure.Some? { return; }
      core := tx.View();
    }

    /** `record_venue_event`: an identical repeat is harmless, a different one under the same identity halts. */
    method Record(e: V.VenueEvent, id: nat) returns (r: V.Recorded)
      requires id !in venue.events
      modifies this`venue, this`control
      ensures (venue, r) == V.Record(old(venue), e, id)
      ensures control == if r.Conflict? then Halt(old(control)) else old(control)
    {
      var s := V.SessionFor(venue, e);
      var twin := V.StoredTwin(venue, e);
      if twin.Some? {
        if twin.value != e {
          control := Halt(control);
          return V.Conflict;
        }
        var last := V.Frontier(V.Sequences(venue.events, V.KeyOf(e)), s.last);
        venue := venue.(sessions := venue.sessions[V.KeyOf(e) := s.(last := last)]);
        return V.Duplicate;
      }
      var contiguous := V.Contiguous(venue, e);
      var events := venue.events[id := e];
      var sessions := venue.sessions[V.KeyOf(e) := s];
      var routes := venue.routes;
      if contiguous {
        sessions := sessions[V.KeyOf(e) := s.(last := V.Frontier(V.Sequences(events, V.KeyOf(e)), s.last))];
      } else {
        routes := routes[id := V.Quarantined(if e.sequence <= s.last then V.Late else V.Gap)];
      }
      assert sessions == venue.sessions[V.KeyOf(e) := sessions[V.KeyOf(e)]];
      venue := V.VenueLog(sessions, events, venue.byIdentity[V.IdentityOf(e) := id], routes, venue.applied);
      return V.Inserted;
    }

    /** `create_intent` */
    method Create(intent: P.PairIntent, nowMs: nat, admitted: bool, id: nat) returns (failure: Option<StoreError>)
      modifies this`core
      ensures Did(old(View()), CreateIntent(old(View()), intent, nowMs, admitted, id), failure)
    {
      if !P.Valid(intent) || nowMs < intent.createdAt || nowMs > intent.deadline { return Some(InvalidIntent); }
      if !control.mode.Active? { return Some(CoordinatorHalted); }
      if !admitted { return Some(MarketEvidenceMismatch); }
      if intent.id in core.intents || exists j :: j in core.intents && core.intents[j].active { return Some(Conflict); }
      ValidReserves(intent);
      var tx := new Transaction(core);
      failure := tx.Admit(intent, id, now);
      if failure.Some? { return; }
      core := tx.View();
    }

    lemma ValidReserves(intent: P.PairIntent)
      requires P.Valid(intent)
      ensures intent.id != 0 && intent.id != intent.spotUnwindId
      ensures !(intent.unwindOrderIndex <= intent.clientOrderIndex < intent.unwindOrderIndex + intent.maxUnwindAttempts)
    {
    }

    /** `next_venue_event`: the oldest event already routed to the action, or else the first candidate that matches. */
    method NextVenueEvent(c: Claim, candidates: seq<nat>) returns (event: Option<nat>)
      requires forall e :: e in candidates <==> Offered(venue, c, e)
      modifies this`venue
      ensures (venue, event) == NextEvent(old(venue), c, candidates)
    {
      var routed := set e | e in venue.events && RoutedTo(venue, c, e);
      if routed != {} { return Some(Least(routed)); }
      var k := 0;
      while k < |candidates|
        invariant 0 <= k <= |candidates| && venue.events == old(venue).events
        invariant Scan(old(venue), c, candidates) == Scan(venue, c, candidates[k..])
      {
        var e := candidates[k];
        assert e in candidates && candidates[k..][0] == e && candidates[k..][1..] == candidates[k + 1..];
        if PayloadMatches(c.kind, c.intent, c.payload, c.results, venue.events[e].observation) {
          if e !in venue.routes { venue := venue.(routes := venue.routes[e := V.Matched(c.actionId)]); }
          return Some(e);
        }
        if e !in venue.routes { venue := venue.(routes := venue.routes[e := V.Quarantined(V.Mismatch)]); }
        k := k + 1;
      }
      assert candidates[k..] == [];
      return None;
    }

    /** `apply_venue_event`: the event is consumed, the action closed and the saga moved in one transaction. */
    method Apply(a: nat, worker: nat, token: nat, v: nat, e: Option<S.Event>, complete: bool, orderId: Option<nat>,
                 next: Option<NextAction>, id: nat, draws: seq<nat>) returns (failure: Option<StoreError>)
      modifies this
      ensures Did(old(View()), ApplyVenueEvent(old(View()), a, worker, token, v, e, complete, orderId, next, id, draws),
                  failure)
    {
      if !Holds(View(), a, worker, token) { return Some(LeaseLost); }
      var row := core.actions[a];
      if !V.Eligible(venue, v, a) || venue.events[v].intentId != row.intentId { return Some(InvalidAction); }
      if row.intentId !in core.intents { return Some(MissingIntent); }
      if !venue.routes[v].Matched?
         && !PayloadMatches(row.kind, core.intents[row.intentId].intent, row.payload, row.results,
                            venue.events[v].observation)
      {
        return Some(InvalidAction);
      }
      if v in venue.applied || (next.Some? && !complete) { return Some(InvalidAction); }
      failure := Advanced(a, row.(status := if complete then Succeeded else Pending,
                                  results := NO_RESULTS.(orderId := orderId), availableAt := now + 1),
                          e, next, id, draws, control);
      if failure.Some? { return; }
      venue := venue.(applied := venue.applied[v := a]);
    }
  }
}
