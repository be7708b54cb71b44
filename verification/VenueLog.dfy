/**
 * The durable venue-event log of coordinator/src/store.rs: events recorded per source
 * session in any order, a contiguous frontier per session, quarantine routes, and the
 * table of applied events.
 */
module VenueLogs {
  import opened Common
  import opened PairIntents

  datatype VenueKind =
    | PerpAccepted | PerpPartial | PerpFilled | PerpRejected
    | SpotConfirmed | SpotRejected
    | UnwindAccepted | UnwindPartial | UnwindFilled | UnwindRejected
    | SpotUnwindConfirmed | SpotUnwindRejected

  datatype Source = LighterAuth | RobinhoodChain

  datatype Observation =
    | PerpObservation(orderId: nat, txHash: nat, clientOrderIndex: nat, marketIndex: nat, isAsk: bool,
                      reduceOnly: bool, filledBase: nat, averagePrice: Option<nat>)
    | SpotObservation(spotIntentId: nat, txHash: nat, blockHash: nat, blockNumber: nat, ethereumFinal: bool,
                      configVersion: nat, amountIn: nat, amountOut: nat)

  datatype VenueEvent = VenueEvent(
    source: Source, session: nat, eventId: nat, sequence: nat, intentId: nat, kind: VenueKind,
    observation: Observation, publisherAt: nat, receivedAt: nat)

  // ---------------------------------------------------------------- payload validity

  predicate ValidPerp(o: Observation, fillAllowed: bool, fillRequired: bool) {
    && o.PerpObservation?
    && o.orderId != 0 && ValidBytes32(o.txHash)
    && o.filledBase <= U64_MAX
    && (o.averagePrice.Some? ==> o.averagePrice.value <= U32_MAX)
    && (if o.filledBase == 0 then !fillRequired && o.averagePrice.None?
        else fillAllowed && o.averagePrice.Some? && o.averagePrice.value > 0)
  }

  predicate ValidSpot(o: Observation, succeeded: bool) {
    && o.SpotObservation?
    && ValidBytes32(o.spotIntentId) && ValidBytes32(o.txHash) && ValidBytes32(o.blockHash)
    && o.blockNumber > 0 && o.ethereumFinal && o.configVersion > 0
    && o.amountIn <= U128_MAX && o.amountOut <= U128_MAX
    && (if succeeded then o.amountIn > 0 && o.amountOut > 0 else o.amountIn == 0 && o.amountOut == 0)
  }

  predicate ValidPayload(k: VenueKind, o: Observation) {
    match k
    case PerpAccepted | UnwindAccepted => ValidPerp(o, false, false)
    case PerpRejected | UnwindRejected => ValidPerp(o, true, false)
    case PerpPartial | PerpFilled | UnwindPartial | UnwindFilled => ValidPerp(o, true, true)
    case SpotConfirmed | SpotUnwindConfirmed => ValidSpot(o, true)
    case SpotRejected | SpotUnwindRejected => ValidSpot(o, false)
  }

  predicate SourceMatchesKind(s: Source, k: VenueKind) {
    s.RobinhoodChain? <==> k.SpotConfirmed? || k.SpotRejected? || k.SpotUnwindConfirmed? || k.SpotUnwindRejected?
  }

  predicate ValidEvent(e: VenueEvent) {
    && SourceMatchesKind(e.source, e.kind)
    && e.session != 0 && e.eventId != 0 && e.intentId != 0
    && e.sequence <= I64_MAX
    && e.publisherAt > 0 && e.receivedAt > 0
    && ValidPayload(e.kind, e.observation)
  }

  // ---------------------------------------------------------------- the tables

  datatype SessionKey = SessionKey(source: Source, session: nat)
  datatype Identity = Identity(source: Source, session: nat, eventId: nat)
  datatype Session = Session(first: nat, last: nat)
  datatype Reason = Gap | Late | Mismatch
  datatype Route = Matched(actionId: nat) | Quarantined(reason: Reason)

  datatype VenueLog = VenueLog(
    sessions: map<SessionKey, Session>,
    events: map<nat, VenueEvent>,
    byIdentity: map<Identity, nat>,   // the unique key (source, source_session, source_event_id)
    routes: map<nat, Route>,
    applied: map<nat, nat>)

  const EMPTY: VenueLog := VenueLog(map[], map[], map[], map[], map[])

  function KeyOf(e: VenueEvent): (k: SessionKey) { SessionKey(e.source, e.session) }

  function IdentityOf(e: VenueEvent): (i: Identity) { Identity(e.source, e.session, e.eventId) }

  // Every sequence number recorded for a session.
  function Sequences(events: map<nat, VenueEvent>, key: SessionKey): (r: set<nat>) {
    set id | id in events && KeyOf(events[id]) == key :: events[id].sequence
  }

  // ---------------------------------------------------------------- the frontier

  // `row_number() OVER (ORDER BY source_sequence)` among the distinct sequences above `last`
  function Ordinal(s: set<nat>, last: nat, n: nat): (r: nat) {
    |set m | m in s && last < m <= n|
  }

  // The rows kept by FILTER (WHERE source_sequence = last + ordinal)
  function Hits(s: set<nat>, last: nat): (r: set<nat>) {
    set n | n in s && last < n && n == last + Ordinal(s, last, n)
  }

  function MaxOf(s: set<nat>): (m: nat)
    requires s != {}
    ensures m in s && forall n | n in s :: n <= m
  {
    MaximumExists(s);
    var m :| m in s && forall n | n in s :: n <= m;
    m
  }

  // The query of `advance_venue_session`: COALESCE(MAX(hits), last)
  function Frontier(s: set<nat>, last: nat): (r: nat) {
    if Hits(s, last) == {} then last else MaxOf(Hits(s, last))
  }

  lemma {:induction false} MaximumExists(s: set<nat>)
    requires s != {}
    ensures exists m :: m in s && forall n | n in s :: n <= m
  {
    var x :| x in s;
    if s - {x} == {} {
      assert s == {x};
    } else {
      MaximumExists(s - {x});
      var m :| m in s - {x} && forall n | n in s - {x} :: n <= m;
      var top := if x <= m then m else x;
      forall n | n in s ensures n <= top {
        if n != x { assert n in s - {x}; }
      }
      assert top in s;
    }
  }

  predicate Covers(s: set<nat>, from: nat, to: nat) { forall n | from <= n <= to :: n in s }

  // The longest contiguous prefix that starts at `first`.
  predicate IsLongestPrefix(s: set<nat>, first: nat, n: nat) {
    first <= n && Covers(s, first, n) && n + 1 !in s
  }

  lemma {:induction false} IntervalCount(s: set<nat>, lo: nat, hi: nat)
    requires lo <= hi && forall m | m in s :: lo < m <= hi
    ensures |s| <= hi - lo
    ensures |s| == hi - lo ==> Covers(s, lo + 1, hi)
    ensures Covers(s, lo + 1, hi) ==> |s| == hi - lo
    decreases hi - lo
  {
    if lo == hi {
      assert s == {};
    } else {
      var rest := s - {hi};
      IntervalCount(rest, lo, hi - 1);
      if hi in s {
        assert |rest| == |s| - 1;
      } else {
        assert rest == s;
      }
      if Covers(s, lo + 1, hi) {
        assert hi in s;
        assert Covers(rest, lo + 1, hi - 1);
      }
      if |s| == hi - lo {
        assert hi in s;
        forall n | lo + 1 <= n <= hi ensures n in s {
          assert n == hi || n in rest;
        }
      }
    }
  }

  // A sequence carries its own ordinal exactly when nothing between `last` and it is missing.
  lemma OrdinalIsContiguity(s: set<nat>, last: nat, n: nat)
    requires last < n && n in s
    ensures n == last + Ordinal(s, last, n) <==> Covers(s, last + 1, n)
  {
    var between := set m | m in s && last < m <= n;
    IntervalCount(between, last, n);
    if Covers(s, last + 1, n) {
      assert Covers(between, last + 1, n);
    }
    if |between| == n - last {
      forall m | last + 1 <= m <= n ensures m in s {
        assert m in between;
      }
    }
  }

  // `f` extends the contiguous run above `last` as far as it goes.
  predicate IsLongestExtension(s: set<nat>, last: nat, f: nat) {
    last <= f && Covers(s, last + 1, f) && f + 1 !in s
  }

  /** The row-number query computes exactly the longest contiguous extension of the frontier. */
  lemma FrontierIsLongestExtension(s: set<nat>, last: nat)
    ensures IsLongestExtension(s, last, Frontier(s, last))
  {
    var f := Frontier(s, last);
    if Hits(s, last) != {} {
      OrdinalIsContiguity(s, last, f);
    }
    assert f + 1 !in Hits(s, last);
    if f + 1 in s {
      assert Covers(s, last + 1, f + 1);
      OrdinalIsContiguity(s, last, f + 1);
      assert false;
    }
  }

  lemma ExtendPrefix(s: set<nat>, first: nat, last: nat, f: nat)
    requires first <= last && Covers(s, first, last) && IsLongestExtension(s, last, f)
    ensures IsLongestPrefix(s, first, f)
  {
    forall n | first <= n <= f ensures n in s {
      assert first <= n <= last || last + 1 <= n <= f;
    }
  }

  lemma PrefixUnmoved(s: set<nat>, first: nat, last: nat, n: nat)
    requires IsLongestPrefix(s, first, last) && n != last + 1
    ensures IsLongestPrefix(s + {n}, first, last)
  {
  }

  lemma PrefixUnique(s: set<nat>, first: nat, m: nat, n: nat)
    requires IsLongestPrefix(s, first, m) && IsLongestPrefix(s, first, n)
    ensures m == n
  {
  }

  // ---------------------------------------------------------------- recording an event

  datatype Recorded = Inserted | Duplicate | Conflict

  // The session row an event finds or opens.
  function SessionFor(log: VenueLog, e: VenueEvent): (r: Session) {
    if KeyOf(e) in log.sessions then log.sessions[KeyOf(e)] else Session(e.sequence, e.sequence)
  }

  predicate Contiguous(log: VenueLog, e: VenueEvent) {
    KeyOf(e) !in log.sessions || e.sequence == log.sessions[KeyOf(e)].last + 1
  }

  // A new event: in order it moves the frontier, otherwise it is stored under quarantine.
  function Insert(log: VenueLog, e: VenueEvent, id: nat, frontier: nat): (r: VenueLog) {
    var s := SessionFor(log, e);
    var key := KeyOf(e);
    VenueLog(
      log.sessions[key := if Contiguous(log, e) then s.(last := frontier) else s],
      log.events[id := e],
      log.byIdentity[IdentityOf(e) := id],
      if Contiguous(log, e) then log.routes
      else log.routes[id := Quarantined(if e.sequence <= s.last then Late else Gap)],
      log.applied)
  }

  function StoredTwin(log: VenueLog, e: VenueEvent): (r: Option<VenueEvent>) {
    if IdentityOf(e) in log.byIdentity && log.byIdentity[IdentityOf(e)] in log.events
    then Some(log.events[log.byIdentity[IdentityOf(e)]]) else None
  }

  // `record_venue_event` after its checks; `id` is the next value of the serial column.
  function Record(log: VenueLog, e: VenueEvent, id: nat): (r: (VenueLog, Recorded)) {
    var s := SessionFor(log, e);
    match StoredTwin(log, e)
    case None =>
      (Insert(log, e, id, Frontier(Sequences(log.events[id := e], KeyOf(e)), s.last)), Inserted)
    case Some(twin) =>
      if twin != e then (log, Conflict)
      else (log.(sessions := log.sessions[KeyOf(e) := s.(last := Frontier(Sequences(log.events, KeyOf(e)), s.last))]),
            Duplicate)
  }

  // ---------------------------------------------------------------- routing and applying

  // A row of the candidate query of `next_venue_event`.
  predicate Candidate(log: VenueLog, id: nat) {
    && id in log.events && id !in log.applied && KeyOf(log.events[id]) in log.sessions
    && (id !in log.routes
        || (log.routes[id] == Quarantined(Gap)
            && log.events[id].sequence <= log.sessions[KeyOf(log.events[id])].last))
  }

  // INSERT ... ON CONFLICT (venue_event_id) DO NOTHING
  function AddRoute(log: VenueLog, id: nat, route: Route): (r: VenueLog) {
    if id in log.routes then log else log.(routes := log.routes[id := route])
  }

  // What `apply_venue_event` demands of the event's route.
  predicate Eligible(log: VenueLog, id: nat, actionId: nat) {
    && id in log.events && id in log.routes && KeyOf(log.events[id]) in log.sessions
    && (log.routes[id] == Matched(actionId)
        || (log.routes[id] == Quarantined(Gap)
            && log.events[id].sequence <= log.sessions[KeyOf(log.events[id])].last))
  }

  function ApplyTo(log: VenueLog, id: nat, actionId: nat): (r: Option<VenueLog>) {
    if Eligible(log, id, actionId) && id !in log.applied
    then Some(log.(applied := log.applied[id := actionId])) else None
  }

  // ---------------------------------------------------------------- invariant

  ghost predicate IndexOk(log: VenueLog) {
    && (forall id | id in log.events ::
          IdentityOf(log.events[id]) in log.byIdentity && log.byIdentity[IdentityOf(log.events[id])] == id)
    && (forall i | i in log.byIdentity ::
          log.byIdentity[i] in log.events && IdentityOf(log.events[log.byIdentity[i]]) == i)
  }

  ghost predicate SessionOk(log: VenueLog, key: SessionKey)
    requires key in log.sessions
  {
    IsLongestPrefix(Sequences(log.events, key), log.sessions[key].first, log.sessions[key].last)
  }

  // In order: inside the contiguous part of its session.
  predicate InOrder(log: VenueLog, id: nat)
    requires id in log.events && KeyOf(log.events[id]) in log.sessions
  {
    var s := log.sessions[KeyOf(log.events[id])];
    s.first <= log.events[id].sequence <= s.last
  }

  ghost predicate EventOk(log: VenueLog, id: nat)
    requires id in log.events
  {
    && ValidEvent(log.events[id])
    && KeyOf(log.events[id]) in log.sessions
    && (id !in log.routes || log.routes[id].Matched? || log.routes[id] == Quarantined(Mismatch)
        ==> InOrder(log, id))
    && (id in log.routes && log.routes[id] == Quarantined(Gap)
        ==> log.sessions[KeyOf(log.events[id])].first <= log.events[id].sequence)
    && (id in log.applied ==> Eligible(log, id, log.applied[id]))
  }

  ghost predicate Inv(log: VenueLog) {
    && IndexOk(log)
    && (forall key | key in log.sessions :: SessionOk(log, key))
    && (forall id | id in log.events :: EventOk(log, id))
    && log.routes.Keys <= log.events.Keys
    && log.applied.Keys <= log.events.Keys
  }

  // ---------------------------------------------------------------- preservation

  lemma SequencesInsert(events: map<nat, VenueEvent>, id: nat, e: VenueEvent, key: SessionKey)
    requires id !in events
    ensures Sequences(events[id := e], key)
            == Sequences(events, key) + (if KeyOf(e) == key then {e.sequence} else {})
  {
    var more := events[id := e];
    forall n | n in Sequences(events, key) ensures n in Sequences(more, key) {
      var k :| k in events && KeyOf(events[k]) == key && events[k].sequence == n;
      assert k in more && more[k] == events[k];
    }
    if KeyOf(e) == key {
      assert id in more && more[id] == e;
    }
  }

  lemma EventSequence(log: VenueLog, id: nat)
    requires id in log.events
    ensures log.events[id].sequence in Sequences(log.events, KeyOf(log.events[id]))
  {
  }

  // Sessions only grow, and the touched session is a longest prefix again.
  lemma InsertMovesSession(log: VenueLog, e: VenueEvent, id: nat, f: nat)
    requires Inv(log) && id !in log.events
    requires IsLongestExtension(Sequences(log.events[id := e], KeyOf(e)), SessionFor(log, e).last, f)
    ensures var s := Insert(log, e, id, f).sessions[KeyOf(e)];
            && s.first == SessionFor(log, e).first
            && SessionFor(log, e).last <= s.last
            && IsLongestPrefix(Sequences(log.events[id := e], KeyOf(e)), s.first, s.last)
            && (Contiguous(log, e) ==> s.first <= e.sequence <= s.last)
  {
    var key := KeyOf(e);
    SequencesInsert(log.events, id, e, key);
    var all, row := Sequences(log.events[id := e], key), SessionFor(log, e);
    if key in log.sessions {
      assert SessionOk(log, key);
      PrefixGrown(Sequences(log.events, key), row.first, row.last, e.sequence);
    }
    if Contiguous(log, e) {
      ExtendPrefix(all, row.first, row.last, f);
      assert e.sequence in all;
    } else {
      PrefixUnmoved(Sequences(log.events, key), row.first, row.last, e.sequence);
    }
  }

  lemma PrefixGrown(s: set<nat>, first: nat, last: nat, n: nat)
    requires Covers(s, first, last)
    ensures Covers(s + {n}, first, last)
  {
  }

  lemma InsertKeepsSession(log: VenueLog, e: VenueEvent, id: nat, f: nat, key: SessionKey)
    requires Inv(log) && id !in log.events
    requires IsLongestExtension(Sequences(log.events[id := e], KeyOf(e)), SessionFor(log, e).last, f)
    requires key in Insert(log, e, id, f).sessions
    ensures SessionOk(Insert(log, e, id, f), key)
  {
    if key == KeyOf(e) {
      InsertMovesSession(log, e, id, f);
    } else {
      SequencesInsert(log.events, id, e, key);
      assert SessionOk(log, key);
    }
  }

  lemma InsertKeepsEvent(log: VenueLog, e: VenueEvent, id: nat, f: nat, k: nat)
    requires Inv(log) && ValidEvent(e) && id !in log.events
    requires IsLongestExtension(Sequences(log.events[id := e], KeyOf(e)), SessionFor(log, e).last, f)
    requires k in Insert(log, e, id, f).events
    ensures EventOk(Insert(log, e, id, f), k)
  {
    InsertMovesSession(log, e, id, f);
    var after := Insert(log, e, id, f);
    if k == id {
      assert id !in log.routes && id !in log.applied;
      if !Contiguous(log, e) { assert SessionOk(log, KeyOf(e)); }
    } else {
      assert EventOk(log, k);
      assert KeyOf(log.events[k]) in log.sessions;
    }
  }

  lemma InsertKeepsIndex(log: VenueLog, e: VenueEvent, id: nat, f: nat)
    requires IndexOk(log) && id !in log.events && StoredTwin(log, e).None?
    ensures IndexOk(Insert(log, e, id, f))
  {
  }

  lemma InsertKeepsInv(log: VenueLog, e: VenueEvent, id: nat, f: nat)
    requires Inv(log) && ValidEvent(e) && id !in log.events && StoredTwin(log, e).None?
    requires IsLongestExtension(Sequences(log.events[id := e], KeyOf(e)), SessionFor(log, e).last, f)
    ensures Inv(Insert(log, e, id, f))
  {
    var after := Insert(log, e, id, f);
    InsertKeepsIndex(log, e, id, f);
    forall key | key in after.sessions ensures SessionOk(after, key) { InsertKeepsSession(log, e, id, f, key); }
    forall k | k in after.events ensures EventOk(after, k) { InsertKeepsEvent(log, e, id, f, k); }
  }

  // A duplicate finds the frontier already where it belongs.
  lemma DuplicateChangesNothing(log: VenueLog, e: VenueEvent)
    requires Inv(log) && StoredTwin(log, e) == Some(e)
    ensures KeyOf(e) in log.sessions
    ensures Record(log, e, 0).0 == log && Record(log, e, 0).1.Duplicate?
  {
    var key := KeyOf(e);
    assert EventOk(log, log.byIdentity[IdentityOf(e)]);
    assert SessionOk(log, key);
    var all := Sequences(log.events, key);
    FrontierIsLongestExtension(all, log.sessions[key].last);
    assert log.sessions[key := log.sessions[key]] == log.sessions;
  }

  /** Recording keeps the log consistent, whatever order events arrive in. */
  lemma RecordKeepsInv(log: VenueLog, e: VenueEvent, id: nat)
    requires Inv(log) && ValidEvent(e) && id !in log.events
    ensures Inv(Record(log, e, id).0)
  {
    if StoredTwin(log, e).None? {
      FrontierIsLongestExtension(Sequences(log.events[id := e], KeyOf(e)), SessionFor(log, e).last);
      InsertKeepsInv(log, e, id, Frontier(Sequences(log.events[id := e], KeyOf(e)), SessionFor(log, e).last));
    } else if StoredTwin(log, e) == Some(e) {
      DuplicateChangesNothing(log, e);
    }
  }

  /** Routing a candidate keeps the log consistent: only in-order events are ever matched or mismatched. */
  lemma RoutingKeepsInv(log: VenueLog, id: nat, route: Route)
    requires Inv(log) && Candidate(log, id)
    requires route.Matched? || route == Quarantined(Mismatch)
    ensures Inv(AddRoute(log, id, route))
  {
    var after := AddRoute(log, id, route);
    assert EventOk(log, id);
    forall key | key in after.sessions ensures SessionOk(after, key) { assert SessionOk(log, key); }
    forall k | k in after.events ensures EventOk(after, k) { assert EventOk(log, k); }
  }

  lemma ApplyingKeepsInv(log: VenueLog, id: nat, actionId: nat)
    requires Inv(log) && ApplyTo(log, id, actionId).Some?
    ensures Inv(ApplyTo(log, id, actionId).value)
  {
    var after := ApplyTo(log, id, actionId).value;
    forall key | key in after.sessions ensures SessionOk(after, key) { assert SessionOk(log, key); }
    forall k | k in after.events ensures EventOk(after, k) { assert EventOk(log, k); }
  }

  // ---------------------------------------------------------------- what the log promises

  /** No applied event has a missing predecessor in its session, and none is late or mismatched. */
  lemma AppliedEventsAreInOrder(log: VenueLog, id: nat)
    requires Inv(log) && id in log.applied
    ensures var e := log.events[id];
            && KeyOf(e) in log.sessions
            && log.sessions[KeyOf(e)].first <= e.sequence
            && Covers(Sequences(log.events, KeyOf(e)), log.sessions[KeyOf(e)].first, e.sequence)
    ensures id in log.routes && log.routes[id] != Quarantined(Late) && log.routes[id] != Quarantined(Mismatch)
  {
    assert EventOk(log, id);
    assert SessionOk(log, KeyOf(log.events[id]));
  }

  /** A gap-quarantined event becomes eligible exactly when every sequence before it has arrived. */
  lemma GapHealsExactly(log: VenueLog, id: nat, actionId: nat)
    requires Inv(log) && id in log.events && id in log.routes && log.routes[id] == Quarantined(Gap)
    ensures KeyOf(log.events[id]) in log.sessions
    ensures Eligible(log, id, actionId)
            <==> Covers(Sequences(log.events, KeyOf(log.events[id])),
                        log.sessions[KeyOf(log.events[id])].first, log.events[id].sequence)
  {
    assert EventOk(log, id);
    assert SessionOk(log, KeyOf(log.events[id]));
  }

  // ---------------------------------------------------------------- whole runs of arrivals

  // Recording a list of events one after the other, with serial ids from `next`.
  function RecordAll(log: VenueLog, es: seq<VenueEvent>, next: nat): (r: VenueLog)
    decreases |es|
  {
    if es == [] then log
    else Record(RecordAll(log, es[..|es|-1], next), es[|es|-1], next + |es| - 1).0
  }

  lemma {:induction false} RecordAllKeepsInv(es: seq<VenueEvent>)
    requires forall k | 0 <= k < |es| :: ValidEvent(es[k])
    ensures Inv(RecordAll(EMPTY, es, 0))
    ensures forall id | id in RecordAll(EMPTY, es, 0).events :: id < |es|
    decreases |es|
  {
    if es != [] {
      var front := es[..|es|-1];
      RecordAllKeepsInv(front);
      RecordKeepsInv(RecordAll(EMPTY, front, 0), es[|es|-1], |es| - 1);
    }
  }

  // The events of a list that belong to one session, in arrival order.
  function OfSession(es: seq<VenueEvent>, key: SessionKey): (r: seq<VenueEvent>)
    decreases |es|
  {
    if es == [] then [] else
    OfSession(es[..|es|-1], key) + (if KeyOf(es[|es|-1]) == key then [es[|es|-1]] else [])
  }

  function SequencesOf(es: seq<VenueEvent>): (r: set<nat>) { set e | e in es :: e.sequence }

  // What is left of a list of arrivals when each event that contradicts an earlier one is dropped.
  function Kept(es: seq<VenueEvent>): (r: seq<VenueEvent>)
    decreases |es|
  {
    if es == [] then [] else
    var front, e := Kept(es[..|es|-1]), es[|es|-1];
    if Contradicts(front, e) then front else front + [e]
  }

  predicate Contradicts(es: seq<VenueEvent>, e: VenueEvent) {
    exists f :: f in es && IdentityOf(f) == IdentityOf(e) && f != e
  }

  /** Nothing is dropped from arrivals that do not contradict each other. */
  lemma {:induction false} KeptIsAll(es: seq<VenueEvent>)
    requires forall e, f | e in es && f in es && IdentityOf(e) == IdentityOf(f) :: e == f
    ensures Kept(es) == es
    decreases |es|
  {
    if es != [] {
      KeptIsAll(es[..|es|-1]);
      assert es == es[..|es|-1] + [es[|es|-1]];
    }
  }

  // What a list of arrivals leaves behind for one session.
  ghost predicate Reflects(log: VenueLog, es: seq<VenueEvent>, key: SessionKey) {
    var mine := OfSession(es, key);
    && (key in log.sessions <==> mine != [])
    && (mine != [] ==> log.sessions[key].first == mine[0].sequence)
    && Sequences(log.events, key) == SequencesOf(mine)
  }

  // The log holds exactly these events.
  ghost predicate Holds(log: VenueLog, es: seq<VenueEvent>) {
    && (forall k | k in log.events :: log.events[k] in es)
    && (forall e | e in es :: StoredTwin(log, e) == Some(e))
  }

  lemma OfSessionAppend(front: seq<VenueEvent>, e: VenueEvent, key: SessionKey)
    ensures KeyOf(e) != key ==> OfSession(front + [e], key) == OfSession(front, key)
    ensures KeyOf(e) == key ==> OfSession(front + [e], key) == OfSession(front, key) + [e]
    ensures KeyOf(e) == key ==>
              SequencesOf(OfSession(front + [e], key)) == SequencesOf(OfSession(front, key)) + {e.sequence}
  {
    assert (front + [e])[..|front|] == front;
  }

  lemma ReflectInsert(log: VenueLog, front: seq<VenueEvent>, e: VenueEvent, id: nat, f: nat, key: SessionKey)
    requires Inv(log) && id !in log.events && Reflects(log, front, key)
    requires IsLongestExtension(Sequences(log.events[id := e], KeyOf(e)), SessionFor(log, e).last, f)
    ensures Reflects(Insert(log, e, id, f), front + [e], key)
  {
    OfSessionAppend(front, e, key);
    SequencesInsert(log.events, id, e, key);
    if key == KeyOf(e) {
      InsertMovesSession(log, e, id, f);
    }
  }

  lemma ReflectDuplicate(log: VenueLog, front: seq<VenueEvent>, e: VenueEvent, key: SessionKey)
    requires Inv(log) && Reflects(log, front, key) && StoredTwin(log, e) == Some(e)
    ensures Reflects(log, front + [e], key)
  {
    OfSessionAppend(front, e, key);
    var k := log.byIdentity[IdentityOf(e)];
    EventSequence(log, k);
    assert EventOk(log, k);
  }

  lemma HoldsInsert(log: VenueLog, es: seq<VenueEvent>, e: VenueEvent, id: nat, f: nat)
    requires Holds(log, es) && id !in log.events && StoredTwin(log, e).None? && IndexOk(log)
    ensures Holds(Insert(log, e, id, f), es + [e])
  {
    var after := Insert(log, e, id, f);
    forall g | g in es + [e] ensures StoredTwin(after, g) == Some(g) {
      if g in es { assert IdentityOf(g) != IdentityOf(e); }
    }
  }

  // A stored twin that differs is exactly a contradiction among the events kept so far.
  lemma TwinContradicts(log: VenueLog, es: seq<VenueEvent>, e: VenueEvent)
    requires Holds(log, es) && IndexOk(log)
    ensures Contradicts(es, e) <==> StoredTwin(log, e).Some? && StoredTwin(log, e).value != e
  {
    if StoredTwin(log, e).Some? && StoredTwin(log, e).value != e {
      var twin := StoredTwin(log, e).value;
      assert twin in es && IdentityOf(twin) == IdentityOf(e);
    }
  }

  lemma ReflectOne(log: VenueLog, front: seq<VenueEvent>, e: VenueEvent, id: nat, key: SessionKey)
    requires Inv(log) && id !in log.events && Holds(log, front) && Reflects(log, front, key)
    ensures var kept := if Contradicts(front, e) then front else front + [e];
            Reflects(Record(log, e, id).0, kept, key) && Holds(Record(log, e, id).0, kept)
  {
    TwinContradicts(log, front, e);
    if StoredTwin(log, e).None? {
      var f := Frontier(Sequences(log.events[id := e], KeyOf(e)), SessionFor(log, e).last);
      FrontierIsLongestExtension(Sequences(log.events[id := e], KeyOf(e)), SessionFor(log, e).last);
      ReflectInsert(log, front, e, id, f, key);
      HoldsInsert(log, front, e, id, f);
    } else if StoredTwin(log, e) == Some(e) {
      DuplicateChangesNothing(log, e);
      ReflectDuplicate(log, front, e, key);
    }
  }

  lemma {:induction false} RecordAllReflects(es: seq<VenueEvent>, key: SessionKey)
    requires forall k | 0 <= k < |es| :: ValidEvent(es[k])
    ensures Reflects(RecordAll(EMPTY, es, 0), Kept(es), key) && Holds(RecordAll(EMPTY, es, 0), Kept(es))
    decreases |es|
  {
    if es != [] {
      var front := es[..|es|-1];
      RecordAllReflects(front, key);
      RecordAllKeepsInv(front);
      ReflectOne(RecordAll(EMPTY, front, 0), Kept(front), es[|es|-1], |es| - 1, key);
    }
  }

  /**
   * After any arrivals, repeated, late or contradictory, a session's frontier is the longest
   * contiguous prefix of what was kept for it.
   */
  lemma FrontierOfArrivals(es: seq<VenueEvent>, key: SessionKey)
    requires forall k | 0 <= k < |es| :: ValidEvent(es[k])
    ensures key in RecordAll(EMPTY, es, 0).sessions <==> OfSession(Kept(es), key) != []
    ensures OfSession(Kept(es), key) != [] ==>
              IsLongestPrefix(SequencesOf(OfSession(Kept(es), key)), OfSession(Kept(es), key)[0].sequence,
                              RecordAll(EMPTY, es, 0).sessions[key].last)
  {
    RecordAllReflects(es, key);
    RecordAllKeepsInv(es);
    if OfSession(Kept(es), key) != [] { assert SessionOk(RecordAll(EMPTY, es, 0), key); }
  }

  /** So the frontier depends only on the first event kept for the session and the set of sequences kept. */
  lemma ArrivalOrderIrrelevant(xs: seq<VenueEvent>, ys: seq<VenueEvent>, key: SessionKey)
    requires forall k | 0 <= k < |xs| :: ValidEvent(xs[k])
    requires forall k | 0 <= k < |ys| :: ValidEvent(ys[k])
    requires OfSession(Kept(xs), key) != [] && OfSession(Kept(ys), key) != []
    requires OfSession(Kept(xs), key)[0].sequence == OfSession(Kept(ys), key)[0].sequence
    requires SequencesOf(OfSession(Kept(xs), key)) == SequencesOf(OfSession(Kept(ys), key))
    ensures key in RecordAll(EMPTY, xs, 0).sessions && key in RecordAll(EMPTY, ys, 0).sessions
    ensures RecordAll(EMPTY, xs, 0).sessions[key] == RecordAll(EMPTY, ys, 0).sessions[key]
  {
    FrontierOfArrivals(xs, key);
    FrontierOfArrivals(ys, key);
    RecordAllReflects(xs, key);
    RecordAllReflects(ys, key);
    PrefixUnique(SequencesOf(OfSession(Kept(xs), key)), OfSession(Kept(xs), key)[0].sequence,
                 RecordAll(EMPTY, xs, 0).sessions[key].last, RecordAll(EMPTY, ys, 0).sessions[key].last);
  }
}
