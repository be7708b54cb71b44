/**
 * The paired-order saga of execution/src/saga.rs.
 *
 * `Apply` is the transition on values; the class `ExecutionSaga` is the object
 * whose `apply` mutates its fields.  The lemmas speak about whole runs.
 */
module Sagas {
  import opened Common

  datatype State =
    | Created | Prechecked | PerpSubmitted | PerpPartial | PerpFilled | SpotSubmitted
    | Hedged | Exiting | Unwinding | Closed | Cancelled | Expired | Unhedged | FailedSafe
  {
    predicate Terminal() {
      Closed? || Cancelled? || Expired? || FailedSafe?
    }

    predicate ExposureResolved() {
      Closed? || Cancelled? || Expired?
    }
  }

  datatype Event =
    | PrecheckPassed
    | PerpSubmitted
    | PerpPartiallyFilled(filled: nat)
    | PerpFilled(filled: nat)
    | PerpOverfilled(filled: nat)
    | PerpRejected
    | SpotSubmitted
    | SpotConfirmed(received: nat)
    | SpotMismatched(received: nat)
    | SpotRejected
    | ExitStarted
    | UnwindStarted
    | PerpUnwindProgress(unwound: nat)
    | PerpUnwindCompleted(unwound: nat)
    | PerpUnwindFailed(unwound: nat)
    | HedgeRestored
    | Closed
    | Cancelled
    | Expired
    | Unhedged
    | SafeFailure

  datatype SagaError = MissingIntent | Terminal | InvalidTransition(state: State) | NonIncreasingFill

  datatype Saga = Saga(intentId: nat, state: State, version: nat, filled: nat, unwound: nat, spot: nat)

  datatype Applied = Accepted(saga: Saga) | Refused(error: SagaError)

  // Identifiers are 32-byte hashes read as numbers; zero stands for the empty identifier.
  function New(intentId: nat): (r: Applied) {
    if intentId == 0 then Refused(MissingIntent)
    else Accepted(Saga(intentId, State.Created, 0, 0, 0, 0))
  }

  // `version.saturating_add(1)`
  function NextVersion(v: nat): (r: nat) { if v < U64_MAX then v + 1 else v }

  function Invalid(s: Saga): (r: Applied) { Refused(InvalidTransition(s.state)) }

  function Move(s: Saga, state: State): (r: Applied) {
    Accepted(s.(state := state, version := NextVersion(s.version)))
  }

  function Apply(s: Saga, e: Event): (r: Applied) {
    if s.state.Terminal() then Refused(Terminal) else
    match e
    case PrecheckPassed =>
      if s.state.Created? then Move(s, State.Prechecked) else Invalid(s)
    case PerpSubmitted =>
      if s.state.Prechecked? then Move(s, State.PerpSubmitted) else Invalid(s)
    case PerpPartiallyFilled(f) =>
      if !AwaitsPerp(s) then Invalid(s)
      else if f <= s.filled then Refused(NonIncreasingFill)
      else Move(s.(filled := f), State.PerpPartial)
    case PerpFilled(f) =>
      if !AwaitsPerp(s) then Invalid(s)
      else if f < s.filled || f == 0 then Refused(NonIncreasingFill)
      else Move(s.(filled := f), State.PerpFilled)
    case PerpOverfilled(f) =>
      if !AwaitsPerp(s) then Invalid(s)
      else if f <= s.filled then Refused(NonIncreasingFill)
      else Move(s.(filled := f), State.Unwinding)
    case PerpRejected =>
      if s.state.PerpSubmitted? then Move(s, State.Cancelled) else Invalid(s)
    case SpotSubmitted =>
      if s.state.PerpFilled? || s.state.PerpPartial? then Move(s, State.SpotSubmitted) else Invalid(s)
    case SpotConfirmed(x) =>
      if s.state.SpotSubmitted? && x != 0 then Move(s.(spot := x), State.Hedged) else Invalid(s)
    case SpotMismatched(x) =>
      if s.state.SpotSubmitted? && x != 0 then Move(s.(spot := x), State.Unwinding) else Invalid(s)
    case SpotRejected =>
      if s.state.SpotSubmitted? then Move(s, State.Unwinding) else Invalid(s)
    case ExitStarted =>
      if s.state.Hedged? then Move(s, State.Exiting) else Invalid(s)
    case UnwindStarted =>
      if s.state.PerpPartial? || s.state.PerpFilled? || s.state.SpotSubmitted? || s.state.Hedged?
         || s.state.Exiting? || s.state.Unhedged?
      then Move(s, State.Unwinding) else Invalid(s)
    case PerpUnwindProgress(u) =>
      if s.state.Unwinding? && s.unwound < u < s.filled
      then Move(s.(unwound := u), State.Unwinding) else Invalid(s)
    case PerpUnwindCompleted(u) =>
      if s.state.Unwinding? && u == s.filled && s.unwound <= u && u != 0
      then Move(s.(unwound := u), if s.spot == 0 then State.Closed else State.Unwinding)
      else Invalid(s)
    case PerpUnwindFailed(u) =>
      if s.state.Unwinding? && s.unwound <= u <= s.filled
      then Move(s.(unwound := u), State.Unhedged) else Invalid(s)
    case HedgeRestored =>
      if s.state.Unwinding? then Move(s, State.Hedged) else Invalid(s)
    case Closed =>
      if s.state.Exiting? || s.state.Unwinding? then Move(s, State.Closed) else Invalid(s)
    case Cancelled =>
      if Unfilled(s.state)
      then Move(s, State.Cancelled) else Invalid(s)
    case Expired =>
      if Unfilled(s.state)
      then Move(s, State.Expired) else Invalid(s)
    case Unhedged =>
      if s.state.Unwinding? then Move(s, State.Unhedged) else Invalid(s)
    case SafeFailure =>
      Move(s, s.state)
  }

  predicate Unfilled(s: State) { s.Created? || s.Prechecked? || s.PerpSubmitted? }

  predicate AwaitsPerp(s: Saga) { s.state.PerpSubmitted? || s.state.PerpPartial? }

  // ---------------------------------------------------------------- runs

  // Feeding a log to a saga; every event of the log must be accepted.
  function Replay(s: Saga, log: seq<Event>): (r: Option<Saga>)
    decreases |log|
  {
    if log == [] then Some(s) else
    match Replay(s, log[..|log|-1])
    case None => None
    case Some(m) =>
      match Apply(m, log[|log|-1])
      case Refused(_) => None
      case Accepted(n) => Some(n)
  }

  // What every accepted run from `New` keeps, whatever the events were.
  predicate Coherent(s: Saga) {
    && s.unwound <= s.filled
    && !s.state.FailedSafe?
    && s.version <= U64_MAX
    && (Unfilled(s.state) || s.state.Cancelled? || s.state.Expired? <==> s.filled == 0)
    && (s.filled == 0 || s.state.PerpPartial? || s.state.PerpFilled? || s.state.SpotSubmitted? ==>
          s.unwound == 0 && s.spot == 0)
  }

  lemma ApplyKeepsCoherent(s: Saga, e: Event)
    requires Coherent(s) && Apply(s, e).Accepted?
    ensures var n := Apply(s, e).saga;
            && Coherent(n)
            && n.intentId == s.intentId
            && s.filled <= n.filled && s.unwound <= n.unwound
            && (s.spot != 0 ==> n.spot == s.spot)
            && n.version == NextVersion(s.version)
  {
  }

  /** Every accepted run keeps the saga coherent and counts its own length. */
  lemma {:induction false} RunsAreCoherent(id: nat, log: seq<Event>)
    requires id != 0 && Replay(New(id).saga, log).Some?
    ensures var s := Replay(New(id).saga, log).value;
            && Coherent(s) && s.intentId == id
            && s.version == Min(|log|, U64_MAX)
    decreases |log|
  {
    if log != [] {
      RunsAreCoherent(id, log[..|log|-1]);
      ApplyKeepsCoherent(Replay(New(id).saga, log[..|log|-1]).value, log[|log|-1]);
    }
  }

  /** Along a run fills and unwinds never decrease and the spot amount is written at most once. */
  lemma {:induction false} RunsAreMonotone(id: nat, log: seq<Event>, k: nat)
    requires id != 0 && k <= |log| && Replay(New(id).saga, log).Some?
    ensures Replay(New(id).saga, log[..k]).Some?
    ensures var early, late := Replay(New(id).saga, log[..k]).value, Replay(New(id).saga, log).value;
            && early.filled <= late.filled && early.unwound <= late.unwound
            && (early.spot != 0 ==> late.spot == early.spot)
            && (early.state.Terminal() ==> k == |log|)
    decreases |log|
  {
    if k == |log| {
      assert log[..k] == log;
    } else {
      var front := log[..|log|-1];
      assert log[..k] == front[..k];
      RunsAreMonotone(id, front, k);
      RunsAreCoherent(id, front);
      ApplyKeepsCoherent(Replay(New(id).saga, front).value, log[|log|-1]);
    }
  }

  // Everything filled on the perp has been bought back.
  predicate Flat(s: Saga) { s.unwound == s.filled }

  /**
   * The saga alone does not make `Closed` mean flat: precheck, submission, overfill, `Closed`
   * is an accepted run that closes with the whole fill `f` still open.
   */
  lemma ClosedNeedNotBeFlat(id: nat, f: nat) returns (log: seq<Event>, s: Saga)
    requires id != 0 && f > 0
    ensures Replay(New(id).saga, log) == Some(s)
    ensures |log| == 4 && log[3] == Event.Closed
    ensures s.state.Closed? && s.unwound == 0 && s.filled == f && !Flat(s)
  {
    var a := New(id).saga;
    var b := ReplayOne(a, [], a, PrecheckPassed);
    var c := ReplayOne(a, [] + [PrecheckPassed], b, Event.PerpSubmitted);
    var l2 := [] + [PrecheckPassed] + [Event.PerpSubmitted];
    var d := ReplayOne(a, l2, c, PerpOverfilled(f));
    s := ReplayOne(a, l2 + [PerpOverfilled(f)], d, Event.Closed);
    log := l2 + [PerpOverfilled(f)] + [Event.Closed];
  }

  // Appending one accepted event to a log appends one step to its replay.
  lemma ReplayOne(s: Saga, log: seq<Event>, m: Saga, e: Event) returns (n: Saga)
    requires Replay(s, log) == Some(m) && Apply(m, e).Accepted?
    ensures Replay(s, log + [e]) == Some(n) && Apply(m, e) == Accepted(n)
  {
    assert (log + [e])[..|log|] == log;
    n := Apply(m, e).saga;
  }

  /** Exactly the transitions after which a saga of a run is closed and flat. */
  lemma ClosesFlatExactly(s: Saga, e: Event)
    requires Coherent(s) && Apply(s, e).Accepted? && Apply(s, e).saga.state.Closed?
    ensures Flat(Apply(s, e).saga) <==> e.PerpUnwindCompleted? || s.unwound == s.filled
  {
  }

  // ---------------------------------------------------------------- the mutable object

  class ExecutionSaga {
    const intentId: nat
    var state: State
    var version: nat
    var filled: nat
    var unwound: nat
    var spot: nat

    function View(): (s: Saga)
      reads this
    {
      Saga(intentId, state, version, filled, unwound, spot)
    }

    constructor (id: nat)
      requires id != 0
      ensures View() == New(id).saga
    {
      intentId := id;
      state := State.Created;
      version := 0;
      filled := 0;
      unwound := 0;
      spot := 0;
    }

    /** `apply`: moves exactly as the transition on values, and a refused event changes nothing. */
    method Step(e: Event) returns (r: Option<SagaError>)
      modifies this
      ensures r.None? <==> Apply(old(View()), e).Accepted?
      ensures r.None? ==> View() == Apply(old(View()), e).saga
      ensures r.Some? ==> View() == old(View()) && Apply(old(View()), e) == Refused(r.value)
    {
      if state.Terminal() { return Some(SagaError.Terminal); }
      var next := state;
      var awaits := state.PerpSubmitted? || state.PerpPartial?;
      match e {
        case PrecheckPassed =>
          if !state.Created? { return Some(InvalidTransition(state)); }
          next := State.Prechecked;
        case PerpSubmitted =>
          if !state.Prechecked? { return Some(InvalidTransition(state)); }
          next := State.PerpSubmitted;
        case PerpPartiallyFilled(f) =>
          if !awaits { return Some(InvalidTransition(state)); }
          if f <= filled { return Some(NonIncreasingFill); }
          filled := f;
          next := State.PerpPartial;
        case PerpFilled(f) =>
          if !awaits { return Some(InvalidTransition(state)); }
          if f < filled || f == 0 { return Some(NonIncreasingFill); }
          filled := f;
          next := State.PerpFilled;
        case PerpOverfilled(f) =>
          if !awaits { return Some(InvalidTransition(state)); }
          if f <= filled { return Some(NonIncreasingFill); }
          filled := f;
          next := State.Unwinding;
        case PerpRejected =>
          if !state.PerpSubmitted? { return Some(InvalidTransition(state)); }
          next := State.Cancelled;
        case SpotSubmitted =>
          if !state.PerpFilled? && !state.PerpPartial? { return Some(InvalidTransition(state)); }
          next := State.SpotSubmitted;
        case SpotConfirmed(x) =>
          if !state.SpotSubmitted? || x == 0 { return Some(InvalidTransition(state)); }
          spot := x;
          next := State.Hedged;
        case SpotMismatched(x) =>
          if !state.SpotSubmitted? || x == 0 { return Some(InvalidTransition(state)); }
          spot := x;
          next := State.Unwinding;
        case SpotRejected =>
          if !state.SpotSubmitted? { return Some(InvalidTransition(state)); }
          next := State.Unwinding;
        case ExitStarted =>
          if !state.Hedged? { return Some(InvalidTransition(state)); }
          next := State.Exiting;
        case UnwindStarted =>
          if !state.PerpPartial? && !state.PerpFilled? && !state.SpotSubmitted? && !state.Hedged?
             && !state.Exiting? && !state.Unhedged?
          {
            return Some(InvalidTransition(state));
          }
          next := State.Unwinding;
        case PerpUnwindProgress(u) =>
          if !state.Unwinding? || u <= unwound || u >= filled { return Some(InvalidTransition(state)); }
          unwound := u;
        case PerpUnwindCompleted(u) =>
          if !state.Unwinding? || u != filled || u < unwound || u == 0 { return Some(InvalidTransition(state)); }
          unwound := u;
          next := if spot == 0 then State.Closed else State.Unwinding;
        case PerpUnwindFailed(u) =>
          if !state.Unwinding? || u < unwound || u > filled { return Some(InvalidTransition(state)); }
          unwound := u;
          next := State.Unhedged;
        case HedgeRestored =>
          if !state.Unwinding? { return Some(InvalidTransition(state)); }
          next := State.Hedged;
        case Closed =>
          if !state.Exiting? && !state.Unwinding? { return Some(InvalidTransition(state)); }
          next := State.Closed;
        case Cancelled =>
          if !Unfilled(state) { return Some(InvalidTransition(state)); }
          next := State.Cancelled;
        case Expired =>
          if !Unfilled(state) { return Some(InvalidTransition(state)); }
          next := State.Expired;
        case Unhedged =>
          if !state.Unwinding? { return Some(InvalidTransition(state)); }
          next := State.Unhedged;
        case SafeFailure =>
      }
      state := next;
      version := if version < U64_MAX then version + 1 else version;
      return None;
    }
  }
}
