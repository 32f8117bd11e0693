// The circuit breaker: a three-state machine kept in a shared store, and the formula over past calls that it
// computes. Its clock counts whole seconds, as the stored timestamp does.
module CircuitBreaker {
  import opened Models

  datatype CircuitState = Closed | Open | HalfOpen

  // The three keys of one circuit. A missing failure counter reads as 0.
  datatype Store = Store(state: Option<CircuitState>, failures: nat, openedAt: Option<int>)

  const EMPTY_STORE := Store(None, 0, None)

  datatype Tuning = Tuning(failureThreshold: int, cooldown: int)

  datatype Event = Check(at: int) | Success(at: int) | Failure(at: int)

  // ---- the store-backed machine ----

  function OpenCircuit(s: Store, now: int): Store {
    s.(state := Some(Open), openedAt := Some(now))
  }

  predicate Admits(c: Tuning, s: Store, now: int) {
    s.state == Some(Open) && s.openedAt.Some? ==> now - s.openedAt.value >= c.cooldown
  }

  function AfterCheck(c: Tuning, s: Store, now: int): Store {
    if s.state == Some(Open) && Admits(c, s, now) then s.(state := Some(HalfOpen)) else s
  }

  function AfterSuccess(): Store {
    Store(Some(Closed), 0, None)
  }

  function AfterFailure(c: Tuning, s: Store, now: int): Store {
    if s.state == Some(HalfOpen) then OpenCircuit(s, now) else
    var counted := s.(failures := s.failures + 1);
    if counted.failures >= c.failureThreshold then OpenCircuit(counted, now) else counted
  }

  function AfterEvent(c: Tuning, s: Store, e: Event): Store {
    match e
    case Check(at) => AfterCheck(c, s, at)
    case Success(_) => AfterSuccess()
    case Failure(at) => AfterFailure(c, s, at)
  }

  function Replay(c: Tuning, history: seq<Event>): Store {
    if history == [] then EMPTY_STORE
    else AfterEvent(c, Replay(c, history[..|history| - 1]), history[|history| - 1])
  }

  lemma ReplayOne(c: Tuning, history: seq<Event>, e: Event)
    ensures Replay(c, history + [e]) == AfterEvent(c, Replay(c, history), e)
  {
    assert (history + [e])[..|history|] == history;
  }

  // ---- the stateless formula ----

  function FailuresSinceSuccess(history: seq<Event>): nat {
    if history == [] then 0 else
    var before := history[..|history| - 1];
    match history[|history| - 1]
    case Check(_) => FailuresSinceSuccess(before)
    case Success(_) => 0
    case Failure(_) => FailuresSinceSuccess(before) + 1
  }

  function LastFailure(history: seq<Event>): Option<int> {
    if history == [] then None
    else if history[|history| - 1].Failure? then Some(history[|history| - 1].at)
    else LastFailure(history[..|history| - 1])
  }

  // Too few failures since the last success, or the latest of them is at least the cooldown ago.
  predicate Allowed(c: Tuning, history: seq<Event>, now: int) {
    var failures := FailuresSinceSuccess(history);
    failures == 0 || failures < c.failureThreshold
    || (LastFailure(history).Some? && now - LastFailure(history).value >= c.cooldown)
  }

  ghost predicate InOrder(history: seq<Event>) {
    forall i, j :: 0 <= i < j < |history| ==> history[i].at <= history[j].at
  }

  // What the store knows about the calls that led to it.
  ghost predicate Reflects(c: Tuning, s: Store, history: seq<Event>) {
    var failures, last := FailuresSinceSuccess(history), LastFailure(history);
    if s.state.None? || s.state.value.Closed? then
      s.failures == failures && (failures == 0 || failures < c.failureThreshold)
    else
      && 0 < failures && c.failureThreshold <= failures && c.failureThreshold <= s.failures
      && last.Some? && s.openedAt == last
      && (s.state.value.HalfOpen? ==> history[|history| - 1].at - last.value >= c.cooldown)
  }

  lemma {:induction false} ReplayReflects(c: Tuning, history: seq<Event>)
    requires InOrder(history)
    ensures Reflects(c, Replay(c, history), history)
  {
    if history != [] {
      ReplayReflects(c, history[..|history| - 1]);
    }
  }

  // After every ordered history the machine answers exactly as the formula does.
  lemma MachineRefinesFormula(c: Tuning, history: seq<Event>, now: int)
    requires InOrder(history + [Check(now)])
    ensures Admits(c, Replay(c, history), now) <==> Allowed(c, history, now)
  {
    assert (history + [Check(now)])[..|history|] == history;
    assert forall i :: 0 <= i < |history| ==> (history + [Check(now)])[i] == history[i];
    ReplayReflects(c, history);
    if history != [] {
      assert history[|history| - 1].at <= (history + [Check(now)])[|history|].at;
    }
  }

  // Asking is free: it changes the store, but no later answer.
  lemma ChecksDoNotMatter(c: Tuning, history: seq<Event>, at: int, now: int)
    requires InOrder(history + [Check(at)] + [Check(now)])
    ensures Admits(c, Replay(c, history + [Check(at)]), now) <==> Admits(c, Replay(c, history), now)
  {
    var asked := history + [Check(at)];
    assert asked[..|history|] == history;
    assert InOrder(history + [Check(now)]) by {
      var all := asked + [Check(now)];
      forall i, j | 0 <= i < j < |history + [Check(now)]|
        ensures (history + [Check(now)])[i].at <= (history + [Check(now)])[j].at
      {
        assert all[i].at <= all[if j == |history| then j + 1 else j].at;
      }
    }
    MachineRefinesFormula(c, asked, now);
    MachineRefinesFormula(c, history, now);
  }

  // One circuit, shared by every worker through the store.
  class CircuitBreaker {
    const tuning: Tuning
    var state: Option<CircuitState>
    var failures: nat
    var openedAt: Option<int>
    ghost var history: seq<Event>

    ghost function Contents(): Store
      reads this
    {
      Store(state, failures, openedAt)
    }

    ghost predicate Valid()
      reads this
    {
      Contents() == Replay(tuning, history)
    }

    constructor (failureThreshold: int := 5, cooldown: int := 60)
      ensures Valid() && history == [] && tuning == Tuning(failureThreshold, cooldown)
    {
      tuning := Tuning(failureThreshold, cooldown);
      state, failures, openedAt := None, 0, None;
      history := [];
    }

    method CanExecute(now: int) returns (ok: bool)
      requires Valid()
      modifies this
      ensures Valid() && history == old(history) + [Check(now)]
      ensures Contents() == AfterCheck(tuning, old(Contents()), now)
      ensures InOrder(history) ==> (ok <==> Allowed(tuning, old(history), now))
    {
      ghost var before := Contents();
      ok := true;
      if state == Some(Open) {
        if openedAt == None {
          state := Some(HalfOpen);
        } else if now - openedAt.value >= tuning.cooldown {
          state := Some(HalfOpen);
        } else {
          ok := false;
        }
      }
      assert ok <==> Admits(tuning, before, now);
      ReplayOne(tuning, history, Check(now));
      history := history + [Check(now)];
      if InOrder(history) {
        MachineRefinesFormula(tuning, old(history), now);
      }
    }

    method RecordSuccess(ghost now: int)
      requires Valid()
      modifies this
      ensures Valid() && history == old(history) + [Success(now)]
      ensures state == Some(Closed) && failures == 0 && openedAt == None
    {
      state, failures, openedAt := Some(Closed), 0, None;
      history := history + [Success(now)];
    }

    method RecordFailure(now: int)
      requires Valid()
      modifies this
      ensures Valid() && history == old(history) + [Failure(now)]
      ensures Contents() == AfterFailure(tuning, old(Contents()), now)
    {
      if state == Some(HalfOpen) {
        Trip(now);
      } else {
        failures := failures + 1;
        if failures >= tuning.failureThreshold {
          Trip(now);
        }
      }
      ReplayOne(tuning, history, Failure(now));
      history := history + [Failure(now)];
    }

    method Trip(now: int)
      modifies this`state, this`openedAt
      ensures Contents() == OpenCircuit(old(Contents()), now)
    {
      state, openedAt := Some(Open), Some(now);
    }
  }
}
