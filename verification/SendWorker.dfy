// The send worker: one polled batch, row by row, with a single commit at the end, or a rollback of all of it.
module SendWorker {
  import opened Models
  import opened QuietHours
  import opened Outbox
  import opened Protocol
  import CircuitBreaker

  // How the way to the provider ends: with something raised before the text was handed over, with something raised
  // before its outcome was recorded, or with an answer.
  datatype SendCall = NeverSent | SentThenRaised | Answer(outcome: Outcome)

  // What the world answers for one row: is its guardian on file, its school, how its sending ends, and whether telling
  // the breaker of the answer raises, or the audit entry, or telling the breaker of what was raised. claimAt and sendAt
  // are the clock at the two times it is looked at.
  datatype Attempt = Attempt(
    guardianFound: bool, schoolFound: bool, claimAt: int, sendAt: int, call: SendCall,
    recordRaises: bool, auditRaises: bool, handlerRaises: bool)

  datatype Tally = Tally(sent: nat, failed: nat, unknown: nat, claimed: nat, skipped: nat, deferred: nat)

  const NO_TALLY := Tally(0, 0, 0, 0, 0, 0)

  // ---- one row ----

  datatype Fate = Skipped | NoGuardian | Deferred | NotSent | Unrecorded | Answered(outcome: Outcome)

  function FateOf(c: Config, canSend: bool, r: Row, a: Attempt): Fate {
    if !canSend || r.status != Pending then Skipped
    else if !a.guardianFound then NoGuardian
    else if a.schoolFound && IsWithinQuietHours(c.window, a.claimAt, c.offset) then Deferred
    else match a.call
      case NeverSent => NotSent
      case SentThenRaised => Unrecorded
      case Answer(outcome) => Answered(outcome)
  }

  predicate HandedOver(f: Fate) {
    f.Answered? || f.Unrecorded?
  }

  function Processed(c: Config, canSend: bool, r: Row, a: Attempt): Row {
    if !canSend then r else
    var (claimed, goes) := AfterClaim(c, r, a.guardianFound, a.schoolFound, a.claimAt);
    if goes && a.call.Answer? then AfterSubmit(claimed, a.call.outcome, a.sendAt) else claimed
  }

  // The status a row ends its pass with says what became of it. Whatever is raised before the outcome is recorded
  // leaves the row Sending, whether or not the text went out.
  lemma FateShows(c: Config, canSend: bool, r: Row, a: Attempt)
    ensures var f, r' := FateOf(c, canSend, r, a), Processed(c, canSend, r, a);
            match f
            case Skipped => r' == r
            case NoGuardian => r'.status == Failed && r'.failedAt == Some(a.claimAt)
            case Deferred => r'.status == Pending && r'.scheduledAt.Some? && r'.scheduledAt.value > a.claimAt
                             && !IsWithinQuietHours(c.window, r'.scheduledAt.value, c.offset)
            case NotSent => r'.status == Sending
            case Unrecorded => r'.status == Sending
            case Answered(Accepted(sid)) => r'.status == Sent && (sid != "" ==> r'.sid == Some(sid))
            case Answered(Ambiguous) => r'.status == UnknownDelivery && r'.sid == r.sid
            case Answered(Refused) => r'.status == Failed && r'.failedAt == Some(a.sendAt)
  {
    NextAllowedIsLeast(c.window, a.claimAt, c.offset);
  }

  // The pass raises: on the way to the provider, on telling the breaker of an answer, or on the audit entry.
  predicate Raises(f: Fate, a: Attempt) {
    match f
    case NotSent => true
    case Unrecorded => true
    case Answered(outcome) => (!outcome.Ambiguous? && a.recordRaises) || a.auditRaises
    case _ => false
  }

  // The handler of the pass raises in its turn, which ends the loop and rolls the batch back.
  predicate Stops(f: Fate, a: Attempt) {
    Raises(f, a) && a.handlerRaises
  }

  function Counted(t: Tally, f: Fate, raises: bool): Tally {
    match f
    case Skipped => t.(skipped := t.skipped + 1)
    case NoGuardian => t.(claimed := t.claimed + 1, failed := t.failed + 1)
    case Deferred => t.(claimed := t.claimed + 1, deferred := t.deferred + 1)
    case NotSent => t.(claimed := t.claimed + 1, failed := t.failed + 1)
    case Unrecorded => t.(claimed := t.claimed + 1, failed := t.failed + 1)
    case Answered(outcome) => CountedAnswer(t.(claimed := t.claimed + 1), outcome, raises)
  }

  function CountedAnswer(t: Tally, outcome: Outcome, raises: bool): Tally {
    var answered := match outcome
      case Accepted(_) => t.(sent := t.sent + 1)
      case Ambiguous => t.(unknown := t.unknown + 1)
      case Refused => t.(failed := t.failed + 1);
    if raises then answered.(failed := answered.failed + 1) else answered
  }

  // The circuit breaker's clock.
  function Seconds(at: int): int {
    at / 1_000_000
  }

  // What the circuit breaker hears about a row: its answer, and that the pass raised.
  function Heard(f: Fate, a: Attempt): seq<CircuitBreaker.Event> {
    (if f.Answered? && !a.recordRaises then HeardOf(f.outcome, a.sendAt) else [])
    + (if Raises(f, a) then HeardOfRaise(a) else [])
  }

  function HeardOf(outcome: Outcome, at: int): seq<CircuitBreaker.Event> {
    match outcome
    case Accepted(_) => [CircuitBreaker.Success(Seconds(at))]
    case Ambiguous => []
    case Refused => [CircuitBreaker.Failure(Seconds(at))]
  }

  function HeardOfRaise(a: Attempt): seq<CircuitBreaker.Event> {
    if a.handlerRaises then [] else [CircuitBreaker.Failure(Seconds(a.sendAt))]
  }

  // ---- a batch ----

  // Of the first n rows: what the breaker hears, how they are tallied, and how many raised after being counted.
  function HeardIn(fates: seq<Fate>, attempts: seq<Attempt>, n: nat): seq<CircuitBreaker.Event>
    requires n <= |fates| == |attempts|
  {
    if n == 0 then [] else HeardIn(fates, attempts, n - 1) + Heard(fates[n - 1], attempts[n - 1])
  }

  function TallyOf(fates: seq<Fate>, attempts: seq<Attempt>, n: nat): Tally
    requires n <= |fates| == |attempts|
  {
    if n == 0 then NO_TALLY
    else Counted(TallyOf(fates, attempts, n - 1), fates[n - 1], Raises(fates[n - 1], attempts[n - 1]))
  }

  function RaisedLate(fates: seq<Fate>, attempts: seq<Attempt>, n: nat): nat
    requires n <= |fates| == |attempts|
  {
    if n == 0 then 0
    else RaisedLate(fates, attempts, n - 1)
         + if fates[n - 1].Answered? && Raises(fates[n - 1], attempts[n - 1]) then 1 else 0
  }

  // Every row is counted as claimed or skipped. The results add up to the claims, except that a row is counted twice
  // when something raised after its result was.
  lemma {:induction false} TallyAddsUp(fates: seq<Fate>, attempts: seq<Attempt>, n: nat)
    requires n <= |fates| == |attempts|
    ensures var t := TallyOf(fates, attempts, n);
            && t.claimed + t.skipped == n
            && t.sent + t.failed + t.unknown + t.deferred == t.claimed + RaisedLate(fates, attempts, n)
  {
    if n > 0 {
      TallyAddsUp(fates, attempts, n - 1);
    }
  }

  // How many of the first n rows met a fate of some kind.
  function Passes(fates: seq<Fate>, n: nat, p: Fate -> bool): nat
    requires n <= |fates|
  {
    |set i: nat | i < n && p(fates[i])|
  }

  lemma OneMorePass(fates: seq<Fate>, n: nat, p: Fate -> bool)
    requires 0 < n <= |fates|
    ensures Passes(fates, n, p) == Passes(fates, n - 1, p) + if p(fates[n - 1]) then 1 else 0
  {
    var before, after := set i: nat | i < n - 1 && p(fates[i]), set i: nat | i < n && p(fates[i]);
    assert after == before + if p(fates[n - 1]) then {n - 1} else {};
  }

  predicate WasAccepted(f: Fate) {
    f.Answered? && f.outcome.Accepted?
  }

  predicate WasAmbiguous(f: Fate) {
    f.Answered? && f.outcome.Ambiguous?
  }

  predicate DidNotGo(f: Fate) {
    f.NoGuardian? || f.NotSent? || f.Unrecorded? || (f.Answered? && f.outcome.Refused?)
  }

  // Each counter says how many rows met its fate; failed says besides how many were counted before something raised.
  lemma {:induction false} TallyCounts(fates: seq<Fate>, attempts: seq<Attempt>, n: nat)
    requires n <= |fates| == |attempts|
    ensures var t := TallyOf(fates, attempts, n);
            && t.sent == Passes(fates, n, WasAccepted) && t.unknown == Passes(fates, n, WasAmbiguous)
            && t.skipped == Passes(fates, n, (f: Fate) => f.Skipped?)
            && t.deferred == Passes(fates, n, (f: Fate) => f.Deferred?)
            && t.failed == Passes(fates, n, DidNotGo) + RaisedLate(fates, attempts, n)
  {
    if n > 0 {
      TallyCounts(fates, attempts, n - 1);
      OneMorePass(fates, n, WasAccepted);
      OneMorePass(fates, n, WasAmbiguous);
      OneMorePass(fates, n, (f: Fate) => f.Skipped?);
      OneMorePass(fates, n, (f: Fate) => f.Deferred?);
      OneMorePass(fates, n, DidNotGo);
    }
  }

  // ---- what a batch does to the breaker ----

  // Nobody was there to send to, the moment was wrong, or the answer was ambiguous: the breaker hears nothing. An
  // accepted text is a success at its second and a refused one a failure; whatever raises is a failure too, unless the
  // handler raises as well, and takes the place of an answer of which the breaker could not be told.
  lemma HeardIs(f: Fate, a: Attempt)
    ensures var success, failure :=
              CircuitBreaker.Success(a.sendAt / 1_000_000), CircuitBreaker.Failure(a.sendAt / 1_000_000);
            match f
            case Skipped => Heard(f, a) == []
            case NoGuardian => Heard(f, a) == []
            case Deferred => Heard(f, a) == []
            case NotSent => Heard(f, a) == if a.handlerRaises then [] else [failure]
            case Unrecorded => Heard(f, a) == if a.handlerRaises then [] else [failure]
            case Answered(Ambiguous) => Heard(f, a) == if a.auditRaises && !a.handlerRaises then [failure] else []
            case Answered(Accepted(_)) =>
              && (!a.recordRaises && !a.auditRaises ==> Heard(f, a) == [success])
              && (a.recordRaises && !a.handlerRaises ==> Heard(f, a) == [failure])
              && (!a.recordRaises && a.auditRaises && !a.handlerRaises ==> Heard(f, a) == [success, failure])
            case Answered(Refused) =>
              && (!a.recordRaises && !a.auditRaises ==> Heard(f, a) == [failure])
              && (a.recordRaises && !a.handlerRaises ==> Heard(f, a) == [failure])
              && (!a.recordRaises && a.auditRaises && !a.handlerRaises ==> Heard(f, a) == [failure, failure])
  {}

  // The provider could not be reached or refused.
  predicate FailsToGo(f: Fate, a: Attempt) {
    (f.NotSent? || f.Unrecorded? || (f.Answered? && f.outcome.Refused?)) && !a.handlerRaises
  }

  lemma FailuresAdd(history: seq<CircuitBreaker.Event>, at: int)
    ensures var once := history + [CircuitBreaker.Failure(at)];
            && CircuitBreaker.FailuresSinceSuccess(once) == CircuitBreaker.FailuresSinceSuccess(history) + 1
            && CircuitBreaker.LastFailure(once) == Some(at)
  {
    assert (history + [CircuitBreaker.Failure(at)])[..|history|] == history;
  }

  lemma FailedPassIsHeard(history: seq<CircuitBreaker.Event>, f: Fate, a: Attempt)
    requires FailsToGo(f, a)
    ensures var after := history + Heard(f, a);
            && CircuitBreaker.FailuresSinceSuccess(after) > CircuitBreaker.FailuresSinceSuccess(history)
            && CircuitBreaker.LastFailure(after) == Some(a.sendAt / 1_000_000)
  {
    var failure := CircuitBreaker.Failure(a.sendAt / 1_000_000);
    HeardIs(f, a);
    FailuresAdd(history, a.sendAt / 1_000_000);
    FailuresAdd(history + [failure], a.sendAt / 1_000_000);
    assert history + [failure] + [failure] == history + [failure, failure];
  }

  // A batch of failures is counted row by row.
  lemma {:induction false} FailedBatchIsHeard(
      history: seq<CircuitBreaker.Event>, fates: seq<Fate>, attempts: seq<Attempt>, n: nat)
    requires 0 < n <= |fates| == |attempts| && forall i :: 0 <= i < n ==> FailsToGo(fates[i], attempts[i])
    ensures var after := history + HeardIn(fates, attempts, n);
            && CircuitBreaker.FailuresSinceSuccess(after) >= CircuitBreaker.FailuresSinceSuccess(history) + n
            && CircuitBreaker.LastFailure(after) == Some(attempts[n - 1].sendAt / 1_000_000)
  {
    var before, heard := HeardIn(fates, attempts, n - 1), Heard(fates[n - 1], attempts[n - 1]);
    if n > 1 {
      FailedBatchIsHeard(history, fates, attempts, n - 1);
    } else {
      assert history + [] == history;
    }
    FailedPassIsHeard(history + before, fates[n - 1], attempts[n - 1]);
    assert history + before + heard == history + (before + heard);
  }

  // Once there are as many of them as the threshold, no task may send until the cooldown has passed since the last.
  lemma FailedBatchOpensBreaker(
      history: seq<CircuitBreaker.Event>, fates: seq<Fate>, attempts: seq<Attempt>, n: nat,
      tuning: CircuitBreaker.Tuning, now: int)
    requires 0 < n <= |fates| == |attempts| && forall i :: 0 <= i < n ==> FailsToGo(fates[i], attempts[i])
    requires tuning.failureThreshold <= n
    ensures CircuitBreaker.Allowed(tuning, history + HeardIn(fates, attempts, n), now)
            <==> now >= attempts[n - 1].sendAt / 1_000_000 + tuning.cooldown
  {
    FailedBatchIsHeard(history, fates, attempts, n);
  }

  // One text that is accepted without a hitch lets every task send again, whatever failed before.
  lemma AcceptedTextReopensBreaker(
      history: seq<CircuitBreaker.Event>, fates: seq<Fate>, attempts: seq<Attempt>, n: nat,
      tuning: CircuitBreaker.Tuning, now: int)
    requires 0 < n <= |fates| == |attempts| && WasAccepted(fates[n - 1])
    requires !attempts[n - 1].recordRaises && !attempts[n - 1].auditRaises
    ensures CircuitBreaker.Allowed(tuning, history + HeardIn(fates, attempts, n), now)
  {
    var all := history + HeardIn(fates, attempts, n);
    HeardIs(fates[n - 1], attempts[n - 1]);
    assert all[|all| - 1] == CircuitBreaker.Success(attempts[n - 1].sendAt / 1_000_000);
  }

  // The task's breaker opens at five failures and for a minute.
  method SendBreaker() returns (breaker: CircuitBreaker.CircuitBreaker)
    ensures fresh(breaker) && breaker.Valid() && breaker.history == []
    ensures breaker.tuning == CircuitBreaker.Tuning(5, 60)
  {
    breaker := new CircuitBreaker.CircuitBreaker();
  }

  function FatesOf(c: Config, canSend: bool, rows: seq<Row>, attempts: seq<Attempt>): seq<Fate>
    requires |rows| == |attempts|
  {
    seq(|rows|, i requires 0 <= i < |rows| => FateOf(c, canSend, rows[i], attempts[i]))
  }

  // Of n passes the last one stopped the loop, or none did.
  ghost predicate PassesSoFar(fates: seq<Fate>, attempts: seq<Attempt>, n: nat, stopped: bool)
    requires n <= |fates| == |attempts|
  {
    && (forall i :: 0 <= i < n ==> (Stops(fates[i], attempts[i]) <==> stopped && i == n - 1))
    && (stopped ==> n > 0)
  }

  // The loop makes n passes: all of them, or up to and including the first whose handler raises.
  ghost predicate PassesMade(fates: seq<Fate>, attempts: seq<Attempt>, n: nat, stopped: bool)
    requires n <= |fates| == |attempts|
  {
    PassesSoFar(fates, attempts, n, stopped) && (!stopped ==> n == |fates|)
  }

  // ---- the loop ----

  // One row. heard collects what the circuit breaker is told; nothing in a batch asks it again.
  method ProcessOne(c: Config, canSend: bool, message: OutboundMessage, ghost row: Row, a: Attempt, before: Tally)
      returns (tally: Tally, heard: seq<CircuitBreaker.Event>, stops: bool)
    requires HasRow(message, row)
    modifies message
    ensures HasRow(message, Processed(c, canSend, row, a))
    ensures heard == Heard(FateOf(c, canSend, row, a), a)
    ensures stops == Stops(FateOf(c, canSend, row, a), a)
    ensures tally == Counted(before, FateOf(c, canSend, row, a), Raises(FateOf(c, canSend, row, a), a))
  {
    tally, heard, stops := before, [], false;
    if !canSend {
      tally := tally.(skipped := tally.skipped + 1);
      return;
    }
    var claimed := message.ClaimForSending(a.claimAt);
    if !claimed {
      tally := tally.(skipped := tally.skipped + 1);
      return;
    }
    tally := tally.(claimed := tally.claimed + 1);
    if !a.guardianFound {
      var _ := message.TransitionStatus(Failed, "", a.claimAt);
      tally := tally.(failed := tally.failed + 1);
      return;
    }
    if a.schoolFound && IsWithinQuietHours(c.window, a.claimAt, c.offset) {
      message.status := Pending;
      message.scheduledAt := Some(NextAllowedSendTime(c.window, a.claimAt, c.offset));
      message.updatedAt, message.deferredAt := a.claimAt, Some(a.claimAt);
      tally := tally.(deferred := tally.deferred + 1);
      return;
    }
    var raised := true;
    if a.call.Answer? {
      tally, heard, raised := HandleResult(message, a.call.outcome, a, tally);
    }
    if raised {
      tally := tally.(failed := tally.failed + 1);
      if a.handlerRaises {
        stops := true;
      } else {
        heard := heard + [CircuitBreaker.Failure(Seconds(a.sendAt))];
      }
    }
  }

  // What becomes of a claimed row that was handed to the provider.
  method HandleResult(message: OutboundMessage, outcome: Outcome, a: Attempt, before: Tally)
      returns (tally: Tally, heard: seq<CircuitBreaker.Event>, raised: bool)
    requires message.status == Sending
    modifies message
    ensures message.Snapshot() == AfterSubmit(old(message.Snapshot()), outcome, a.sendAt)
    ensures heard == if a.recordRaises then [] else HeardOf(outcome, a.sendAt)
    ensures raised == Raises(Answered(outcome), a) && tally == CountedAnswer(before, outcome, false)
  {
    tally, heard, raised := before, [], false;
    match outcome {
      case Accepted(sid) =>
        var _ := message.TransitionStatus(Sent, sid, a.sendAt);
        tally := tally.(sent := tally.sent + 1);
        if a.recordRaises {
          raised := true;
          return;
        }
        heard := [CircuitBreaker.Success(Seconds(a.sendAt))];
      case Ambiguous =>
        var _ := message.TransitionStatus(UnknownDelivery, "", a.sendAt);
        tally := tally.(unknown := tally.unknown + 1);
      case Refused =>
        var _ := message.TransitionStatus(Failed, "", a.sendAt);
        tally := tally.(failed := tally.failed + 1);
        if a.recordRaises {
          raised := true;
          return;
        }
        heard := [CircuitBreaker.Failure(Seconds(a.sendAt))];
    }
    raised := a.auditRaises;
  }

  // What the breaker is told of the first n rows, and how they are tallied.
  ghost predicate Progress(
      heard: seq<CircuitBreaker.Event>, tally: Tally, fates: seq<Fate>, attempts: seq<Attempt>, n: nat)
    requires n <= |fates| == |attempts|
  {
    heard == HeardIn(fates, attempts, n) && tally == TallyOf(fates, attempts, n)
  }

  ghost predicate IsFate(f: Fate, c: Config, canSend: bool, r: Row, a: Attempt) {
    f == FateOf(c, canSend, r, a)
  }

  ghost predicate IsResult(result: Row, c: Config, canSend: bool, r: Row, a: Attempt) {
    result == Processed(c, canSend, r, a)
  }

  method ProcessNext(c: Config, canSend: bool, message: OutboundMessage, ghost row: Row, ghost result: Row,
                     ghost fates: seq<Fate>, attempts: seq<Attempt>, i: nat, tally: Tally,
                     heard: seq<CircuitBreaker.Event>)
      returns (tally': Tally, heard': seq<CircuitBreaker.Event>, stops: bool)
    requires HasRow(message, row) && i < |fates| == |attempts| && IsFate(fates[i], c, canSend, row, attempts[i])
    requires IsResult(result, c, canSend, row, attempts[i])
    requires Progress(heard, tally, fates, attempts, i) && PassesSoFar(fates, attempts, i, false)
    modifies message
    ensures HasRow(message, result)
    ensures Progress(heard', tally', fates, attempts, i + 1) && PassesSoFar(fates, attempts, i + 1, stops)
  {
    var more;
    tally', more, stops := ProcessOne(c, canSend, message, row, attempts[i], tally);
    heard' := heard + more;
  }

  // The batch, row by row, until it is done or a handler raises. Every row that had its pass ends as its result has it.
  method ProcessBatch(c: Config, canSend: bool, messages: seq<OutboundMessage>, ghost rows: seq<Row>,
                      ghost results: seq<Row>, ghost fates: seq<Fate>, attempts: seq<Attempt>)
      returns (tally: Tally, heard: seq<CircuitBreaker.Event>, n: nat, stopped: bool)
    requires |results| == |fates| == |attempts| == |messages| && Distinct(messages) && HaveRows(messages, rows)
    requires forall i {:trigger IsFate(fates[i], c, canSend, rows[i], attempts[i])} ::
      0 <= i < |rows| ==> IsFate(fates[i], c, canSend, rows[i], attempts[i])
    requires forall i {:trigger IsResult(results[i], c, canSend, rows[i], attempts[i])} ::
      0 <= i < |rows| ==> IsResult(results[i], c, canSend, rows[i], attempts[i])
    modifies messages
    ensures n <= |messages| && PassesMade(fates, attempts, n, stopped)
    ensures forall i :: 0 <= i < n ==> HasRow(messages[i], results[i])
    ensures forall i :: n <= i < |messages| ==> HasRow(messages[i], rows[i])
    ensures Progress(heard, tally, fates, attempts, n)
  {
    tally, heard, n, stopped := NO_TALLY, [], 0, false;
    while n < |messages| && !stopped
      invariant n <= |messages| && PassesSoFar(fates, attempts, n, stopped)
      invariant forall j :: 0 <= j < n ==> HasRow(messages[j], results[j])
      invariant forall j :: n <= j < |messages| ==> HasRow(messages[j], rows[j])
      invariant Progress(heard, tally, fates, attempts, n)
    {
      tally, heard, stopped :=
        ProcessNext(c, canSend, messages[n], rows[n], results[n], fates, attempts, n, tally, heard);
      n := n + 1;
    }
  }

  // ---- the whole task ----

  datatype TaskFailure = RolledBack

  class OutboxStore {
    var rows: map<nat, Row>

    constructor ()
      ensures rows == map[]
    {
      rows := map[];
    }
  }

  method LoadMessages(store: OutboxStore, ids: seq<nat>) returns (messages: seq<OutboundMessage>)
    requires forall id :: id in ids ==> id in store.rows
    ensures fresh(messages) && Distinct(messages) && HaveRows(messages, RowsAt(store.rows, ids))
  {
    messages := [];
    for i := 0 to |ids|
      invariant fresh(messages) && |messages| == i && Distinct(messages)
      invariant forall j :: 0 <= j < i ==> HasRow(messages[j], store.rows[ids[j]])
    {
      var message := new OutboundMessage.Load(store.rows[ids[i]]);
      messages := messages + [message];
    }
  }

  // The table after a commit: only the polled rows differ, each as its attempt has it.
  ghost predicate Published(c: Config, canSend: bool, was: map<nat, Row>, rows: map<nat, Row>, ids: seq<nat>,
                            attempts: seq<Attempt>)
    requires |attempts| == |ids|
  {
    && rows.Keys == was.Keys
    && (forall i :: 0 <= i < |ids| ==>
         ids[i] in was && rows[ids[i]] == Processed(c, canSend, was[ids[i]], attempts[i]))
    && (forall id :: id in was && id !in ids ==> rows[id] == was[id])
  }

  function ResultsOf(c: Config, canSend: bool, rows: seq<Row>, attempts: seq<Attempt>): seq<Row>
    requires |rows| == |attempts|
  {
    seq(|rows|, i requires 0 <= i < |rows| => Processed(c, canSend, rows[i], attempts[i]))
  }

  // The first n results written over the table.
  ghost predicate WrittenSoFar(was: map<nat, Row>, rows: map<nat, Row>, ids: seq<nat>, results: seq<Row>, n: nat)
    requires n <= |ids| == |results|
  {
    && rows.Keys == was.Keys
    && (forall i :: 0 <= i < n ==> ids[i] in rows && rows[ids[i]] == results[i])
    && (forall id :: id in was && id !in ids[..n] ==> rows[id] == was[id])
  }

  lemma WriteNext(was: map<nat, Row>, rows: map<nat, Row>, ids: seq<nat>, results: seq<Row>, n: nat)
    requires n < |ids| == |results| && Distinct(ids) && ids[n] in was && WrittenSoFar(was, rows, ids, results, n)
    ensures WrittenSoFar(was, rows[ids[n] := results[n]], ids, results, n + 1)
  {
    assert ids[..n + 1] == ids[..n] + [ids[n]];
  }

  method Commit(store: OutboxStore, ids: seq<nat>, messages: seq<OutboundMessage>, ghost was: map<nat, Row>,
                ghost results: seq<Row>)
    requires |messages| == |results| == |ids| && Distinct(ids) && store.rows == was
    requires forall id :: id in ids ==> id in was
    requires forall i :: 0 <= i < |ids| ==> HasRow(messages[i], results[i])
    modifies store
    ensures WrittenSoFar(was, store.rows, ids, results, |ids|)
  {
    for i := 0 to |ids|
      invariant WrittenSoFar(was, store.rows, ids, results, i)
    {
      assert HasRow(messages[i], results[i]);
      WriteNext(was, store.rows, ids, results, i);
      store.rows := store.rows[ids[i] := messages[i].Snapshot()];
    }
  }

  lemma WrittenIsPublished(c: Config, canSend: bool, was: map<nat, Row>, rows: map<nat, Row>, ids: seq<nat>,
                           attempts: seq<Attempt>)
    requires |attempts| == |ids| && forall id :: id in ids ==> id in was
    requires WrittenSoFar(was, rows, ids, ResultsOf(c, canSend, RowsAt(was, ids), attempts), |ids|)
    ensures Published(c, canSend, was, rows, ids, attempts)
  {
    assert ids[..|ids|] == ids;
  }

  // What may be raised before the first pass: by the look at the breaker, or by the poll query.
  datatype Start = CheckRaises | QueryRaises | Starts

  // What the breaker answers when it is asked in order.
  ghost predicate AnsweredBy(
      canSend: bool, tuning: CircuitBreaker.Tuning, history: seq<CircuitBreaker.Event>, now: int)
  {
    CircuitBreaker.InOrder(history + [CircuitBreaker.Check(Seconds(now))]) ==>
      (canSend <==> CircuitBreaker.Allowed(tuning, history, Seconds(now)))
  }

  // A whole run of the task: one look at the breaker, the batch that the query gave, and a commit, or a rollback when
  // the query, a handler or the commit itself raises. The breaker keeps what it was told either way.
  method PollAndSend(c: Config, breaker: CircuitBreaker.CircuitBreaker, store: OutboxStore, ids: seq<nat>, now: int,
                     start: Start, attempts: seq<Attempt>, commits: bool)
      returns (r: Result<Tally, TaskFailure>, canSend: bool, n: nat, stopped: bool)
    requires breaker.Valid() && |attempts| == |ids| && Distinct(ids) && forall id :: id in ids ==> id in store.rows
    modifies breaker, store
    ensures breaker.Valid() && n <= |ids|
    ensures !start.CheckRaises? ==> AnsweredBy(canSend, breaker.tuning, old(breaker.history), now)
    ensures !start.Starts? ==>
              && r.Err? && n == 0
              && breaker.history == old(breaker.history)
                 + if start.CheckRaises? then [] else [CircuitBreaker.Check(Seconds(now))]
    ensures start.Starts? ==>
              var fates := FatesOf(c, canSend, RowsAt(old(store.rows), ids), attempts);
              && breaker.history
                 == old(breaker.history) + [CircuitBreaker.Check(Seconds(now))] + HeardIn(fates, attempts, n)
              && PassesMade(fates, attempts, n, stopped)
              && (r.Ok? <==> ids == [] || (commits && !stopped))
              && (r.Ok? ==> r.value == TallyOf(fates, attempts, n))
    ensures r.Ok? ==> Published(c, canSend, old(store.rows), store.rows, ids, attempts)
    ensures r.Err? ==> store.rows == old(store.rows)
  {
    r, canSend, n, stopped := Err(RolledBack), false, 0, false;
    if start == CheckRaises {
      return;
    }
    canSend := breaker.CanExecute(Seconds(now));
    if start == QueryRaises {
      return;
    }
    if ids == [] {
      return Ok(NO_TALLY), canSend, 0, false;
    }
    ghost var was := store.rows;
    ghost var fates := FatesOf(c, canSend, RowsAt(was, ids), attempts);
    ghost var results := ResultsOf(c, canSend, RowsAt(was, ids), attempts);
    var messages := LoadMessages(store, ids);
    var tally, heard;
    tally, heard, n, stopped := ProcessBatch(c, canSend, messages, RowsAt(was, ids), results, fates, attempts);
    Tell(breaker, heard);
    if stopped || !commits {
      return;
    }
    Commit(store, ids, messages, was, results);
    WrittenIsPublished(c, canSend, was, store.rows, ids, attempts);
    r := Ok(tally);
  }

  method Tell(breaker: CircuitBreaker.CircuitBreaker, heard: seq<CircuitBreaker.Event>)
    requires breaker.Valid()
    modifies breaker
    ensures breaker.Valid() && breaker.history == old(breaker.history) + heard
  {
    for i := 0 to |heard|
      invariant breaker.Valid() && breaker.history == old(breaker.history) + heard[..i]
    {
      assert heard[..i + 1] == heard[..i] + [heard[i]];
      match heard[i] {
        case Check(at) => var _ := breaker.CanExecute(at);
        case Success(at) => breaker.RecordSuccess(at);
        case Failure(at) => breaker.RecordFailure(at);
      }
    }
    assert heard[..|heard|] == heard;
  }
}
