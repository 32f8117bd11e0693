// A run of the send task, finished or rolled back at any point, is a run of the outbox protocol, so everything proved
// of the protocol holds of the task.
module SendRefinement {
  import opened Models
  import opened QuietHours
  import opened Outbox
  import opened Protocol
  import opened ProtocolRuns
  import opened ProtocolSafety
  import opened ProtocolTheorems
  import opened SendWorker
  import CircuitBreaker

  // ---- one worker at work, everything else at rest ----

  function With(s: State, w: int, now: int, b: Batch, submits: multiset<nat>): State {
    s.(now := now, batches := s.batches[w := b], submits := submits)
  }

  lemma TickWith(c: Config, u: State, s: State, w: int, now: int, b: Batch, m: multiset<nat>, at: int)
    requires Leads(c, u, With(s, w, now, b, m)) && now <= at
    ensures Leads(c, u, With(s, w, at, b, m))
  {
    LeadsOn(c, u, With(s, w, now, b, m), Tick(at - now));
  }

  lemma SkipWith(c: Config, u: State, s: State, w: int, now: int, b: Batch, m: multiset<nat>)
    requires Leads(c, u, With(s, w, now, b, m))
    requires b.flight.None? && b.todo != [] && b.todo[0] in b.view && !b.canSend
    ensures Leads(c, u, With(s, w, now, b.(todo := b.todo[1..]), m))
  {
    var t := With(s, w, now, b, m);
    LeadsOn(c, u, t, Skip(w));
    assert Next(c, t, Skip(w)).batches == s.batches[w := b.(todo := b.todo[1..])];
  }

  lemma ClaimWith(c: Config, u: State, s: State, w: int, now: int, b: Batch, m: multiset<nat>,
                  guardian: bool, school: bool)
    requires Leads(c, u, With(s, w, now, b, m))
    requires b.flight.None? && b.todo != [] && b.todo[0] in b.view && b.canSend
    ensures Leads(c, u, With(s, w, now, ClaimedIn(c, b, guardian, school, now), m))
  {
    var t := With(s, w, now, b, m);
    LeadsOn(c, u, t, Claim(w, guardian, school));
    assert Next(c, t, Claim(w, guardian, school)).batches == s.batches[w := ClaimedIn(c, b, guardian, school, now)];
  }

  lemma RaiseWith(c: Config, u: State, s: State, w: int, now: int, b: Batch, m: multiset<nat>)
    requires Leads(c, u, With(s, w, now, b, m)) && b.flight.Some? && b.flight.value.id in b.view
    ensures Leads(c, u, With(s, w, now, b.(flight := None), m))
  {
    var t := With(s, w, now, b, m);
    LeadsOn(c, u, t, Raise(w));
    assert Next(c, t, Raise(w)).batches == s.batches[w := b.(flight := None)];
  }

  lemma SubmitWith(c: Config, u: State, s: State, w: int, now: int, b: Batch, m: multiset<nat>,
                   outcome: Outcome, recorded: bool)
    requires Leads(c, u, With(s, w, now, b, m)) && b.flight.Some? && b.flight.value.id in b.view
    ensures Leads(c, u, With(s, w, now, SubmittedIn(b, outcome, recorded, now), m + multiset{b.flight.value.id}))
  {
    var t := With(s, w, now, b, m);
    LeadsOn(c, u, t, Submit(w, outcome, recorded));
    assert Next(c, t, Submit(w, outcome, recorded)).batches == s.batches[w := SubmittedIn(b, outcome, recorded, now)];
  }

  // ---- one row ----

  predicate Goes(c: Config, b: Batch, a: Attempt)
    requires b.todo != [] && b.todo[0] in b.view
  {
    SentBy(c, b.canSend, b.view[b.todo[0]], a)
  }

  predicate SentBy(c: Config, canSend: bool, r: Row, a: Attempt) {
    HandedOver(FateOf(c, canSend, r, a))
  }

  // The batch once its next row has been through one attempt.
  function AfterAttempt(c: Config, b: Batch, a: Attempt): Batch
    requires b.todo != [] && b.todo[0] in b.view
  {
    var id := b.todo[0];
    b.(todo := b.todo[1..],
       view := b.view[id := Processed(c, b.canSend, b.view[id], a)],
       submitted := if Goes(c, b, a) then b.submitted + {id} else b.submitted)
  }

  function Given(c: Config, b: Batch, a: Attempt): multiset<nat>
    requires b.todo != [] && b.todo[0] in b.view
  {
    if Goes(c, b, a) then multiset{b.todo[0]} else multiset{}
  }

  lemma AttemptIsRun(c: Config, u: State, s: State, w: int, now: int, b: Batch, m: multiset<nat>, a: Attempt)
    requires Leads(c, u, With(s, w, now, b, m)) && now <= a.claimAt <= a.sendAt
    requires b.flight.None? && b.todo != [] && b.todo[0] in b.view
    ensures Leads(c, u, With(s, w, a.sendAt, AfterAttempt(c, b, a), m + Given(c, b, a)))
  {
    if !b.canSend {
      SkipWith(c, u, s, w, now, b, m);
      TickWith(c, u, s, w, now, b.(todo := b.todo[1..]), m, a.sendAt);
      assert b.view[b.todo[0] := b.view[b.todo[0]]] == b.view;
    } else {
      TickWith(c, u, s, w, now, b, m, a.claimAt);
      ClaimWith(c, u, s, w, a.claimAt, b, m, a.guardianFound, a.schoolFound);
      var claimed := ClaimedIn(c, b, a.guardianFound, a.schoolFound, a.claimAt);
      TickWith(c, u, s, w, a.claimAt, claimed, m, a.sendAt);
      if claimed.flight.Some? {
        match a.call {
          case Answer(outcome) => SubmitWith(c, u, s, w, a.sendAt, claimed, m, outcome, true);
          case SentThenRaised => SubmitWith(c, u, s, w, a.sendAt, claimed, m, Refused, false);
          case NeverSent => RaiseWith(c, u, s, w, a.sendAt, claimed, m);
        }
      }
      ClaimedThenSent(c, b, a);
    }
  }

  lemma ClaimedThenSent(c: Config, b: Batch, a: Attempt)
    requires b.flight.None? && b.todo != [] && b.todo[0] in b.view && b.canSend
    ensures var claimed, after := ClaimedIn(c, b, a.guardianFound, a.schoolFound, a.claimAt), AfterAttempt(c, b, a);
            && (claimed.flight.None? ==> after == claimed && !Goes(c, b, a))
            && (claimed.flight.Some? ==> claimed.flight.value.id == b.todo[0])
            && (claimed.flight.Some? ==>
                 match a.call
                 case Answer(outcome) => after == SubmittedIn(claimed, outcome, true, a.sendAt) && Goes(c, b, a)
                 case SentThenRaised => after == SubmittedIn(claimed, Refused, false, a.sendAt) && Goes(c, b, a)
                 case NeverSent => after == claimed.(flight := None) && !Goes(c, b, a))
  {
    var id, claimed := b.todo[0], ClaimedIn(c, b, a.guardianFound, a.schoolFound, a.claimAt);
    var r := Processed(c, b.canSend, b.view[id], a);
    assert claimed.view[id := r] == b.view[id := r];
  }

  // ---- the whole batch, or the first part of it ----

  // The clock never runs backwards from one look at it to the next.
  predicate InTime(now: int, attempts: seq<Attempt>)
    decreases |attempts|
  {
    attempts == [] || (now <= attempts[0].claimAt <= attempts[0].sendAt && InTime(attempts[0].sendAt, attempts[1..]))
  }

  function EndOf(now: int, attempts: seq<Attempt>): int {
    if attempts == [] then now else attempts[|attempts| - 1].sendAt
  }

  ghost predicate Ready(b: Batch, attempts: seq<Attempt>) {
    && b.flight.None? && |attempts| <= |b.todo|
    && (forall i :: 0 <= i < |b.todo| ==> b.todo[i] in b.view)
    && (forall i, j :: 0 <= i < j < |b.todo| ==> b.todo[i] != b.todo[j])
  }

  ghost function AfterAll(c: Config, b: Batch, attempts: seq<Attempt>): Batch
    requires Ready(b, attempts)
    decreases |attempts|
  {
    if attempts == [] then b else AfterAll(c, AfterAttempt(c, b, attempts[0]), attempts[1..])
  }

  ghost function GivenIn(c: Config, b: Batch, attempts: seq<Attempt>): multiset<nat>
    requires Ready(b, attempts)
    decreases |attempts|
  {
    if attempts == [] then multiset{}
    else Given(c, b, attempts[0]) + GivenIn(c, AfterAttempt(c, b, attempts[0]), attempts[1..])
  }

  lemma {:induction false} BatchIsRun(
      c: Config, u: State, s: State, w: int, now: int, b: Batch, m: multiset<nat>, attempts: seq<Attempt>)
    requires Leads(c, u, With(s, w, now, b, m)) && Ready(b, attempts) && InTime(now, attempts)
    ensures Leads(c, u, With(s, w, EndOf(now, attempts), AfterAll(c, b, attempts), m + GivenIn(c, b, attempts)))
    decreases |attempts|
  {
    if attempts == [] {
      Sums(m, multiset{}, multiset{});
    } else {
      var a, given, b' := attempts[0], Given(c, b, attempts[0]), AfterAttempt(c, b, attempts[0]);
      AttemptIsRun(c, u, s, w, now, b, m, a);
      BatchIsRun(c, u, s, w, a.sendAt, b', m + given, attempts[1..]);
      EndOfRest(now, attempts);
      Sums(m, given, GivenIn(c, b', attempts[1..]));
    }
  }

  lemma Sums(a: multiset<nat>, b: multiset<nat>, c: multiset<nat>)
    ensures a + b + c == a + (b + c) && a + multiset{} == a
  {}

  lemma EndOfRest(now: int, attempts: seq<Attempt>)
    requires attempts != []
    ensures EndOf(attempts[0].sendAt, attempts[1..]) == EndOf(now, attempts)
  {}

  function Once(given: bool): nat {
    if given then 1 else 0
  }

  ghost predicate EndsAs(c: Config, b: Batch, b': Batch, given: multiset<nat>, id: nat, a: Attempt) {
    && id in b.view && id in b'.view && b'.view[id] == Processed(c, b.canSend, b.view[id], a)
    && given[id] == Once(SentBy(c, b.canSend, b.view[id], a))
    && (id in b'.submitted <==> id in b.submitted || SentBy(c, b.canSend, b.view[id], a))
  }

  ghost predicate EndsAlone(b: Batch, b': Batch, given: multiset<nat>, id: nat) {
    (id in b.view <==> id in b'.view) && (id in b.view ==> b'.view[id] == b.view[id])
    && given[id] == 0 && (id in b'.submitted <==> id in b.submitted)
  }

  ghost predicate AllEnd(c: Config, b: Batch, b': Batch, given: multiset<nat>, attempts: seq<Attempt>)
    requires |attempts| <= |b.todo|
  {
    && (forall i :: 0 <= i < |attempts| ==> EndsAs(c, b, b', given, b.todo[i], attempts[i]))
    && (forall id :: id !in b.todo[..|attempts|] ==> EndsAlone(b, b', given, id))
  }

  // Each row that was worked on ends as its own attempt has it, and was given to the provider at most once.
  lemma {:induction false} AfterAllIs(c: Config, b: Batch, attempts: seq<Attempt>)
    requires Ready(b, attempts)
    ensures AfterAll(c, b, attempts).todo == b.todo[|attempts|..] && AfterAll(c, b, attempts).flight.None?
    ensures AllEnd(c, b, AfterAll(c, b, attempts), GivenIn(c, b, attempts), attempts)
    decreases |attempts|
  {
    if attempts != [] {
      var b1 := AfterAttempt(c, b, attempts[0]);
      AfterAllIs(c, b1, attempts[1..]);
      TailOfTodo(b.todo, |attempts|);
      FirstThenAll(c, b, AfterAll(c, b1, attempts[1..]), GivenIn(c, b1, attempts[1..]), attempts);
    }
  }

  lemma FirstThenAll(c: Config, b: Batch, b': Batch, given1: multiset<nat>, attempts: seq<Attempt>)
    requires Ready(b, attempts) && attempts != []
    requires AllEnd(c, AfterAttempt(c, b, attempts[0]), b', given1, attempts[1..])
    ensures AllEnd(c, b, b', Given(c, b, attempts[0]) + given1, attempts)
  {
    var n := |attempts|;
    TailOfTodo(b.todo, n);
    FirstEndsAs(c, b, attempts[0], b', given1);
    forall i | 0 < i < n ensures EndsAs(c, b, b', Given(c, b, attempts[0]) + given1, b.todo[i], attempts[i]) {
      OthersEnd(c, b, attempts[0], b', given1, b.todo[i], attempts[1..][i - 1]);
    }
    forall id | id !in b.todo[..n] ensures EndsAlone(b, b', Given(c, b, attempts[0]) + given1, id) {
      OthersEnd(c, b, attempts[0], b', given1, id, attempts[0]);
    }
  }

  lemma TailOfTodo(todo: seq<nat>, n: nat)
    requires 0 < n <= |todo| && forall i, j :: 0 <= i < j < |todo| ==> todo[i] != todo[j]
    ensures todo[..n] == [todo[0]] + todo[1..][..n - 1] && todo[1..][n - 1..] == todo[n..]
    ensures todo[0] !in todo[1..][..n - 1]
    ensures forall i :: 0 < i < n ==> todo[1..][i - 1] == todo[i] && todo[i] != todo[0]
  {}

  lemma FirstEndsAs(c: Config, b: Batch, a: Attempt, b': Batch, given1: multiset<nat>)
    requires b.todo != [] && b.todo[0] in b.view && EndsAlone(AfterAttempt(c, b, a), b', given1, b.todo[0])
    ensures EndsAs(c, b, b', Given(c, b, a) + given1, b.todo[0], a)
  {}

  // A row that the first attempt is not about ends as it does after that attempt.
  lemma OthersEnd(c: Config, b: Batch, first: Attempt, b': Batch, given1: multiset<nat>, id: nat, a: Attempt)
    requires b.todo != [] && b.todo[0] in b.view && id != b.todo[0]
    ensures EndsAs(c, AfterAttempt(c, b, first), b', given1, id, a) ==>
              EndsAs(c, b, b', Given(c, b, first) + given1, id, a)
    ensures EndsAlone(AfterAttempt(c, b, first), b', given1, id) ==> EndsAlone(b, b', Given(c, b, first) + given1, id)
  {}

  // ---- the whole task ----

  function Polled(s: State, ids: seq<nat>, canSend: bool): Batch {
    Batch(ids, canSend, map id | id in ids && id in s.rows :: s.rows[id], None, {})
  }

  lemma PolledIsReady(s: State, ids: seq<nat>, limit: nat, canSend: bool, attempts: seq<Attempt>)
    requires IsSelection(ids, Due(s), limit) && |attempts| <= |ids|
    ensures Ready(Polled(s, ids, canSend), attempts)
    ensures forall id :: id in ids ==> id in s.rows
  {
    forall i | 0 <= i < |ids| ensures ids[i] in s.rows {
      assert ids[i] in Due(s);
    }
  }

  lemma PollWith(c: Config, s: State, w: int, ids: seq<nat>, limit: nat, canSend: bool)
    requires Enabled(s, Poll(w, ids, limit, canSend))
    ensures Leads(c, s, With(s, w, s.now, Polled(s, ids, canSend), s.submits))
  {
    Stays(c, s);
    LeadsOn(c, s, s, Poll(w, ids, limit, canSend));
  }

  lemma CommitWith(c: Config, u: State, s: State, w: int, now: int, b: Batch, m: multiset<nat>)
    requires Leads(c, u, With(s, w, now, b, m)) && w !in s.batches && b.flight.None? && b.todo == []
    ensures Leads(c, u, s.(now := now, rows := s.rows + b.view, submits := m))
  {
    var t := With(s, w, now, b, m);
    LeadsOn(c, u, t, Commit(w));
    assert Next(c, t, Commit(w)).batches == s.batches;
  }

  // What one run of the task leaves in the database: the table as PollAndSend publishes it, and one submit for every
  // row it handed over.
  ghost predicate TaskDone(c: Config, s: State, t: State, ids: seq<nat>, canSend: bool, attempts: seq<Attempt>)
    requires |attempts| == |ids|
  {
    && t == s.(now := EndOf(s.now, attempts), rows := t.rows, submits := t.submits)
    && Published(c, canSend, s.rows, t.rows, ids, attempts)
    && (forall i :: 0 <= i < |ids| ==> SentOnce(c, canSend, s, t, ids[i], attempts[i]))
    && (forall id :: id !in ids ==> t.submits[id] == s.submits[id])
  }

  ghost predicate SentOnce(c: Config, canSend: bool, s: State, t: State, id: nat, a: Attempt) {
    id in s.rows && t.submits[id] == s.submits[id] + Once(SentBy(c, canSend, s.rows[id], a))
  }

  lemma PassesAreRun(c: Config, s: State, w: int, ids: seq<nat>, limit: nat, canSend: bool, attempts: seq<Attempt>)
      returns (b': Batch, given: multiset<nat>)
    requires Enabled(s, Poll(w, ids, limit, canSend)) && |attempts| <= |ids| && InTime(s.now, attempts)
    ensures Leads(c, s, With(s, w, EndOf(s.now, attempts), b', s.submits + given))
    ensures b'.todo == ids[|attempts|..] && b'.flight.None? && forall id :: id in ids ==> id in s.rows
    ensures forall i :: 0 <= i < |attempts| ==> EndsAs(c, Polled(s, ids, canSend), b', given, ids[i], attempts[i])
    ensures forall id :: id !in ids[..|attempts|] ==> EndsAlone(Polled(s, ids, canSend), b', given, id)
  {
    var b := Polled(s, ids, canSend);
    PolledIsReady(s, ids, limit, canSend, attempts);
    PollWith(c, s, w, ids, limit, canSend);
    BatchIsRun(c, s, s, w, s.now, b, s.submits, attempts);
    AfterAllIs(c, b, attempts);
    b', given := AfterAll(c, b, attempts), GivenIn(c, b, attempts);
  }

  // A poll, the batch that PollAndSend makes of it and the commit are a run of the protocol. It hands each polled row
  // to the provider at most once, and leaves the table as PollAndSend does.
  lemma TaskIsRun(c: Config, s: State, w: int, ids: seq<nat>, limit: nat, canSend: bool, attempts: seq<Attempt>)
      returns (t: State)
    requires Enabled(s, Poll(w, ids, limit, canSend)) && |attempts| == |ids| && InTime(s.now, attempts)
    ensures Leads(c, s, t) && TaskDone(c, s, t, ids, canSend, attempts)
  {
    var b', given := PassesAreRun(c, s, w, ids, limit, canSend, attempts);
    assert ids[..|attempts|] == ids;
    CommitWith(c, s, s, w, EndOf(s.now, attempts), b', s.submits + given);
    t := s.(now := EndOf(s.now, attempts), rows := s.rows + b'.view, submits := s.submits + given);
    CommittedIsDone(c, s, t, ids, canSend, attempts, b', given);
  }

  lemma CommittedIsDone(c: Config, s: State, t: State, ids: seq<nat>, canSend: bool, attempts: seq<Attempt>,
                        b': Batch, given: multiset<nat>)
    requires |attempts| == |ids| && forall id :: id in ids ==> id in s.rows
    requires t == s.(now := EndOf(s.now, attempts), rows := s.rows + b'.view, submits := s.submits + given)
    requires forall i :: 0 <= i < |ids| ==> EndsAs(c, Polled(s, ids, canSend), b', given, ids[i], attempts[i])
    requires forall id :: id !in ids ==> EndsAlone(Polled(s, ids, canSend), b', given, id)
    ensures TaskDone(c, s, t, ids, canSend, attempts)
  {
    CommittedIsPublished(c, s, ids, canSend, attempts, b', given);
    forall i | 0 <= i < |ids| ensures SentOnce(c, canSend, s, t, ids[i], attempts[i]) {
      assert EndsAs(c, Polled(s, ids, canSend), b', given, ids[i], attempts[i]);
    }
    forall id | id !in ids ensures given[id] == 0 {
      assert EndsAlone(Polled(s, ids, canSend), b', given, id);
    }
  }

  lemma CommittedIsPublished(c: Config, s: State, ids: seq<nat>, canSend: bool, attempts: seq<Attempt>,
                             b': Batch, given: multiset<nat>)
    requires |attempts| == |ids| && forall id :: id in ids ==> id in s.rows
    requires forall i :: 0 <= i < |ids| ==> EndsAs(c, Polled(s, ids, canSend), b', given, ids[i], attempts[i])
    requires forall id :: id !in ids ==> EndsAlone(Polled(s, ids, canSend), b', given, id)
    ensures Published(c, canSend, s.rows, s.rows + b'.view, ids, attempts)
  {
    forall i | 0 <= i < |ids| ensures (s.rows + b'.view)[ids[i]] == Processed(c, canSend, s.rows[ids[i]], attempts[i]) {
      assert EndsAs(c, Polled(s, ids, canSend), b', given, ids[i], attempts[i]);
    }
    forall id | id !in ids ensures id !in b'.view {
      assert EndsAlone(Polled(s, ids, canSend), b', given, id);
    }
  }

  // ---- a task that crashes ----

  lemma AbortWith(c: Config, u: State, s: State, w: int, now: int, b: Batch, m: multiset<nat>)
    requires Leads(c, u, With(s, w, now, b, m)) && w !in s.batches
    ensures Leads(c, u, s.(now := now, submits := m, aborted := s.aborted + multiset(b.submitted)))
  {
    var t := With(s, w, now, b, m);
    LeadsOn(c, u, t, Abort(w));
    assert Next(c, t, Abort(w)).batches == s.batches;
  }

  // What a task that is rolled back after some of its passes leaves behind: the table as it was, and the texts sent.
  ghost predicate TaskCrashed(c: Config, s: State, t: State, ids: seq<nat>, canSend: bool, attempts: seq<Attempt>)
    requires |attempts| <= |ids|
  {
    && t == s.(now := EndOf(s.now, attempts), submits := t.submits, aborted := t.aborted)
    && (forall i :: 0 <= i < |attempts| ==> RowCrashed(c, canSend, s, t, ids[i], attempts[i]))
    && (forall id :: id !in ids[..|attempts|] ==> t.submits[id] == s.submits[id] && t.aborted[id] == s.aborted[id])
  }

  ghost predicate RowCrashed(c: Config, canSend: bool, s: State, t: State, id: nat, a: Attempt) {
    && SentOnce(c, canSend, s, t, id, a)
    && t.aborted[id] == s.aborted[id] + Once(SentBy(c, canSend, s.rows[id], a))
  }

  // A rollback after any number of passes is a run of the protocol too.
  lemma CrashedTaskIsRun(c: Config, s: State, w: int, ids: seq<nat>, limit: nat, canSend: bool, attempts: seq<Attempt>)
      returns (t: State)
    requires Enabled(s, Poll(w, ids, limit, canSend)) && |attempts| <= |ids| && InTime(s.now, attempts)
    ensures Leads(c, s, t) && TaskCrashed(c, s, t, ids, canSend, attempts)
  {
    var b', given := PassesAreRun(c, s, w, ids, limit, canSend, attempts);
    AbortWith(c, s, s, w, EndOf(s.now, attempts), b', s.submits + given);
    t := s.(now := EndOf(s.now, attempts), submits := s.submits + given, aborted := s.aborted + multiset(b'.submitted));
    CrashIsAborted(c, s, t, ids, canSend, attempts, b', given);
  }

  lemma CrashIsAborted(c: Config, s: State, t: State, ids: seq<nat>, canSend: bool, attempts: seq<Attempt>,
                       b': Batch, given: multiset<nat>)
    requires |attempts| <= |ids| && forall id :: id in ids ==> id in s.rows
    requires t == s.(now := EndOf(s.now, attempts), submits := s.submits + given,
                     aborted := s.aborted + multiset(b'.submitted))
    requires forall i :: 0 <= i < |attempts| ==> EndsAs(c, Polled(s, ids, canSend), b', given, ids[i], attempts[i])
    requires forall id :: id !in ids[..|attempts|] ==> EndsAlone(Polled(s, ids, canSend), b', given, id)
    ensures TaskCrashed(c, s, t, ids, canSend, attempts)
  {
    forall i | 0 <= i < |attempts| ensures RowCrashed(c, canSend, s, t, ids[i], attempts[i]) {
      assert EndsAs(c, Polled(s, ids, canSend), b', given, ids[i], attempts[i]);
    }
    forall id | id !in ids[..|attempts|] ensures given[id] == 0 && id !in b'.submitted {
      assert EndsAlone(Polled(s, ids, canSend), b', given, id);
    }
  }

  // ---- after a crash ----

  lemma AppendSelection(ids: seq<nat>, more: seq<nat>, candidates: map<nat, int>, limit: nat)
    requires |ids| <= limit && |ids| <= |candidates| && |candidates - Members(ids)| == |candidates| - |ids|
    requires forall i :: 0 <= i < |ids| ==> ids[i] in candidates
    requires forall i, j :: 0 <= i < j < |ids| ==> ids[i] != ids[j] && candidates[ids[i]] <= candidates[ids[j]]
    requires forall id, i :: id in candidates && id !in ids && 0 <= i < |ids| ==> candidates[ids[i]] <= candidates[id]
    requires IsSelection(more, candidates - Members(ids), limit - |ids|)
    ensures IsSelection(ids + more, candidates, limit)
  {
    var all, rest := ids + more, candidates - Members(ids);
    forall i | 0 <= i < |all| ensures all[i] in candidates && (i >= |ids| ==> all[i] in rest) {
      assert i >= |ids| ==> all[i] == more[i - |ids|];
    }
    forall i, j | 0 <= i < j < |all| ensures all[i] != all[j] && candidates[all[i]] <= candidates[all[j]] {
      if i < |ids| <= j {
        assert all[j] !in ids && all[i] == ids[i];
      } else if |ids| <= i {
        assert all[i] == more[i - |ids|] && all[j] == more[j - |ids|];
      }
    }
    forall id, i | id in candidates && id !in all && 0 <= i < |all| ensures candidates[all[i]] <= candidates[id] {
      assert id !in ids && id !in more && id in rest;
      assert i < |ids| ==> all[i] == ids[i];
      assert i >= |ids| ==> all[i] == more[i - |ids|];
    }
  }

  // Whatever comes due later sorts behind what was due before, so as long as the table stays as it is, a later poll of
  // the same size may give the same rows again, and more.
  lemma LaterPoll(s: State, ids: seq<nat>, limit: nat, later: int) returns (more: seq<nat>)
    requires IsSelection(ids, Due(s), limit) && s.now <= later
    ensures IsSelection(ids + more, Due(s.(now := later)), limit)
  {
    var before, after := Due(s), Due(s.(now := later));
    DueLater(s, later);
    DistinctSize(ids);
    SubsetSize(Members(ids), after.Keys);
    assert (after - Members(ids)).Keys == after.Keys - Members(ids);
    assert |after.Keys - Members(ids)| == |after.Keys| - |Members(ids)|;
    assert |after - Members(ids)| == |(after - Members(ids)).Keys| && |after| == |after.Keys|;
    SubsetSize(before.Keys, after.Keys);
    assert |before| == |before.Keys|;
    forall id, i | id in after && id !in ids && 0 <= i < |ids| ensures after[ids[i]] <= after[id] {
      assert ids[i] in before;
    }
    more := SelectionExists(after - Members(ids), limit - |ids|);
    AppendSelection(ids, more, after, limit);
  }

  lemma DueLater(s: State, later: int)
    requires s.now <= later
    ensures var before, after := Due(s), Due(s.(now := later));
            && (forall id :: id in before ==> id in after && after[id] == before[id] && before[id] <= s.now)
            && (forall id :: id in after && id !in before ==> after[id] > s.now)
  {
    var t := s.(now := later);
    assert forall id :: Unlocked(t, id) <==> Unlocked(s, id);
  }

  lemma {:induction false} EndIsLater(now: int, attempts: seq<Attempt>)
    requires InTime(now, attempts)
    ensures now <= EndOf(now, attempts)
    decreases |attempts|
  {
    if attempts != [] {
      EndIsLater(attempts[0].sendAt, attempts[1..]);
      EndOfRest(now, attempts);
    }
  }

  predicate SentBefore(c: Config, s: State, ids: seq<nat>, attempts: seq<Attempt>, i: nat)
    requires i < |ids| && ids[i] in s.rows
  {
    i < |attempts| && SentBy(c, true, s.rows[ids[i]], attempts[i])
  }

  // A state that the two tasks lead to: every row polled by both was texted by the first, or by the second, or by both,
  // and has no retry counted for it.
  ghost predicate TextedByBoth(
      c: Config, s: State, t: State, ids: seq<nat>, attempts: seq<Attempt>, again: seq<Attempt>)
    requires |again| >= |ids|
  {
    forall i :: 0 <= i < |ids| ==>
      ids[i] in s.rows && TextedBy(c, s, t, ids[i], again[i], SentBefore(c, s, ids, attempts, i))
  }

  lemma TaskAfterCrash(c: Config, s: State, w: int, ids: seq<nat>, more: seq<nat>, limit: nat,
                       attempts: seq<Attempt>, again: seq<Attempt>)
      returns (t: State)
    requires Enabled(s, Poll(w, ids, limit, true)) && |attempts| <= |ids| && |again| == |ids + more|
    requires InTime(s.now, attempts) && InTime(EndOf(s.now, attempts), again)
    requires IsSelection(ids + more, Due(s.(now := EndOf(s.now, attempts))), limit)
    ensures Leads(c, s, t) && TextedByBoth(c, s, t, ids, attempts, again)
  {
    var all := ids + more;
    var crashed := CrashedTaskIsRun(c, s, w, ids, limit, true, attempts);
    SameDue(s, crashed);
    t := TaskIsRun(c, crashed, w, all, limit, true, again);
    LeadsFurther(c, s, crashed, t);
    PolledIsReady(s, ids, limit, true, attempts);
    forall i | 0 <= i < |ids| ensures TextedBy(c, s, t, ids[i], again[i], SentBefore(c, s, ids, attempts, i)) {
      assert all[i] == ids[i] && SentOnce(c, true, crashed, t, all[i], again[i]);
      if i < |attempts| {
        assert RowCrashed(c, true, s, crashed, ids[i], attempts[i]);
      } else {
        assert ids[i] !in ids[..|attempts|];
      }
      ProcessingCountsNoRetry(c, s.rows[ids[i]], again[i]);
    }
  }

  // A crash between the texts and the commit is not safe, wherever in the batch it falls. A later poll of the same size
  // may give the same rows again, whatever else has come due, and however the task on them goes then, every row that
  // goes out in both is texted twice without a retry being counted.
  lemma CrashTextsTwice(c: Config, s: State, w: int, ids: seq<nat>, limit: nat, attempts: seq<Attempt>)
      returns (more: seq<nat>)
    requires Enabled(s, Poll(w, ids, limit, true)) && |attempts| <= |ids| && InTime(s.now, attempts)
    ensures IsSelection(ids + more, Due(s.(now := EndOf(s.now, attempts))), limit)
    ensures forall again {:trigger InTime(EndOf(s.now, attempts), again)} ::
              InTime(EndOf(s.now, attempts), again) && |again| == |ids + more| ==>
                exists t :: Leads(c, s, t) && TextedByBoth(c, s, t, ids, attempts, again)
  {
    EndIsLater(s.now, attempts);
    more := LaterPoll(s, ids, limit, EndOf(s.now, attempts));
    forall again | InTime(EndOf(s.now, attempts), again) && |again| == |ids + more|
      ensures exists t :: Leads(c, s, t) && TextedByBoth(c, s, t, ids, attempts, again)
    {
      var t := TaskAfterCrash(c, s, w, ids, more, limit, attempts, again);
    }
  }

  // Texted before, or by this attempt, or both.
  ghost predicate TextedBy(c: Config, s: State, t: State, id: nat, a: Attempt, before: bool) {
    && id in s.rows && id in t.rows && t.rows[id].retryCount == s.rows[id].retryCount
    && t.submits[id] == s.submits[id] + Once(before) + Once(SentBy(c, true, s.rows[id], a))
  }

  lemma SameDue(s: State, t: State)
    requires t == s.(now := t.now, submits := t.submits, aborted := t.aborted)
    ensures Due(t) == Due(s.(now := t.now))
  {
    assert forall id :: Unlocked(t, id) <==> Unlocked(s.(now := t.now), id);
  }

  lemma ProcessingCountsNoRetry(c: Config, r: Row, a: Attempt)
    ensures Processed(c, true, r, a).retryCount == r.retryCount
  {}

  // ---- the task as code ----

  lemma {:induction false} InTimePrefix(now: int, attempts: seq<Attempt>, n: nat)
    requires InTime(now, attempts) && n <= |attempts|
    ensures InTime(now, attempts[..n])
    decreases |attempts|
  {
    if n > 0 {
      InTimePrefix(attempts[0].sendAt, attempts[1..], n - 1);
      assert attempts[..n][1..] == attempts[1..][..n - 1];
    }
  }

  // Every run of the task, however it begins and ends, leaves the stored table as some run of the protocol does, and
  // that run counts its texts. Nothing is polled when the query gives no rows, or nobody gets to asking it.
  method RunTask(c: Config, ghost s: State, ghost w: int, breaker: CircuitBreaker.CircuitBreaker, store: OutboxStore,
                 ids: seq<nat>, ghost limit: nat, now: int, start: Start, attempts: seq<Attempt>, commits: bool)
      returns (r: Result<Tally, TaskFailure>, canSend: bool, ghost n: nat, ghost t: State)
    requires breaker.Valid() && store.rows == s.rows && now == s.now && w !in s.batches
    requires IsSelection(ids, Due(s), limit) && |attempts| == |ids| && InTime(now, attempts)
    modifies breaker, store
    ensures breaker.Valid() && Leads(c, s, t) && store.rows == t.rows && t.batches == s.batches
    ensures !start.CheckRaises? ==> AnsweredBy(canSend, breaker.tuning, old(breaker.history), now)
    ensures r.Ok? ==> t.aborted == s.aborted && TaskDone(c, s, t, ids, canSend, attempts)
    ensures r.Err? ==> n <= |ids| && TaskCrashed(c, s, t, ids, canSend, attempts[..n])
  {
    var stopped, passes;
    PolledIsReady(s, ids, limit, true, attempts);
    r, canSend, passes, stopped := PollAndSend(c, breaker, store, ids, now, start, attempts, commits);
    n := passes;
    if ids == [] || !start.Starts? {
      n, t := 0, s;
      Stays(c, s);
      NothingPolled(c, s, ids, canSend, attempts);
    } else if r.Ok? {
      t := TaskIsRun(c, s, w, ids, limit, canSend, attempts);
      PublishedOnce(c, canSend, s.rows, store.rows, t.rows, ids, attempts);
    } else {
      InTimePrefix(now, attempts, n);
      t := CrashedTaskIsRun(c, s, w, ids, limit, canSend, attempts[..n]);
    }
  }

  lemma NothingPolled(c: Config, s: State, ids: seq<nat>, canSend: bool, attempts: seq<Attempt>)
    requires |attempts| == |ids|
    ensures TaskCrashed(c, s, s, ids, canSend, attempts[..0])
    ensures ids == [] ==> TaskDone(c, s, s, ids, canSend, attempts)
    ensures ids == [] ==> forall rows :: Published(c, canSend, s.rows, rows, ids, attempts) ==> rows == s.rows
  {}

  lemma PublishedOnce(c: Config, canSend: bool, was: map<nat, Row>, rows: map<nat, Row>, rows': map<nat, Row>,
                      ids: seq<nat>, attempts: seq<Attempt>)
    requires |attempts| == |ids|
    requires Published(c, canSend, was, rows, ids, attempts) && Published(c, canSend, was, rows', ids, attempts)
    ensures rows == rows'
  {
    forall id | id in rows ensures rows[id] == rows'[id] {
      if id in ids {
        var i :| 0 <= i < |ids| && ids[i] == id;
      }
    }
  }

  // ---- a row on offer may be sent ----

  // A row on offer may be handed to the provider at once, by any free worker, and be sent.
  lemma DueRowMayBeSent(c: Config, s: State, id: nat, w: int) returns (t: State)
    requires id in Due(s) && w !in s.batches
    ensures Leads(c, s, t) && t.now == s.now && SentFrom(s, t, id)
    ensures id in s.rows && t.rows[id].key == s.rows[id].key
  {
    var ids := DueRowMayBePolled(s, id, w);
    var attempts := AtOnce(s.now, |ids|);
    t := TaskIsRun(c, s, w, ids, |Due(s)|, true, attempts);
    PolledIsSent(c, s, t, ids, attempts, id);
  }

  ghost predicate SentFrom(s: State, t: State, id: nat) {
    t.submits[id] == s.submits[id] + 1 && id in t.rows && t.rows[id].status == Sent
  }

  // A new row that is due is handed to the provider once by some run from its insert on.
  lemma NewRowMayBeSent(c: Config, s: State, key: string, invoice: Option<int>, maxRetries: nat, at: Option<int>,
                        w: int)
      returns (t: State)
    requires Reached(c, s) && !KeyInUse(s, key) && w !in s.batches
    requires at.Some? && at.value <= s.now && maxRetries > 0
    ensures Leads(c, Next(c, s, Insert(key, invoice, maxRetries, at)), t)
    ensures t.submits[s.nextId] == 1 && s.nextId in t.rows && t.rows[s.nextId].status == Sent
    ensures t.rows[s.nextId].key == key
  {
    var u := Next(c, s, Insert(key, invoice, maxRetries, at));
    NewRowIsDueIff(c, s, key, invoice, maxRetries, at);
    t := DueRowMayBeSent(c, u, s.nextId, w);
    ReachedInv(c, s);
    NewIdIsFree(c, s);
    SubmitsAreBounded(c, s, s.nextId);
  }

  // A retried row does not wait for its backoff: a task that starts at once may hand it to the provider before that has
  // begun to pass.
  lemma RetryMayBeSentAtOnce(c: Config, s: State, id: nat, w: int) returns (t: State)
    requires Enabled(s, Retry(id)) && w !in s.batches
    requires var r := s.rows[id];
             r.scheduledAt.Some? && r.scheduledAt.value <= s.now && r.retryCount + 1 < r.maxRetries
    ensures Leads(c, s, t) && t.submits[id] == s.submits[id] + 1
    ensures var retried := Next(c, s, Retry(id)).rows[id];
            retried.nextRetryAt.Some? && t.now < retried.nextRetryAt.value
  {
    var u := Next(c, s, Retry(id));
    RetryIsDueIff(c, s, id);
    t := DueRowMayBeSent(c, u, id, w);
    Stays(c, s);
    LeadsOn(c, s, s, Retry(id));
    LeadsFurther(c, s, u, t);
  }

  lemma PolledIsSent(c: Config, s: State, t: State, ids: seq<nat>, attempts: seq<Attempt>, id: nat)
    requires |attempts| == |ids| && TaskDone(c, s, t, ids, true, attempts) && id in ids
    requires id in s.rows && s.rows[id].status == Pending
    requires forall i :: 0 <= i < |attempts| ==> GoesThrough(attempts[i])
    ensures SentFrom(s, t, id) && t.rows[id].key == s.rows[id].key
  {
    var i :| 0 <= i < |ids| && ids[i] == id;
    assert SentOnce(c, true, s, t, ids[i], attempts[i]);
    assert t.rows[ids[i]] == Processed(c, true, s.rows[ids[i]], attempts[i]);
    FateShows(c, true, s.rows[id], attempts[i]);
  }

  // The guardian is on file, no school is there to ask for its quiet hours, and the provider accepts.
  predicate GoesThrough(a: Attempt) {
    a.guardianFound && !a.schoolFound && a.call.Answer? && a.call.outcome.Accepted?
  }

  // Such attempts, taking no time.
  lemma AtOnce(now: int, n: nat) returns (attempts: seq<Attempt>)
    ensures |attempts| == n && InTime(now, attempts) && EndOf(now, attempts) == now
    ensures forall i :: 0 <= i < n ==> GoesThrough(attempts[i])
  {
    if n == 0 {
      attempts := [];
    } else {
      var rest := AtOnce(now, n - 1);
      attempts := [Attempt(true, false, now, now, Answer(Accepted("")), false, false, false)] + rest;
      assert attempts[1..] == rest;
    }
  }
}
