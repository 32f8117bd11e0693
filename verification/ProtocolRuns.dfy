// More that holds over whole runs of the outbox protocol: how they compose, who may poll what, and what delays a row.
module ProtocolRuns {
  import opened Models
  import opened QuietHours
  import opened Outbox
  import opened Protocol
  import opened ProtocolSafety
  import opened ProtocolTheorems

  // ---- one run after another ----

  ghost predicate Leads(c: Config, s: State, t: State) {
    exists steps: seq<Step> {:trigger Legal(c, s, steps)} :: Legal(c, s, steps) && Run(c, s, steps) == t
  }

  lemma {:induction false} RunConcat(c: Config, s: State, a: seq<Step>, step: Step)
    requires Legal(c, s, a) && Enabled(Run(c, s, a), step)
    ensures Legal(c, s, a + [step]) && Run(c, s, a + [step]) == Next(c, Run(c, s, a), step)
    decreases |a|
  {
    if a == [] {
      assert a + [step] == [step] && [step][1..] == [];
    } else {
      RunConcat(c, Next(c, s, a[0]), a[1..], step);
      assert (a + [step])[1..] == a[1..] + [step];
    }
  }

  lemma Stays(c: Config, s: State)
    ensures Leads(c, s, s)
  {
    assert Legal(c, s, []);
  }

  lemma LeadsOn(c: Config, s: State, t: State, step: Step)
    requires Leads(c, s, t) && Enabled(t, step)
    ensures Leads(c, s, Next(c, t, step))
  {
    var steps: seq<Step> :| Legal(c, s, steps) && Run(c, s, steps) == t;
    RunConcat(c, s, steps, step);
  }

  lemma LeadsFurther(c: Config, s: State, t: State, u: State)
    requires Leads(c, s, t) && Leads(c, t, u)
    ensures Leads(c, s, u)
  {
    var more: seq<Step> :| Legal(c, t, more) && Run(c, t, more) == u;
    RunsOn(c, s, t, more);
  }

  lemma {:induction false} RunsOn(c: Config, s: State, t: State, more: seq<Step>)
    requires Leads(c, s, t) && Legal(c, t, more)
    ensures Leads(c, s, Run(c, t, more))
    decreases |more|
  {
    if more != [] {
      LeadsOn(c, s, t, more[0]);
      RunsOn(c, s, Next(c, t, more[0]), more[1..]);
    }
  }

  // Whatever a reachable state leads to is reachable, so the theorems about reachable states hold of it.
  lemma LeadsKeepsReached(c: Config, s: State, t: State)
    requires Reached(c, s) && Leads(c, s, t)
    ensures Reached(c, t)
  {
    var now: int, steps: seq<Step> :| Legal(c, Initial(now), steps) && s == Run(c, Initial(now), steps);
    assert Leads(c, Initial(now), s);
    LeadsFurther(c, Initial(now), s, t);
  }

  // ---- a query always has an answer ----

  lemma {:induction false} Least(candidates: map<nat, int>) returns (id: nat)
    requires candidates != map[]
    ensures id in candidates && forall i :: i in candidates ==> candidates[id] <= candidates[i]
    decreases |candidates|
  {
    id :| id in candidates;
    var rest := candidates - {id};
    assert rest.Keys == candidates.Keys - {id};
    assert |rest| == |rest.Keys| && |candidates| == |candidates.Keys|;
    assert forall i :: i in candidates ==> i == id || (i in rest && rest[i] == candidates[i]);
    if rest != map[] {
      var other := Least(rest);
      if candidates[other] < candidates[id] {
        id := other;
      }
    }
  }

  lemma {:induction false} SelectionExists(candidates: map<nat, int>, limit: nat) returns (ids: seq<nat>)
    ensures IsSelection(ids, candidates, limit)
    decreases |candidates|
  {
    if limit == 0 || candidates == map[] {
      ids := [];
    } else {
      var first := Least(candidates);
      var rest := candidates - {first};
      assert rest.Keys == candidates.Keys - {first};
      assert |rest| == |rest.Keys| && |candidates| == |candidates.Keys|;
      var more := SelectionExists(rest, limit - 1);
      ids := [first] + more;
      FirstAndRest(candidates, limit, first, more);
    }
  }

  lemma FirstAndRest(candidates: map<nat, int>, limit: nat, first: nat, more: seq<nat>)
    requires limit > 0 && first in candidates && forall i :: i in candidates ==> candidates[first] <= candidates[i]
    requires IsSelection(more, candidates - {first}, limit - 1) && |candidates - {first}| == |candidates| - 1
    ensures IsSelection([first] + more, candidates, limit)
  {
    var ids, rest := [first] + more, candidates - {first};
    forall i, j | 0 <= i < j < |ids|
      ensures ids[j] in candidates && ids[i] != ids[j] && candidates[ids[i]] <= candidates[ids[j]]
    {
      assert ids[j] == more[j - 1] && more[j - 1] in rest;
    }
    forall id, i | id in candidates && id !in ids && 0 <= i < |ids| ensures candidates[ids[i]] <= candidates[id] {
      assert id != ids[0] && id in rest && (id in more ==> id in ids);
    }
  }

  // Asked for at least as many as there are, a query returns all of them.
  lemma AllAreSelected(ids: seq<nat>, candidates: map<nat, int>, limit: nat, id: nat)
    requires IsSelection(ids, candidates, limit) && |candidates| <= limit && id in candidates
    ensures id in ids
  {
    if id !in ids {
      PassedOver(ids, candidates, limit, id);
      SubsetSize(Members(ids) + {id}, candidates.Keys);
    }
  }

  // ---- what a poll may return ----

  // A row is on offer exactly when it waits, nobody holds it, its schedule has passed and its budget is not used up,
  // be it by no attempt yet or by many.
  lemma DueIff(s: State, id: nat)
    ensures id in Due(s) <==>
              && id in s.rows && Unlocked(s, id) && s.rows[id].status == Pending
              && s.rows[id].scheduledAt.Some? && s.rows[id].scheduledAt.value <= s.now
              && s.rows[id].retryCount < s.rows[id].maxRetries
  {}

  // Any free worker may then poll it, with a limit that leaves room.
  lemma DueRowMayBePolled(s: State, id: nat, w: int) returns (ids: seq<nat>)
    requires id in Due(s) && w !in s.batches
    ensures id in ids && Enabled(s, Poll(w, ids, |Due(s)|, true))
  {
    ids := SelectionExists(Due(s), |Due(s)|);
    AllAreSelected(ids, Due(s), |Due(s)|, id);
  }

  // A row that is really inserted is on offer at once exactly when its schedule has passed and it has a budget at all.
  lemma NewRowIsDueIff(c: Config, s: State, key: string, invoice: Option<int>, maxRetries: nat, at: Option<int>)
    requires Reached(c, s) && !KeyInUse(s, key)
    ensures var t := Next(c, s, Insert(key, invoice, maxRetries, at));
            s.nextId in Due(t) <==> at.Some? && at.value <= s.now && maxRetries > 0
  {
    ReachedInv(c, s);
    var t := Next(c, s, Insert(key, invoice, maxRetries, at));
    NewIdIsFree(c, s);
    assert t.rows[s.nextId] == NewRow(key, invoice, maxRetries, at, s.now);
    assert Unlocked(t, s.nextId) <==> Unlocked(s, s.nextId);
    DueIff(t, s.nextId);
  }

  lemma NewIdIsFree(c: Config, s: State)
    requires Inv(c, s)
    ensures Unlocked(s, s.nextId) && s.nextId !in s.born
  {
    forall w | w in s.batches ensures s.nextId !in s.batches[w].view {
      assert BatchOk(c, s.rows, s.batches[w], s.now);
    }
  }

  // ---- backoff and missing schedules ----

  // A retried row is due at once exactly when its schedule has passed and its budget is not used up by this retry; its
  // backoff plays no part.
  lemma RetryIsDueIff(c: Config, s: State, id: nat)
    requires id in s.rows && Unlocked(s, id) && s.rows[id].status == Failed
    ensures Enabled(s, Retry(id))
    ensures var r, t := s.rows[id], Next(c, s, Retry(id));
            && t.rows[id].nextRetryAt == Some(s.now + BackoffMinutes(r.retryCount + 1) * MINUTE)
            && t.rows[id].nextRetryAt.value > t.now
            && (id in Due(t) <==>
                 r.scheduledAt.Some? && r.scheduledAt.value <= s.now && r.retryCount + 1 < r.maxRetries)
  {
    var t := Next(c, s, Retry(id));
    assert Unlocked(t, id);
  }

  // Then any free worker may poll it before its backoff has begun to pass.
  lemma RetryMayBePolledAtOnce(c: Config, s: State, id: nat, w: int) returns (ids: seq<nat>)
    requires Enabled(s, Retry(id)) && w !in s.batches
    requires var r := s.rows[id];
             r.scheduledAt.Some? && r.scheduledAt.value <= s.now && r.retryCount + 1 < r.maxRetries
    ensures var t := Next(c, s, Retry(id));
            && id in ids && Enabled(t, Poll(w, ids, |Due(t)|, true))
            && t.rows[id].nextRetryAt.Some? && t.now < t.rows[id].nextRetryAt.value
  {
    RetryIsDueIff(c, s, id);
    ids := DueRowMayBePolled(Next(c, s, Retry(id)), id, w);
  }

  // ---- through the dead letters ----

  // Any row may be copied to the dead letters, whatever became of it, and stays as it is.
  lemma CopiedToDeadLetters(c: Config, s: State, id: nat, letter: nat)
    requires id in s.rows && letter !in s.deadLetters
    ensures Enabled(s, MoveToDeadLetter(id, letter))
    ensures Next(c, s, MoveToDeadLetter(id, letter)) == s.(deadLetters := s.deadLetters[letter := s.rows[id].key])
  {}

  // Its replay is a new row with a new key and a budget of three, on offer at once, beside the old row; the letter is
  // used up. A second replay under the same key does nothing.
  lemma ReplayIsDue(c: Config, s: State, letter: nat, stamp: string)
    requires Reached(c, s) && letter in s.deadLetters
    ensures Enabled(s, ReplayDeadLetter(letter, stamp))
    ensures var key, t := s.deadLetters[letter] + ":replay:" + stamp, Next(c, s, ReplayDeadLetter(letter, stamp));
            if KeyInUse(s, key) then t == s
            else
              && s.nextId in Due(t) && t.rows[s.nextId] == NewRow(key, None, 3, Some(s.now), s.now)
              && t.rows == s.rows[s.nextId := t.rows[s.nextId]] && t.deadLetters == s.deadLetters - {letter}
  {
    ReachedInv(c, s);
    NewIdIsFree(c, s);
    var t := Next(c, s, ReplayDeadLetter(letter, stamp));
    assert Unlocked(t, s.nextId) <==> Unlocked(s, s.nextId);
    DueIff(t, s.nextId);
  }

  // No worker holds the row, and if it is still in the table it has no schedule.
  ghost predicate Unscheduled(s: State, id: nat) {
    id < s.nextId && Unlocked(s, id) && (id in s.rows ==> s.rows[id].scheduledAt.None?)
  }

  lemma UnscheduledStep(c: Config, s: State, step: Step, id: nat)
    requires Enabled(s, step) && Unscheduled(s, id)
    ensures Unscheduled(Next(c, s, step), id) && Next(c, s, step).submits[id] == s.submits[id]
  {
    if IsRewrite(step) {
      RewriteKeepsUnscheduled(c, s, step, id);
    } else if IsTableChange(step) {
      TableChangeKeepsUnscheduled(c, s, step, id);
    } else {
      BatchStepKeepsUnscheduled(c, s, step, id);
    }
  }

  lemma RewriteKeepsUnscheduled(c: Config, s: State, step: Step, id: nat)
    requires Enabled(s, step) && IsRewrite(step) && Unscheduled(s, id)
    ensures Unscheduled(Next(c, s, step), id) && Next(c, s, step).submits == s.submits
  {}

  lemma TableChangeKeepsUnscheduled(c: Config, s: State, step: Step, id: nat)
    requires Enabled(s, step) && IsTableChange(step) && Unscheduled(s, id)
    ensures Unscheduled(Next(c, s, step), id) && Next(c, s, step).submits == s.submits
  {}

  lemma BatchStepKeepsUnscheduled(c: Config, s: State, step: Step, id: nat)
    requires Enabled(s, step) && !IsRewrite(step) && !IsTableChange(step) && Unscheduled(s, id)
    ensures Unscheduled(Next(c, s, step), id) && Next(c, s, step).submits[id] == s.submits[id]
  {
    if step.Poll? {
      assert id in step.ids ==> id in Due(s);
    }
  }

  lemma {:induction false} UnscheduledRun(c: Config, s: State, steps: seq<Step>, id: nat)
    requires Legal(c, s, steps) && Unscheduled(s, id)
    ensures Run(c, s, steps).submits[id] == s.submits[id]
    decreases |steps|
  {
    if steps != [] {
      UnscheduledStep(c, s, steps[0], id);
      UnscheduledRun(c, Next(c, s, steps[0]), steps[1..], id);
    }
  }

  // A row without a schedule is never polled, so it is never handed to the provider, whatever happens to it.
  lemma UnscheduledIsNeverSent(c: Config, s: State, steps: seq<Step>, id: nat)
    requires Reached(c, s) && Legal(c, s, steps) && id in s.rows && s.rows[id].scheduledAt.None?
    ensures Run(c, s, steps).submits[id] == s.submits[id]
  {
    ReachedInv(c, s);
    forall w | w in s.batches ensures id !in s.batches[w].view {
      assert BatchOk(c, s.rows, s.batches[w], s.now);
    }
    UnscheduledRun(c, s, steps, id);
  }

  // ---- two polls of one run ----

  predicate Ends(step: Step, w: int) {
    (step.Commit? || step.Abort?) && step.worker == w
  }

  lemma BatchKeepsLocks(c: Config, s: State, step: Step, w: int)
    requires Enabled(s, step) && w in s.batches && !Ends(step, w)
    ensures var t := Next(c, s, step); w in t.batches && t.batches[w].view.Keys == s.batches[w].view.Keys
  {}

  lemma {:induction false} RunKeepsLocks(c: Config, s: State, steps: seq<Step>, w: int)
    requires Legal(c, s, steps) && w in s.batches && forall i :: 0 <= i < |steps| ==> !Ends(steps[i], w)
    ensures var t := Run(c, s, steps); w in t.batches && t.batches[w].view.Keys == s.batches[w].view.Keys
    decreases |steps|
  {
    if steps != [] {
      BatchKeepsLocks(c, s, steps[0], w);
      RunKeepsLocks(c, Next(c, s, steps[0]), steps[1..], w);
    }
  }

  // Two polls of one run have no row in common unless the first one's batch has ended in between.
  lemma PollsOfARunAreDisjoint(c: Config, s: State, first: Step, steps: seq<Step>, second: Step)
    requires first.Poll? && Enabled(s, first) && Legal(c, Next(c, s, first), steps)
    requires forall i :: 0 <= i < |steps| ==> !Ends(steps[i], first.worker)
    requires second.Poll? && Enabled(Run(c, Next(c, s, first), steps), second)
    ensures forall id :: id in first.ids ==> id !in second.ids
  {
    var t := Run(c, Next(c, s, first), steps);
    RunKeepsLocks(c, Next(c, s, first), steps, first.worker);
    forall id | id in first.ids ensures id !in second.ids {
      assert id in Due(s);
      assert id in t.batches[first.worker].view;
      assert id in second.ids ==> id in Due(t);
    }
  }

  // ---- deferrals ----

  // A poll returns a deferred row only after the quiet window it was deferred in has ended.
  lemma DeferredRowIsPolledLater(c: Config, s: State, poll: Step, id: nat)
    requires Reached(c, s) && poll.Poll? && Enabled(s, poll) && id in poll.ids
    ensures id in s.rows
    ensures s.rows[id].deferredAt.Some? ==>
              var before := s.rows[id].deferredAt.value;
              var end := NextAllowedSendTime(c.window, before, c.offset);
              before < end <= s.now && !IsWithinQuietHours(c.window, end, c.offset)
  {
    ReachedInv(c, s);
    assert id in Due(s);
    assert RowOk(c, s.rows[id], s.born[id], s.now);
    if s.rows[id].deferredAt.Some? {
      NextAllowedIsLeast(c.window, s.rows[id].deferredAt.value, c.offset);
    }
  }

  // Deferred at that instant, or again after the window of that deferral had ended.
  ghost predicate DeferredThenOrLater(c: Config, r: Row, at: int) {
    r.deferredAt.Some? &&
    (r.deferredAt.value == at || r.deferredAt.value >= NextAllowedSendTime(c.window, at, c.offset))
  }

  ghost predicate OnlyLaterDeferrals(c: Config, s: State, id: nat, at: int) {
    id < s.nextId && (id in s.rows ==> DeferredThenOrLater(c, s.rows[id], at))
  }

  lemma DeferralStep(c: Config, s: State, step: Step, id: nat, at: int)
    requires Inv(c, s) && Enabled(s, step) && OnlyLaterDeferrals(c, s, id, at)
    ensures OnlyLaterDeferrals(c, Next(c, s, step), id, at)
  {
    if IsRewrite(step) {
      RewriteStepRewrites(c, s, step);
      assert id in s.rows ==> RewrittenAt(s, Next(c, s, step), id);
    } else if IsTableChange(step) {
      TableChangeDefersNothing(c, s, step, id);
    } else if step.Commit? {
      CommitDefersLater(c, s, step.worker, id, at);
    }
  }

  lemma TableChangeDefersNothing(c: Config, s: State, step: Step, id: nat)
    requires Enabled(s, step) && IsTableChange(step) && id < s.nextId
    ensures var t := Next(c, s, step);
            id < t.nextId && (id in t.rows ==> id in s.rows && t.rows[id] == s.rows[id])
  {}

  lemma CommitDefersLater(c: Config, s: State, w: int, id: nat, at: int)
    requires Inv(c, s) && Enabled(s, Commit(w)) && OnlyLaterDeferrals(c, s, id, at)
    ensures OnlyLaterDeferrals(c, Next(c, s, Commit(w)), id, at)
  {
    var b := s.batches[w];
    assert BatchOk(c, s.rows, b, s.now);
    if id in b.view {
      assert ViewOk(c, s.rows[id], b.view[id], id in b.submitted, s.now) && RowOk(c, s.rows[id], s.born[id], s.now);
      NextAllowedIsLeast(c.window, s.rows[id].deferredAt.value, c.offset);
      NextAllowedIsLeast(c.window, at, c.offset);
    }
  }

  lemma {:induction false} DeferralRun(c: Config, s: State, steps: seq<Step>, id: nat, at: int)
    requires Inv(c, s) && Legal(c, s, steps) && OnlyLaterDeferrals(c, s, id, at)
    ensures OnlyLaterDeferrals(c, Run(c, s, steps), id, at)
    decreases |steps|
  {
    if steps != [] {
      StepKeepsInv(c, s, steps[0]);
      DeferralStep(c, s, steps[0], id, at);
      DeferralRun(c, Next(c, s, steps[0]), steps[1..], id, at);
    }
  }

  // Two committed deferrals of a row never fall in one quiet window: between them lies an instant at which it could
  // have been sent.
  lemma DeferralsAreApart(c: Config, s: State, steps: seq<Step>, id: nat)
    requires Reached(c, s) && Legal(c, s, steps) && id in s.rows && s.rows[id].deferredAt.Some?
    requires id in Run(c, s, steps).rows
    ensures var first, second := s.rows[id].deferredAt, Run(c, s, steps).rows[id].deferredAt;
            second != first ==>
              var end := NextAllowedSendTime(c.window, first.value, c.offset);
              second.Some? && first.value < end <= second.value && !IsWithinQuietHours(c.window, end, c.offset)
  {
    ReachedInv(c, s);
    DeferralRun(c, s, steps, id, s.rows[id].deferredAt.value);
    NextAllowedIsLeast(c.window, s.rows[id].deferredAt.value, c.offset);
    assert RowOk(c, s.rows[id], s.born[id], s.now);
  }

  // ---- what a purge removes ----

  // Within its scope, rows sent or delivered over 90 days ago and rows failed over 30 days ago, and nothing else.
  lemma PurgeRemovesIff(c: Config, s: State, scope: set<nat>, id: nat)
    requires id in s.rows
    ensures var r, t := s.rows[id], Next(c, s, Purge(scope));
            && (id !in t.rows <==>
                 && id in scope
                 && (|| ((r.status == Sent || r.status == Delivered) && r.updatedAt < s.now - 7_776_000_000_000)
                     || (r.status == Failed && r.updatedAt < s.now - 2_592_000_000_000)))
            && (if id in t.rows then t.rows[id] == r else id in t.ended && t.ended[id] == r.status)
  {}

  // ---- what a reconciliation run may take, and what it makes of it ----

  // An unknown delivery is a candidate from ten minutes after its last touch on.
  lemma UnresolvedIff(s: State, id: nat)
    ensures id in Unresolved(s) <==>
              id in s.rows && s.rows[id].status == UnknownDelivery && s.rows[id].updatedAt <= s.now - 600_000_000
  {}

  // A run takes a hundred at most, so while there are no more it takes every candidate.
  lemma RunWithRoomTakesAll(s: State, ids: seq<nat>, answers: map<nat, string>, id: nat)
    requires Enabled(s, Reconcile(ids, answers)) && |Unresolved(s)| <= 100
    ensures id in ids <==>
              id in s.rows && s.rows[id].status == UnknownDelivery && s.rows[id].updatedAt <= s.now - 600_000_000
  {
    UnresolvedIff(s, id);
    if id in Unresolved(s) {
      AllAreSelected(ids, Unresolved(s), 100, id);
    }
  }

  // Each row it takes ends as the answer about it says: between ten minutes and 72 hours, and with an id to ask with,
  // "delivered" makes it Delivered and "not_found" offers it again with a retry counted. All other rows stay.
  lemma RunEndsRows(c: Config, s: State, ids: seq<nat>, answers: map<nat, string>, id: nat)
    requires Enabled(s, Reconcile(ids, answers)) && |Unresolved(s)| <= 100 && id in s.rows
    ensures var r, t := s.rows[id], Next(c, s, Reconcile(ids, answers));
            && id in t.rows
            && if r.status == UnknownDelivery && r.updatedAt <= s.now - 600_000_000 then
                 EndsAsRun(r, t.rows[id], if id in answers then Some(answers[id]) else None, s.now)
               else t.rows[id] == r
  {
    RunWithRoomTakesAll(s, ids, answers, id);
    RunEndsAs(s.rows[id], if id in answers then Some(answers[id]) else None, s.now);
  }

  // Such a run exists in every state, with room or without, whatever the provider answers.
  lemma RunExists(s: State, answers: map<nat, string>) returns (ids: seq<nat>)
    ensures Enabled(s, Reconcile(ids, answers)) && |ids| <= 100
  {
    ids := SelectionExists(Unresolved(s), 100);
  }
}
