// What the outbox protocol promises over whole runs, however its workers and the other writers interleave.
module ProtocolTheorems {
  import opened Models
  import opened QuietHours
  import opened Outbox
  import opened Protocol
  import opened ProtocolSafety

  ghost predicate Reached(c: Config, s: State) {
    exists now: int, steps: seq<Step> {:trigger Legal(c, Initial(now), steps)} ::
      Legal(c, Initial(now), steps) && s == Run(c, Initial(now), steps)
  }

  lemma ReachedInv(c: Config, s: State)
    requires Reached(c, s)
    ensures Inv(c, s)
  {
    var now: int, steps: seq<Step> :| Legal(c, Initial(now), steps) && s == Run(c, Initial(now), steps);
    InitialInv(c, now);
    RunKeepsInv(c, Initial(now), steps);
  }

  // ---- how often a row is handed to the provider ----

  // Never more often than its retry budget allows, plus once for every aborted batch that had handed it over; a row
  // that waits in the outbox has used at most one submit per retry counted.
  lemma SubmitsAreBounded(c: Config, s: State, id: nat)
    requires Reached(c, s)
    ensures id in s.born ==> s.submits[id] <= s.born[id].maxRetries + s.aborted[id]
    ensures id !in s.born ==> s.submits[id] == 0
    ensures id in s.rows && s.rows[id].status == Pending && Unlocked(s, id) ==>
              s.submits[id] <= s.rows[id].retryCount + s.aborted[id]
    ensures id in s.rows && s.rows[id].status != Pending ==>
              s.submits[id] <= s.rows[id].retryCount + 1 + s.aborted[id]
  {
    ReachedInv(c, s);
    if id in s.rows {
      assert WithinAllowance(s, id);
      if s.rows[id].status != Pending {
        NotLocked(c, s, id);
      }
    }
  }

  // ---- who submits ----

  // A submit is made by the one worker that holds the row, which moved it from Pending to Sending and has not
  // submitted it before; until that worker commits or aborts no other batch can hold or submit it.
  lemma SubmitIsExclusive(c: Config, s: State, w: int, outcome: Outcome, recorded: bool)
    requires Reached(c, s) && Enabled(s, Submit(w, outcome, recorded))
    ensures var id := s.batches[w].flight.value.id;
            && id in s.rows && s.rows[id].status == Pending && s.batches[w].view[id].status == Sending
            && id !in s.batches[w].submitted
            && forall x :: x in s.batches && x != w ==> id !in s.batches[x].view && id !in s.batches[x].submitted
  {
    ReachedInv(c, s);
    var id := s.batches[w].flight.value.id;
    assert BatchOk(c, s.rows, s.batches[w], s.now);
    assert ViewOk(c, s.rows[id], s.batches[w].view[id], id in s.batches[w].submitted, s.now);
    forall x | x in s.batches && x != w ensures id !in s.batches[x].view && id !in s.batches[x].submitted {
      assert id in s.batches[x].view ==> BothLock(s.batches, w, x, id);
      assert BatchOk(c, s.rows, s.batches[x], s.now);
    }
  }

  // What a poll returns is disjoint from what every other open batch holds.
  lemma PollsAreDisjoint(c: Config, s: State, w: int, ids: seq<nat>, limit: nat, canSend: bool)
    requires Reached(c, s) && Enabled(s, Poll(w, ids, limit, canSend))
    ensures var t := Next(c, s, Poll(w, ids, limit, canSend));
            && (forall id :: id in t.batches[w].view <==> id in ids)
            && forall x, id :: x in t.batches && x != w && id in ids ==> id !in t.batches[x].view
  {
    forall i | 0 <= i < |ids| ensures ids[i] in s.rows && Unlocked(s, ids[i]) {
      assert ids[i] in Due(s);
    }
  }

  // An abort undoes a batch in the table, not at the provider: every row it held, submitted or not, is on offer again
  // as it was before the poll.
  lemma AbortOffersAgain(c: Config, s: State, w: int, id: nat)
    requires Reached(c, s) && Enabled(s, Abort(w)) && id in s.batches[w].view
    ensures var t := Next(c, s, Abort(w));
            && id in Due(t) && t.rows[id] == s.rows[id] && t.submits == s.submits
            && t.aborted[id] == s.aborted[id] + if id in s.batches[w].submitted then 1 else 0
  {
    ReachedInv(c, s);
    assert BatchOk(c, s.rows, s.batches[w], s.now);
    assert ViewOk(c, s.rows[id], s.batches[w].view[id], id in s.batches[w].submitted, s.now);
    var t := Next(c, s, Abort(w));
    forall x | x in t.batches ensures id !in t.batches[x].view {
      assert id in t.batches[x].view ==> BothLock(s.batches, w, x, id);
    }
  }

  // ---- keys ----

  // The table never holds a key twice. Inserts of one key are more than 30 days apart, and more than 90 when the
  // earlier row had ended as Sent or Delivered.
  lemma KeysStayApart(c: Config, s: State, i: nat, j: nat)
    requires Reached(c, s)
    ensures i in s.rows && j in s.rows && s.rows[i].key == s.rows[j].key ==> i == j
    ensures i in s.born && j in s.born && i < j && s.born[i].key == s.born[j].key ==>
              && i !in s.rows && i in s.ended
              && (s.ended[i] == Failed || s.ended[i] == Sent || s.ended[i] == Delivered)
              && s.born[j].at - s.born[i].at > if s.ended[i] == Failed then 30 * DAY else 90 * DAY
  {
    ReachedInv(c, s);
    if i in s.rows && j in s.rows && s.rows[i].key == s.rows[j].key {
      assert ShareKey(s.rows, i, j);
    }
    if i in s.born && j in s.born && i < j && s.born[i].key == s.born[j].key {
      assert Rebirth(s.born, i, j);
      assert LongGone(s.born[i], s.ended[i], s.now);
    }
  }

  // ---- quiet hours ----

  // With the school on file, the clock was not in quiet hours when the sender looked before submitting.
  lemma SubmitOutsideQuietHours(c: Config, s: State, w: int, outcome: Outcome, recorded: bool)
    requires Reached(c, s) && Enabled(s, Submit(w, outcome, recorded)) && s.batches[w].flight.value.schoolFound
    ensures s.batches[w].flight.value.sampledAt <= s.now
    ensures !IsWithinQuietHours(c.window, s.batches[w].flight.value.sampledAt, c.offset)
  {
    ReachedInv(c, s);
    assert BatchOk(c, s.rows, s.batches[w], s.now);
  }

  // A row that was deferred before is claimed again only after that quiet window has ended, so between two deferrals
  // of a row there is always an instant at which it could have been sent.
  lemma DeferredOncePerWindow(c: Config, s: State, w: int, guardianFound: bool, schoolFound: bool)
    requires Reached(c, s) && Enabled(s, Claim(w, guardianFound, schoolFound))
    ensures var before := s.batches[w].view[s.batches[w].todo[0]].deferredAt;
            before.Some? ==>
              var end := NextAllowedSendTime(c.window, before.value, c.offset);
              before.value < end <= s.now && !IsWithinQuietHours(c.window, end, c.offset)
  {
    ReachedInv(c, s);
    var b := s.batches[w];
    assert BatchOk(c, s.rows, b, s.now);
    var id := b.todo[0];
    assert ViewOk(c, s.rows[id], b.view[id], id in b.submitted, s.now);
    if b.view[id].deferredAt.Some? {
      NextAllowedIsLeast(c.window, b.view[id].deferredAt.value, c.offset);
    }
  }

  // ---- rows that are done ----

  predicate IsCallbackFor(step: Step, id: nat) {
    step.Callback? && step.id == id
  }

  // No sender, retry or reconciliation takes a row from one of these.
  predicate AtRest(r: Row) {
    r.status in {Sending, Sent, Delivered, Suppressed}
  }

  // A row at rest changes by a callback or not at all; only a purge removes it, and only if it was sent.
  lemma EndStateHolds(c: Config, s: State, step: Step, id: nat)
    requires Enabled(s, step) && !IsCallbackFor(step, id)
    requires id in s.rows && AtRest(s.rows[id]) && Unlocked(s, id) && id < s.nextId
    ensures var t := Next(c, s, step);
            && t.submits[id] == s.submits[id]
            && if id in t.rows then t.rows[id] == s.rows[id]
               else id in t.ended && s.rows[id].status in {Sent, Delivered}
  {
    if IsRewrite(step) {
      RewriteSparesEndState(c, s, step, id);
    } else if IsTableChange(step) {
      TableChangeSparesEndState(c, s, step, id);
    }
  }

  lemma RewriteSparesEndState(c: Config, s: State, step: Step, id: nat)
    requires Enabled(s, step) && !IsCallbackFor(step, id) && IsRewrite(step) && id in s.rows && AtRest(s.rows[id])
    ensures var t := Next(c, s, step); t.submits == s.submits && id in t.rows && t.rows[id] == s.rows[id]
  {
    match step
    case Reconcile(ids, _) => assert id in ids ==> id in Unresolved(s);
    case _ =>
  }

  lemma TableChangeSparesEndState(c: Config, s: State, step: Step, id: nat)
    requires Enabled(s, step) && IsTableChange(step) && id in s.rows && AtRest(s.rows[id]) && id < s.nextId
    ensures var t := Next(c, s, step);
            && t.submits == s.submits
            && if id in t.rows then t.rows[id] == s.rows[id]
               else id in t.ended && s.rows[id].status in {Sent, Delivered}
  {}

  lemma PurgedIsGone(c: Config, s: State, step: Step, id: nat)
    requires Enabled(s, step) && id in s.ended && id !in s.rows && Unlocked(s, id) && id < s.nextId
    ensures var t := Next(c, s, step); id in t.ended && id !in t.rows && t.submits[id] == s.submits[id]
  {}

  lemma NotLocked(c: Config, s: State, id: nat)
    requires Inv(c, s) && if id in s.rows then s.rows[id].status != Pending else id in s.born
    ensures Unlocked(s, id) && id < s.nextId
  {
    forall w | w in s.batches ensures id !in s.batches[w].view {
      assert BatchOk(c, s.rows, s.batches[w], s.now);
    }
  }

  ghost predicate Done(s: State, id: nat) {
    if id in s.rows then s.rows[id].status in {Sent, Delivered} else id in s.ended
  }

  predicate ReportsFailure(step: Step, id: nat) {
    IsCallbackFor(step, id) && MeaningOf(Lower(step.providerStatus)) == Some(Failed)
  }

  // The first delivery of a callback that reports failure; a redelivery is dropped.
  predicate IsFirstFailureReport(s: State, step: Step, id: nat) {
    ReportsFailure(step, id) && step.event !in s.callbackEvents
  }

  // One step undoes a Sent or Delivered row exactly when it is the first delivery of a callback that reports failure.
  lemma DoneHoldsIff(c: Config, s: State, step: Step, id: nat)
    requires Inv(c, s) && Enabled(s, step) && Done(s, id)
    ensures Done(Next(c, s, step), id) <==> !IsFirstFailureReport(s, step, id)
    ensures Next(c, s, step).submits[id] == s.submits[id]
  {
    if IsCallbackFor(step, id) {
      CallbackUndoesIff(c, s, step, id);
    } else {
      OthersKeepDone(c, s, step, id);
    }
  }

  lemma OthersKeepDone(c: Config, s: State, step: Step, id: nat)
    requires Inv(c, s) && Enabled(s, step) && Done(s, id) && !IsCallbackFor(step, id)
    ensures Done(Next(c, s, step), id) && Next(c, s, step).submits[id] == s.submits[id]
  {
    NotLocked(c, s, id);
    if id in s.rows {
      EndStateHolds(c, s, step, id);
    } else {
      PurgedIsGone(c, s, step, id);
    }
  }

  lemma CallbackUndoesIff(c: Config, s: State, step: Step, id: nat)
    requires IsCallbackFor(step, id) && Enabled(s, step) && Done(s, id)
    ensures Done(Next(c, s, step), id) <==> !IsFirstFailureReport(s, step, id)
    ensures Next(c, s, step).submits == s.submits
  {
    StatusCalledBack(s.rows[id], step.providerStatus, s.now);
  }

  lemma StatusCalledBack(r: Row, providerStatus: string, now: int)
    ensures var meaning := MeaningOf(Lower(providerStatus));
            && CalledBack(r, providerStatus, now).status == (if meaning.Some? then meaning.value else r.status)
            && (meaning.Some? ==> meaning.value in {Sent, Delivered, Failed})
  {}

  // The first delivery of a callback that means anything.
  predicate IsFirstWord(s: State, step: Step, id: nat) {
    IsCallbackFor(step, id) && MeaningOf(Lower(step.providerStatus)).Some? && step.event !in s.callbackEvents
  }

  ghost predicate FailureReportIn(c: Config, s: State, steps: seq<Step>, id: nat)
    requires Legal(c, s, steps)
    decreases |steps|
  {
    steps != []
    && (IsFirstFailureReport(s, steps[0], id) || FailureReportIn(c, Next(c, s, steps[0]), steps[1..], id))
  }

  ghost predicate WordIn(c: Config, s: State, steps: seq<Step>, id: nat)
    requires Legal(c, s, steps)
    decreases |steps|
  {
    steps != [] && (IsFirstWord(s, steps[0], id) || WordIn(c, Next(c, s, steps[0]), steps[1..], id))
  }

  lemma DoneStep(c: Config, s: State, step: Step, id: nat)
    requires Inv(c, s) && Enabled(s, step) && Done(s, id) && !IsFirstFailureReport(s, step, id)
    ensures var t := Next(c, s, step); Inv(c, t) && Done(t, id) && t.submits[id] == s.submits[id]
  {
    DoneHoldsIff(c, s, step, id);
    StepKeepsInv(c, s, step);
  }

  // From one state of a run to a later one nothing happened to a row that was sent.
  ghost predicate StillDone(s: State, t: State, id: nat) {
    Done(t, id) && t.submits[id] == s.submits[id]
  }

  lemma {:induction false} DoneRun(c: Config, s: State, steps: seq<Step>, id: nat)
    requires Inv(c, s) && Legal(c, s, steps) && Done(s, id)
    ensures StillDone(s, Run(c, s, steps), id) || FailureReportIn(c, s, steps, id)
    decreases |steps|
  {
    if steps != [] && !IsFirstFailureReport(s, steps[0], id) {
      DoneStep(c, s, steps[0], id);
      DoneRun(c, Next(c, s, steps[0]), steps[1..], id);
    }
  }

  // Once Sent or Delivered, a row is back in the outbox, or handed to the provider again, only if in between a callback
  // was delivered for the first time that reported that it had failed.
  lemma ResendNeedsFailureReport(c: Config, s: State, steps: seq<Step>, id: nat)
    requires Reached(c, s) && Legal(c, s, steps) && Done(s, id)
    ensures StillDone(s, Run(c, s, steps), id) || FailureReportIn(c, s, steps, id)
  {
    ReachedInv(c, s);
    DoneRun(c, s, steps, id);
  }

  // Suppressed, or left Sending by a committed batch that failed to send the row.
  ghost predicate Shelved(s: State, id: nat) {
    id in s.rows && s.rows[id].status in {Suppressed, Sending}
  }

  // A word that was heard before, or means nothing, changes nothing.
  lemma IdleCallback(c: Config, s: State, step: Step, id: nat)
    requires IsCallbackFor(step, id) && Enabled(s, step) && !IsFirstWord(s, step, id)
    ensures var t := Next(c, s, step); t.rows == s.rows && t.submits == s.submits
  {
    assert s.rows[id := s.rows[id]] == s.rows;
  }

  lemma ShelvedHolds(c: Config, s: State, step: Step, id: nat)
    requires Inv(c, s) && Enabled(s, step) && Shelved(s, id) && !IsFirstWord(s, step, id)
    ensures var t := Next(c, s, step); Shelved(t, id) && t.rows[id] == s.rows[id]
  {
    if IsCallbackFor(step, id) {
      IdleCallback(c, s, step, id);
    } else {
      NotLocked(c, s, id);
      EndStateHolds(c, s, step, id);
    }
  }

  // From one state of a run to a later one nothing happened to a shelved row.
  ghost predicate StillShelved(s: State, t: State, id: nat) {
    id in s.rows && Shelved(t, id) && t.rows[id] == s.rows[id]
  }

  lemma {:induction false} ShelvedRun(c: Config, s: State, steps: seq<Step>, id: nat)
    requires Inv(c, s) && Legal(c, s, steps) && Shelved(s, id)
    ensures StillShelved(s, Run(c, s, steps), id) || WordIn(c, s, steps, id)
    decreases |steps|
  {
    if steps != [] && !IsFirstWord(s, steps[0], id) {
      ShelvedHolds(c, s, steps[0], id);
      StepKeepsInv(c, s, steps[0]);
      ShelvedRun(c, Next(c, s, steps[0]), steps[1..], id);
    }
  }

  // At rest in the table, or purged from it.
  ghost predicate Resting(s: State, id: nat) {
    if id in s.rows then AtRest(s.rows[id]) else id in s.ended
  }

  lemma RestingHolds(c: Config, s: State, step: Step, id: nat)
    requires Inv(c, s) && Enabled(s, step) && Resting(s, id) && !IsFirstFailureReport(s, step, id)
    ensures var t := Next(c, s, step); Resting(t, id) && t.submits[id] == s.submits[id]
  {
    if IsCallbackFor(step, id) {
      CallbackLeavesResting(c, s, step, id);
    } else {
      OthersLeaveResting(c, s, step, id);
    }
  }

  lemma CallbackLeavesResting(c: Config, s: State, step: Step, id: nat)
    requires IsCallbackFor(step, id) && Enabled(s, step) && Resting(s, id) && !IsFirstFailureReport(s, step, id)
    ensures var t := Next(c, s, step); Resting(t, id) && t.submits == s.submits
  {
    StatusCalledBack(s.rows[id], step.providerStatus, s.now);
  }

  lemma OthersLeaveResting(c: Config, s: State, step: Step, id: nat)
    requires Inv(c, s) && Enabled(s, step) && Resting(s, id) && !IsCallbackFor(step, id)
    ensures var t := Next(c, s, step); Resting(t, id) && t.submits[id] == s.submits[id]
  {
    NotLocked(c, s, id);
    if id in s.rows {
      EndStateHolds(c, s, step, id);
    } else {
      PurgedIsGone(c, s, step, id);
    }
  }

  lemma {:induction false} RestingRun(c: Config, s: State, steps: seq<Step>, id: nat)
    requires Inv(c, s) && Legal(c, s, steps) && Resting(s, id)
    ensures Run(c, s, steps).submits[id] == s.submits[id] || FailureReportIn(c, s, steps, id)
    decreases |steps|
  {
    if steps != [] && !IsFirstFailureReport(s, steps[0], id) {
      RestingHolds(c, s, steps[0], id);
      StepKeepsInv(c, s, steps[0]);
      RestingRun(c, Next(c, s, steps[0]), steps[1..], id);
    }
  }

  // A shelved row stays as it is for good unless the provider calls back with a word about it, and it is handed to the
  // provider again only if such a word reports failure. For a row that a payment suppressed this is the purpose; for
  // one that is left Sending it means that no worker ever takes it up again.
  lemma ShelvedStays(c: Config, s: State, steps: seq<Step>, id: nat)
    requires Reached(c, s) && Legal(c, s, steps) && Shelved(s, id)
    ensures StillShelved(s, Run(c, s, steps), id) || WordIn(c, s, steps, id)
    ensures Run(c, s, steps).submits[id] == s.submits[id] || FailureReportIn(c, s, steps, id)
  {
    ReachedInv(c, s);
    ShelvedRun(c, s, steps, id);
    RestingRun(c, s, steps, id);
  }

  lemma PaymentSilencesInvoice(c: Config, s: State, invoice: int, steps: seq<Step>, id: nat)
    requires Reached(c, s) && Enabled(s, Suppress(invoice))
    requires Legal(c, Next(c, s, Suppress(invoice)), steps)
    requires id in s.rows && s.rows[id].status == Pending && s.rows[id].invoice == Some(invoice)
    ensures var t := Next(c, s, Suppress(invoice));
            t.rows[id].status == Suppressed
            && (Run(c, t, steps).submits[id] == s.submits[id] || FailureReportIn(c, t, steps, id))
  {
    ReachedInv(c, s);
    StepKeepsInv(c, s, Suppress(invoice));
    RestingRun(c, Next(c, s, Suppress(invoice)), steps, id);
  }

  // ---- unknown deliveries run out ----

  predicate UnknownSince(r: Row, at: int) {
    r.status == UnknownDelivery && r.updatedAt <= at
  }

  ghost predicate HeldUnknownSince(s: State, id: nat, at: int) {
    exists w :: w in s.batches && id in s.batches[w].view && UnknownSince(s.batches[w].view[id], at)
  }

  // The unknown deliveries last touched no later than an instant, those in uncommitted batches included.
  ghost function NoNewer(s: State, at: int): set<nat> {
    set id | id in s.rows && (UnknownSince(s.rows[id], at) || HeldUnknownSince(s, id, at))
  }

  ghost predicate Unknown(s: State, id: nat) {
    id in s.rows && s.rows[id].status == UnknownDelivery
  }

  ghost predicate Stale(s: State, id: nat) {
    Unknown(s, id) && s.rows[id].updatedAt < s.now - RECONCILE_MAX_AGE
  }

  function ReconciliationRuns(steps: seq<Step>): nat {
    if steps == [] then 0 else ReconciliationRuns(steps[1..]) + if steps[0].Reconcile? then 1 else 0
  }

  // At some point of the run, its two ends included, the row is no longer unknown.
  ghost predicate Leaves(c: Config, s: State, steps: seq<Step>, id: nat)
    requires Legal(c, s, steps)
    decreases |steps|
  {
    !Unknown(s, id) || (steps != [] && Leaves(c, Next(c, s, steps[0]), steps[1..], id))
  }

  // No step makes an unknown delivery that is older than the clock.
  lemma NothingGetsOlder(c: Config, s: State, step: Step, at: int)
    requires BatchesOk(c, s.rows, s.batches, s.now) && Enabled(s, step) && at < s.now
    ensures NoNewer(Next(c, s, step), at) <= NoNewer(s, at)
  {
    var t := Next(c, s, step);
    if IsRewrite(step) {
      RewriteStepRewrites(c, s, step);
      RewritingMakesNothingOlder(s, t, at);
    } else if IsTableChange(step) {
      TableChangeMakesNothingOlder(c, s, step, at);
    } else {
      match step
      case Commit(w) => CommitMakesNothingOlder(s, t, w, at);
      case Abort(_) => SubsetMakesNothingOlder(s, t, at);
      case _ => BatchMakesNothingOlder(c, s, step, at);
    }
  }

  lemma TableChangeMakesNothingOlder(c: Config, s: State, step: Step, at: int)
    requires BatchesOk(c, s.rows, s.batches, s.now) && Enabled(s, step) && at < s.now && IsTableChange(step)
    ensures NoNewer(Next(c, s, step), at) <= NoNewer(s, at)
  {
    InsertMakesNothingOlder(c, s, Next(c, s, step), at);
  }

  lemma RewritingMakesNothingOlder(s: State, t: State, at: int)
    requires Rewritten(s, t) && at < s.now
    ensures NoNewer(t, at) <= NoNewer(s, at)
  {
    forall id | id in NoNewer(t, at) ensures id in NoNewer(s, at) {
      assert RewrittenAt(s, t, id);
      assert HeldUnknownSince(t, id, at) ==> HeldUnknownSince(s, id, at);
    }
  }

  lemma InsertMakesNothingOlder(c: Config, s: State, t: State, at: int)
    requires BatchesOk(c, s.rows, s.batches, s.now) && t.batches == s.batches
    requires forall id :: id in t.rows ==> (id in s.rows && t.rows[id] == s.rows[id]) || t.rows[id].status == Pending
    ensures NoNewer(t, at) <= NoNewer(s, at)
  {
    forall id | id in NoNewer(t, at) ensures id in NoNewer(s, at) {
      if HeldUnknownSince(t, id, at) {
        var w :| w in t.batches && id in t.batches[w].view && UnknownSince(t.batches[w].view[id], at);
        assert BatchOk(c, s.rows, s.batches[w], s.now);
        assert HeldUnknownSince(s, id, at);
      }
    }
  }

  lemma CommitMakesNothingOlder(s: State, t: State, w: int, at: int)
    requires w in s.batches && t.rows == s.rows + s.batches[w].view && t.batches == s.batches - {w}
    requires s.batches[w].view.Keys <= s.rows.Keys
    ensures NoNewer(t, at) <= NoNewer(s, at)
  {
    forall id | id in NoNewer(t, at) ensures id in NoNewer(s, at) {
      if HeldUnknownSince(t, id, at) {
        var x :| x in t.batches && id in t.batches[x].view && UnknownSince(t.batches[x].view[id], at);
        assert x in s.batches && s.batches[x] == t.batches[x];
        assert HeldUnknownSince(s, id, at);
      } else if id in s.batches[w].view {
        assert HeldUnknownSince(s, id, at);
      }
    }
  }

  lemma SubsetMakesNothingOlder(s: State, t: State, at: int)
    requires t.rows.Keys <= s.rows.Keys && forall id :: id in t.rows ==> t.rows[id] == s.rows[id]
    requires t.batches.Keys <= s.batches.Keys && forall w :: w in t.batches ==> t.batches[w] == s.batches[w]
    ensures NoNewer(t, at) <= NoNewer(s, at)
  {
    forall id | id in NoNewer(t, at) ensures id in NoNewer(s, at) {
      if HeldUnknownSince(t, id, at) {
        var w :| w in t.batches && id in t.batches[w].view && UnknownSince(t.batches[w].view[id], at);
        assert w in s.batches;
        assert HeldUnknownSince(s, id, at);
      }
    }
  }

  lemma BatchMakesNothingOlder(c: Config, s: State, step: Step, at: int)
    requires Enabled(s, step) && at < s.now && BatchesOk(c, s.rows, s.batches, s.now)
    requires IsWork(step) || step.Poll?
    ensures NoNewer(Next(c, s, step), at) <= NoNewer(s, at)
  {
    var t := Next(c, s, step);
    assert t.rows == s.rows;
    forall id | id in NoNewer(t, at) ensures id in NoNewer(s, at) {
      if HeldUnknownSince(t, id, at) {
        var w :| w in t.batches && id in t.batches[w].view && UnknownSince(t.batches[w].view[id], at);
        ViewGetsNoOlder(c, s, step, w, id, at);
        assert HeldUnknownSince(s, id, at);
      }
    }
  }

  lemma ViewGetsNoOlder(c: Config, s: State, step: Step, w: int, id: nat, at: int)
    requires Enabled(s, step) && at < s.now
    requires IsWork(step) || step.Poll?
    requires var t := Next(c, s, step);
             w in t.batches && id in t.batches[w].view && UnknownSince(t.batches[w].view[id], at)
    ensures w in s.batches && id in s.batches[w].view && UnknownSince(s.batches[w].view[id], at)
  {
    match step
    case Poll(_, ids, _, _) => assert id in ids ==> id in Due(s);
    case _ =>
  }

  // While a stale row stays unknown it is not touched, and every reconciliation run that passes it over clears a
  // hundred rows no newer than it.
  lemma StaleStep(c: Config, s: State, step: Step, id: nat)
    requires Inv(c, s) && Enabled(s, step) && Stale(s, id) && Unknown(Next(c, s, step), id)
    ensures var at, t := s.rows[id].updatedAt, Next(c, s, step);
            && Stale(t, id) && t.rows[id] == s.rows[id]
            && |NoNewer(t, at)| + (if step.Reconcile? then RECONCILE_LIMIT else 0) <= |NoNewer(s, at)|
  {
    var at, t := s.rows[id].updatedAt, Next(c, s, step);
    NotLocked(c, s, id);
    NothingGetsOlder(c, s, step, at);
    StaleRowIsUntouched(c, s, step, id);
    if step.Reconcile? {
      StaleBatch(c, s, step, id);
      SubsetSize(NoNewer(t, at), NoNewer(s, at) - Members(step.ids));
      SubsetSize(Members(step.ids), NoNewer(s, at));
    } else {
      SubsetSize(NoNewer(t, at), NoNewer(s, at));
    }
  }

  lemma StaleRowIsUntouched(c: Config, s: State, step: Step, id: nat)
    requires Enabled(s, step) && Stale(s, id) && Unlocked(s, id) && id < s.nextId && Unknown(Next(c, s, step), id)
    ensures Next(c, s, step).rows[id] == s.rows[id] && Next(c, s, step).now >= s.now
  {
    if IsRewrite(step) {
      RewriteLeavesStaleRow(c, s, step, id);
    }
  }

  // The writes that do reach an unknown delivery of that age leave it known.
  lemma RewriteLeavesStaleRow(c: Config, s: State, step: Step, id: nat)
    requires Enabled(s, step) && IsRewrite(step) && Stale(s, id) && Unknown(Next(c, s, step), id)
    ensures Next(c, s, step).rows[id] == s.rows[id]
  {
    if step.Callback? {
      StatusCalledBack(s.rows[step.id], step.providerStatus, s.now);
    }
  }

  lemma {:induction false} SubsetSize(a: set<nat>, b: set<nat>)
    requires a <= b
    ensures |a| <= |b|
  {
    if a != {} {
      var x :| x in a;
      SubsetSize(a - {x}, b - {x});
    }
  }

  function Members(ids: seq<nat>): set<nat> {
    set i | i in ids
  }

  lemma {:induction false} DistinctSize(ids: seq<nat>)
    requires forall i, j :: 0 <= i < j < |ids| ==> ids[i] != ids[j]
    ensures |Members(ids)| == |ids|
  {
    if ids != [] {
      var front, last := ids[..|ids| - 1], ids[|ids| - 1];
      DistinctSize(front);
      assert last !in front && ids == front + [last];
      assert Members(ids) == Members(front) + {last};
    }
  }

  // A selection that passes over a candidate is full, and took nothing newer.
  lemma PassedOver(ids: seq<nat>, candidates: map<nat, int>, limit: nat, id: nat)
    requires IsSelection(ids, candidates, limit) && id in candidates && id !in ids
    ensures |Members(ids)| == limit
    ensures forall i :: i in ids ==> i in candidates && candidates[i] <= candidates[id]
  {
    DistinctSize(ids);
    SubsetSize(Members(ids) + {id}, candidates.Keys);
  }

  // A run that leaves the stale row unknown was full, and everything in it was as stale and is gone.
  lemma StaleBatch(c: Config, s: State, step: Step, id: nat)
    requires BatchesOk(c, s.rows, s.batches, s.now) && step.Reconcile? && Enabled(s, step)
    requires Stale(s, id) && Unknown(Next(c, s, step), id)
    ensures var at, batch := s.rows[id].updatedAt, Members(step.ids);
            && |batch| == RECONCILE_LIMIT && batch <= NoNewer(s, at) && batch !! NoNewer(Next(c, s, step), at)
  {
    var at := s.rows[id].updatedAt;
    assert id in Unresolved(s) && id !in step.ids;
    PassedOver(step.ids, Unresolved(s), RECONCILE_LIMIT, id);
    forall i | i in step.ids ensures i in NoNewer(s, at) && i !in NoNewer(Next(c, s, step), at) {
      assert i in Unresolved(s) && Unresolved(s)[i] <= at;
      NotLockedWhileUnknown(c, s, i);
      assert !HeldUnknownSince(Next(c, s, step), i, at);
    }
  }

  lemma NotLockedWhileUnknown(c: Config, s: State, id: nat)
    requires BatchesOk(c, s.rows, s.batches, s.now) && Unknown(s, id)
    ensures Unlocked(s, id)
  {
    forall w | w in s.batches ensures id !in s.batches[w].view {
      assert BatchOk(c, s.rows, s.batches[w], s.now);
    }
  }

  lemma {:induction false} StaleRun(c: Config, s: State, steps: seq<Step>, id: nat)
    requires Inv(c, s) && Legal(c, s, steps) && Stale(s, id)
    requires |NoNewer(s, s.rows[id].updatedAt)| <= RECONCILE_LIMIT * ReconciliationRuns(steps)
    ensures Leaves(c, s, steps, id)
    decreases |steps|
  {
    assert id in NoNewer(s, s.rows[id].updatedAt);
    if steps != [] {
      var t := Next(c, s, steps[0]);
      StepKeepsInv(c, s, steps[0]);
      if Unknown(t, id) {
        StaleStep(c, s, steps[0], id);
        StaleRun(c, t, steps[1..], id);
      }
    }
  }

  // A stale unknown delivery has left that status within ceil(r / 100) reconciliation runs, where r counts the unknown
  // deliveries no newer than it, whatever else happens in between.
  lemma StaleLeaves(c: Config, s: State, steps: seq<Step>, id: nat)
    requires Reached(c, s) && Legal(c, s, steps) && Stale(s, id)
    requires |NoNewer(s, s.rows[id].updatedAt)| <= RECONCILE_LIMIT * ReconciliationRuns(steps)
    ensures Leaves(c, s, steps, id)
  {
    ReachedInv(c, s);
    StaleRun(c, s, steps, id);
  }
}
