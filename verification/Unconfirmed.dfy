// Unknown deliveries that nobody can ask about. An ambiguous answer leaves no provider id behind, so the query that is
// meant to come before a retry cannot be about that text.
module Unconfirmed {
  import opened Models
  import opened Outbox
  import opened Protocol
  import opened ProtocolSafety
  import opened ProtocolTheorems

  // Neither the table nor any worker's copy has a provider id for the row.
  ghost predicate NoId(s: State, id: nat) {
    (id in s.rows ==> !CanAsk(s.rows[id]))
    && forall w :: w in s.batches && id in s.batches[w].view ==> !CanAsk(s.batches[w].view[id])
  }

  predicate RecordsId(s: State, step: Step, id: nat) {
    step.Submit? && step.recorded && step.outcome.Accepted? && step.outcome.sid != ""
    && Flying(s, step.worker) && s.batches[step.worker].flight.value.id == id
  }

  ghost predicate RecordsIdIn(c: Config, s: State, steps: seq<Step>, id: nat)
    requires Legal(c, s, steps)
    decreases |steps|
  {
    steps != [] && (RecordsId(s, steps[0], id) || RecordsIdIn(c, Next(c, s, steps[0]), steps[1..], id))
  }

  lemma NoIdStep(c: Config, s: State, step: Step, id: nat)
    requires Enabled(s, step) && NoId(s, id) && !RecordsId(s, step, id)
    ensures NoId(Next(c, s, step), id)
  {
    if IsRewrite(step) {
      RewriteGivesNoId(c, s, step, id);
    } else if IsTableChange(step) {
      TableChangeGivesNoId(c, s, step, id);
    } else if IsWork(step) {
      WorkGivesNoId(c, s, step, id);
    } else {
      BatchGivesNoId(c, s, step, id);
    }
  }

  lemma RewriteGivesNoId(c: Config, s: State, step: Step, id: nat)
    requires Enabled(s, step) && NoId(s, id) && IsRewrite(step)
    ensures NoId(Next(c, s, step), id)
  {}

  lemma TableChangeGivesNoId(c: Config, s: State, step: Step, id: nat)
    requires Enabled(s, step) && NoId(s, id) && IsTableChange(step)
    ensures NoId(Next(c, s, step), id)
  {}

  lemma WorkGivesNoId(c: Config, s: State, step: Step, id: nat)
    requires Enabled(s, step) && NoId(s, id) && !RecordsId(s, step, id) && IsWork(step)
    ensures NoId(Next(c, s, step), id)
  {}

  lemma BatchGivesNoId(c: Config, s: State, step: Step, id: nat)
    requires Enabled(s, step) && NoId(s, id) && (step.Poll? || step.Commit? || step.Abort?)
    ensures NoId(Next(c, s, step), id)
  {}

  lemma {:induction false} NoIdRun(c: Config, s: State, steps: seq<Step>, id: nat)
    requires Legal(c, s, steps) && NoId(s, id)
    ensures NoId(Run(c, s, steps), id) || RecordsIdIn(c, s, steps, id)
    decreases |steps|
  {
    if steps != [] && !RecordsId(s, steps[0], id) {
      NoIdStep(c, s, steps[0], id);
      NoIdRun(c, Next(c, s, steps[0]), steps[1..], id);
    }
  }

  // ---- how such a row leaves that state ----

  // A reconciliation run gives the row up for its age, whatever anyone answered.
  ghost predicate Expires(c: Config, s: State, step: Step, id: nat)
    requires Enabled(s, step)
  {
    && step.Reconcile? && id in step.ids && Stale(s, id)
    && id in Next(c, s, step).rows && Next(c, s, step).rows[id] == Marked(s.rows[id], Failed, s.now)
  }

  // Along the run the row stays as it is until a callback first brings a word about it, or it expires.
  ghost predicate OnlyExpiresIn(c: Config, s: State, steps: seq<Step>, id: nat)
    requires Legal(c, s, steps)
    decreases |steps|
  {
    steps == [] || IsFirstWord(s, steps[0], id) || Expires(c, s, steps[0], id)
    || (&& Unknown(s, id) && Unknown(Next(c, s, steps[0]), id) && Next(c, s, steps[0]).rows[id] == s.rows[id]
        && OnlyExpiresIn(c, Next(c, s, steps[0]), steps[1..], id))
  }

  lemma UnaskedStep(c: Config, s: State, step: Step, id: nat)
    requires Inv(c, s) && Enabled(s, step) && Unknown(s, id) && !CanAsk(s.rows[id]) && !IsFirstWord(s, step, id)
    ensures Expires(c, s, step, id) || (Unknown(Next(c, s, step), id) && Next(c, s, step).rows[id] == s.rows[id])
  {
    NotLocked(c, s, id);
    if IsCallbackFor(step, id) {
      IdleCallback(c, s, step, id);
    } else if IsRewrite(step) {
      RewriteOfUnasked(c, s, step, id);
    } else {
      OthersLeaveUnknown(c, s, step, id);
    }
  }

  lemma RewriteOfUnasked(c: Config, s: State, step: Step, id: nat)
    requires Enabled(s, step) && Unknown(s, id) && !CanAsk(s.rows[id]) && IsRewrite(step) && !IsCallbackFor(step, id)
    ensures Expires(c, s, step, id) || (Unknown(Next(c, s, step), id) && Next(c, s, step).rows[id] == s.rows[id])
  {}

  lemma OthersLeaveUnknown(c: Config, s: State, step: Step, id: nat)
    requires Enabled(s, step) && Unknown(s, id) && Unlocked(s, id) && id < s.nextId && !IsRewrite(step)
    ensures Unknown(Next(c, s, step), id) && Next(c, s, step).rows[id] == s.rows[id]
  {}

  lemma {:induction false} UnaskedRun(c: Config, s: State, steps: seq<Step>, id: nat)
    requires Inv(c, s) && Legal(c, s, steps) && Unknown(s, id) && !CanAsk(s.rows[id])
    ensures OnlyExpiresIn(c, s, steps, id)
    decreases |steps|
  {
    if steps != [] && !IsFirstWord(s, steps[0], id) && !Expires(c, s, steps[0], id) {
      UnaskedStep(c, s, steps[0], id);
      StepKeepsInv(c, s, steps[0]);
      UnaskedRun(c, Next(c, s, steps[0]), steps[1..], id);
    }
  }

  // An unknown delivery of which no attempt was ever recorded as accepted under an id is never cleared up by asking the
  // provider: in every run it stays unknown until a callback brings a word about it or its 72 hours are up.
  lemma NeverAcceptedIsNeverConfirmed(c: Config, now: int, before: seq<Step>, after: seq<Step>, id: nat)
    requires Legal(c, Initial(now), before) && !RecordsIdIn(c, Initial(now), before, id)
    requires Unknown(Run(c, Initial(now), before), id) && Legal(c, Run(c, Initial(now), before), after)
    ensures OnlyExpiresIn(c, Run(c, Initial(now), before), after, id)
  {
    NoIdRun(c, Initial(now), before, id);
    InitialInv(c, now);
    RunKeepsInv(c, Initial(now), before);
    UnaskedRun(c, Run(c, Initial(now), before), after, id);
  }

  lemma UnheldExpires(c: Config, s: State, ids: seq<nat>, answers: map<nat, string>, id: nat)
    requires Enabled(s, Reconcile(ids, answers)) && id in ids && Stale(s, id) && Unlocked(s, id)
    ensures Expires(c, s, Reconcile(ids, answers), id)
    ensures Enabled(Next(c, s, Reconcile(ids, answers)), Retry(id))
  {}

  // When it has expired it may be retried at once, although nobody knows whether it was delivered.
  lemma ExpiredMayBeRetried(c: Config, s: State, ids: seq<nat>, answers: map<nat, string>, id: nat)
    requires BatchesOk(c, s.rows, s.batches, s.now)
    requires Enabled(s, Reconcile(ids, answers)) && id in ids && Stale(s, id)
    ensures Expires(c, s, Reconcile(ids, answers), id)
    ensures Enabled(Next(c, s, Reconcile(ids, answers)), Retry(id))
  {
    NotLockedWhileUnknown(c, s, id);
    UnheldExpires(c, s, ids, answers, id);
  }
}
