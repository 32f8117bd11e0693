// From the calendar to the provider: a reminder that a scheduler run offers is on offer to the senders at once, and one
// of them may text it before anything else happens.
module ReminderDelivery {
  import opened Dispatch
  import opened MessageKeys
  import opened Models
  import opened Outbox
  import opened Protocol
  import opened ProtocolRuns
  import opened ProtocolSafety
  import opened ProtocolTheorems
  import opened Scheduler
  import opened SchedulerRefinement
  import opened SendRefinement
  import opened TableListing

  // A state that has grown by rows of its own, and otherwise knows what the other knows.
  ghost predicate Extends(s: State, t: State) {
    && t.now == s.now && t.batches == s.batches && t.submits == s.submits && s.nextId <= t.nextId
    && (forall id :: id in s.rows ==> id in t.rows && t.rows[id] == s.rows[id])
    && (forall id :: id in t.rows && id !in s.rows ==> s.nextId <= id < t.nextId)
  }

  lemma InsertExtends(s: State, u: State, v: Row)
    requires Extends(s, u) && forall id :: id in s.rows ==> id < s.nextId
    ensures Extends(s, AfterInsert(u, v))
  {}

  lemma {:induction false} InsertsExtend(s: State, values: seq<Row>, n: nat)
    requires n <= |values| && forall id :: id in s.rows ==> id < s.nextId
    ensures Extends(s, AfterInserts(s, values, n))
  {
    if n > 0 {
      InsertsExtend(s, values, n - 1);
      InsertExtends(s, AfterInserts(s, values, n - 1), values[n - 1]);
    }
  }

  // The row that a run adds for a reminder it offers, if the table has none for it.
  lemma OfferedRow(rows: seq<Row>, day: Day, f: ReminderFields) returns (i: nat)
    requires day.schoolOnFile && UniqueIds(day.invoices) && Offers(day, f) && !HasKey(rows, ComputeMessageKey(f))
    ensures i < |AfterDay(rows, day)|
    ensures var r := AfterDay(rows, day)[i];
            && r.key == ComputeMessageKey(f) && r.status == Pending && r.retryCount == 0 && r.maxRetries == 3
            && r.scheduledAt == Some(day.now)
  {
    var key, values := ComputeMessageKey(f), DayValues(day);
    DayOffersIff(day, f);
    assert values[..|values|] == values;
    InsertedHasKeyIff(rows, values, |values|, key);
    InsertedIs(rows, values, |values|);
    assert forall k :: 0 <= k < |rows| ==> AfterDay(rows, day)[k] == rows[k];
    i :| 0 <= i < |AfterDay(rows, day)| && AfterDay(rows, day)[i].key == key;
    DayRowsAre(day, AfterDay(rows, day)[i]);
  }

  // Nobody holds a row that has only just been added.
  lemma NewcomerIsFree(c: Config, s: State, t: State, id: nat)
    requires Inv(c, s) && Extends(s, t) && id in t.rows && id !in s.rows
    ensures Unlocked(t, id) && id !in s.born
  {
    forall w | w in t.batches ensures id !in t.batches[w].view {
      assert BatchOk(c, s.rows, s.batches[w], s.now);
    }
  }

  // The reminder's row after the run: it is there, it is on offer, and it has never been handed over.
  lemma OfferedIsDue(c: Config, s: State, listing: seq<nat>, rows: seq<Row>, day: Day, f: ReminderFields)
      returns (u: State, id: nat)
    requires Reached(c, s) && Lists(s.rows, listing, rows) && day.now == s.now
    requires day.schoolOnFile && UniqueIds(day.invoices) && Offers(day, f) && !KeyInUse(s, ComputeMessageKey(f))
    ensures u == AfterDayRun(s, day) && Leads(c, s, u) && u.now == s.now && u.batches == s.batches
    ensures id in Due(u) && id in u.rows && u.rows[id].key == ComputeMessageKey(f) && u.submits[id] == 0
  {
    ReachedInv(c, s);
    u := AfterDayRun(s, day);
    var listing' := DayIsRun(c, s, listing, rows, day);
    KeyInUseIff(s, listing, rows, ComputeMessageKey(f));
    var i := OfferedRow(rows, day, f);
    id := listing'[i];
    assert ListsAt(u.rows, listing'[i], AfterDay(rows, day)[i]);
    InsertsExtend(s, DayValues(day), |DayValues(day)|);
    assert forall x :: x in s.rows ==> u.rows[x] == s.rows[x];
    NewcomerIsFree(c, s, u, id);
    DueIff(u, id);
    SubmitsAreBounded(c, s, id);
  }

  // Whenever a scheduler run offers a reminder that is not in the table, a run of the protocol from there on hands it
  // to the provider exactly once and has it sent.
  lemma OfferedReminderMayBeSent(c: Config, s: State, listing: seq<nat>, rows: seq<Row>, day: Day, f: ReminderFields,
                                 w: int)
      returns (t: State, id: nat)
    requires Reached(c, s) && Lists(s.rows, listing, rows) && day.now == s.now && w !in s.batches
    requires day.schoolOnFile && UniqueIds(day.invoices) && Offers(day, f) && !KeyInUse(s, ComputeMessageKey(f))
    ensures Leads(c, AfterDayRun(s, day), t) && Leads(c, s, t)
    ensures id in t.rows && t.rows[id].key == ComputeMessageKey(f) && t.rows[id].status == Sent && t.submits[id] == 1
  {
    var u;
    u, id := OfferedIsDue(c, s, listing, rows, day, f);
    t := DueRowMayBeSent(c, u, id, w);
    LeadsFurther(c, s, u, t);
  }
}
