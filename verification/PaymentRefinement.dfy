// What the payment poll does to the outbox is a run of the protocol's suppressions, so what it silences stays silent.
module PaymentRefinement {
  import opened Models
  import opened Outbox
  import opened PaymentPoll
  import opened Protocol
  import opened ProtocolRuns
  import opened ProtocolSafety
  import opened ProtocolTheorems
  import opened TableListing

  // The suppressions that the first n records bring about.
  function SuppressSteps(db: Database, ids: map<string, int>, records: seq<PaymentRecord>, n: nat, now: int): seq<Step>
    requires db.books.Keys == ids.Keys && n <= |records|
  {
    if n == 0 then [] else
    var sis, after := records[n - 1].sisInvoiceId, AfterRecords(db, ids, records, n, now);
    SuppressSteps(db, ids, records, n - 1, now)
    + if PaymentPoll.Accepted(ids, records[n - 1]) && after.books[sis].account.status == Paid
      then [Suppress(ids[sis])] else []
  }

  // They are the suppressions of the invoices that the poll settled, and nothing else.
  lemma {:induction false} SuppressStepsIff(
      db: Database, ids: map<string, int>, records: seq<PaymentRecord>, n: nat, now: int, step: Step)
    requires db.books.Keys == ids.Keys && n <= |records| && BooksConsistent(db.books)
    ensures step in SuppressSteps(db, ids, records, n, now) <==>
              step.Suppress? && Settled(db, ids, records, n, now, Some(step.paidInvoice))
  {
    if n == 0 {
      assert step.Suppress? ==> !Settled(db, ids, records, 0, now, Some(step.paidInvoice));
    } else {
      SuppressStepsIff(db, ids, records, n - 1, now, step);
      if step.Suppress? {
        SettledOneMore(db, ids, records, n, now, Some(step.paidInvoice));
      }
    }
  }

  // No sender holds a waiting row of an invoice that the poll may settle.
  ghost predicate NotHeld(s: State, ids: map<string, int>) {
    forall id, sis :: id in s.rows && sis in ids && WaitsFor(s.rows[id], ids[sis]) ==> Unlocked(s, id)
  }

  predicate WaitsFor(r: Row, invoice: int) {
    r.status == Pending && r.invoice == Some(invoice)
  }

  // Rows only leave Pending.
  ghost predicate Fewer(rows: seq<Row>, after: seq<Row>) {
    |after| == |rows| && forall i :: 0 <= i < |rows| ==> after[i] == rows[i] || after[i].status == Suppressed
  }

  lemma {:induction false} PollOnlySuppresses(
      db: Database, ids: map<string, int>, records: seq<PaymentRecord>, n: nat, now: int)
    requires db.books.Keys == ids.Keys && n <= |records|
    ensures Fewer(db.rows, AfterRecords(db, ids, records, n, now).rows)
  {
    if n > 0 {
      PollOnlySuppresses(db, ids, records, n - 1, now);
    }
  }

  lemma MaySuppress(s: State, t: State, listing: seq<nat>, rows: seq<Row>, after: seq<Row>,
                    ids: map<string, int>, sis: string)
    requires Lists(s.rows, listing, rows) && Lists(t.rows, listing, after) && Fewer(rows, after)
    requires t == s.(rows := t.rows) && NotHeld(s, ids) && sis in ids
    ensures Enabled(t, Suppress(ids[sis]))
  {
    forall id | id in t.rows && WaitsFor(t.rows[id], ids[sis]) ensures Unlocked(t, id) {
      var i :| 0 <= i < |listing| && listing[i] == id;
      assert ListsAt(s.rows, listing[i], rows[i]) && ListsAt(t.rows, listing[i], after[i]);
      assert Unlocked(s, id);
    }
  }

  lemma SuppressionLists(c: Config, s: State, listing: seq<nat>, rows: seq<Row>, invoice: int)
    requires Lists(s.rows, listing, rows) && Enabled(s, Suppress(invoice))
    ensures var t := Next(c, s, Suppress(invoice));
            t == s.(rows := t.rows) && Lists(t.rows, listing, SuppressIn(rows, invoice, s.now))
  {
    var t := Next(c, s, Suppress(invoice));
    forall i | 0 <= i < |listing| && listing[i] in t.rows
      ensures t.rows[listing[i]] == SuppressIn(rows, invoice, s.now)[i]
    {
      assert ListsAt(s.rows, listing[i], rows[i]);
    }
    ListsRewritten(s.rows, t.rows, listing, rows, SuppressIn(rows, invoice, s.now));
  }

  // These steps may be taken, change nothing but the table, and leave it like this.
  ghost predicate SuppressesTo(c: Config, s: State, steps: seq<Step>, listing: seq<nat>, after: seq<Row>) {
    && Legal(c, s, steps)
    && var t := Run(c, s, steps); t == s.(rows := t.rows) && Lists(t.rows, listing, after)
  }

  lemma OneSuppression(c: Config, s: State, steps: seq<Step>, listing: seq<nat>, rows: seq<Row>, after: seq<Row>,
                       ids: map<string, int>, sis: string)
    requires SuppressesTo(c, s, steps, listing, after) && Lists(s.rows, listing, rows) && Fewer(rows, after)
    requires NotHeld(s, ids) && sis in ids
    ensures SuppressesTo(c, s, steps + [Suppress(ids[sis])], listing, SuppressIn(after, ids[sis], s.now))
  {
    var t := Run(c, s, steps);
    MaySuppress(s, t, listing, rows, after, ids, sis);
    SuppressionLists(c, t, listing, after, ids[sis]);
    RunConcat(c, s, steps, Suppress(ids[sis]));
  }

  // One record: either it adds a suppression to the steps, or it leaves the rows alone.
  lemma RecordIsRun(c: Config, s: State, steps: seq<Step>, steps': seq<Step>, listing: seq<nat>, rows: seq<Row>,
                    before: seq<Row>, after: seq<Row>, ids: map<string, int>, sis: string)
    requires SuppressesTo(c, s, steps, listing, before) && Lists(s.rows, listing, rows) && Fewer(rows, before)
    requires NotHeld(s, ids)
    requires || (sis in ids && steps' == steps + [Suppress(ids[sis])] && after == SuppressIn(before, ids[sis], s.now))
             || (steps' == steps && after == before)
    ensures SuppressesTo(c, s, steps', listing, after)
  {
    if steps' != steps {
      OneSuppression(c, s, steps, listing, rows, before, ids, sis);
    }
  }

  lemma RecordSteps(db: Database, ids: map<string, int>, records: seq<PaymentRecord>, n: nat, now: int)
    requires db.books.Keys == ids.Keys && 0 < n <= |records|
    ensures var sis := records[n - 1].sisInvoiceId;
            var steps, steps' := SuppressSteps(db, ids, records, n - 1, now), SuppressSteps(db, ids, records, n, now);
            var before := AfterRecords(db, ids, records, n - 1, now).rows;
            var after := AfterRecords(db, ids, records, n, now).rows;
            || (sis in ids && steps' == steps + [Suppress(ids[sis])] && after == SuppressIn(before, ids[sis], now))
            || (steps' == steps && after == before)
  {}

  // The poll's effect on the table is the run of exactly these suppressions.
  lemma {:induction false} PollIsRun(c: Config, s: State, listing: seq<nat>, db: Database, ids: map<string, int>,
                                     records: seq<PaymentRecord>, n: nat)
    requires db.books.Keys == ids.Keys && n <= |records| && Lists(s.rows, listing, db.rows) && NotHeld(s, ids)
    ensures SuppressesTo(c, s, SuppressSteps(db, ids, records, n, s.now), listing,
                         AfterRecords(db, ids, records, n, s.now).rows)
  {
    if n > 0 {
      PollIsRun(c, s, listing, db, ids, records, n - 1);
      PollOnlySuppresses(db, ids, records, n - 1, s.now);
      RecordSteps(db, ids, records, n, s.now);
      RecordIsRun(c, s, SuppressSteps(db, ids, records, n - 1, s.now), SuppressSteps(db, ids, records, n, s.now),
                  listing, db.rows, AfterRecords(db, ids, records, n - 1, s.now).rows,
                  AfterRecords(db, ids, records, n, s.now).rows, ids, records[n - 1].sisInvoiceId);
    }
  }

  // The table as the poll leaves it.
  ghost predicate AfterPoll(s: State, t: State, listing: seq<nat>, db: Database, ids: map<string, int>,
                            records: seq<PaymentRecord>)
    requires db.books.Keys == ids.Keys
  {
    t == s.(rows := t.rows) && Lists(t.rows, listing, AfterRecords(db, ids, records, |records|, s.now).rows)
  }

  lemma AfterPollIsRun(c: Config, s: State, t: State, listing: seq<nat>, db: Database, ids: map<string, int>,
                       records: seq<PaymentRecord>)
    requires db.books.Keys == ids.Keys && Lists(s.rows, listing, db.rows) && NotHeld(s, ids)
    requires AfterPoll(s, t, listing, db, ids, records)
    ensures Leads(c, s, t)
  {
    PollIsRun(c, s, listing, db, ids, records, |records|);
    var steps := SuppressSteps(db, ids, records, |records|, s.now);
    ListsOneTable(t.rows, Run(c, s, steps).rows, listing, AfterRecords(db, ids, records, |records|, s.now).rows);
    assert Run(c, s, steps) == t;
  }

  // A poll that accepts a payment for an invoice and leaves it paid suppresses each of its waiting rows, and in no run
  // from there is one of them handed to the provider without a callback that first reports it as failed. Other rows it
  // leaves as they were.
  lemma PollSilencesInvoice(c: Config, s: State, t: State, listing: seq<nat>, db: Database, ids: map<string, int>,
                            records: seq<PaymentRecord>, i: nat, steps: seq<Step>)
    requires Reached(c, s) && db.books.Keys == ids.Keys && BooksConsistent(db.books)
    requires Lists(s.rows, listing, db.rows) && NotHeld(s, ids) && AfterPoll(s, t, listing, db, ids, records)
    requires i < |listing| && db.rows[i].status == Pending && Legal(c, t, steps)
    ensures var settled := Settled(db, ids, records, |records|, s.now, db.rows[i].invoice);
            && listing[i] in t.rows
            && (settled ==> t.rows[listing[i]].status == Suppressed
                            && (Run(c, t, steps).submits[listing[i]] == s.submits[listing[i]]
                                || FailureReportIn(c, t, steps, listing[i])))
            && (!settled ==> t.rows[listing[i]] == s.rows[listing[i]])
  {
    AfterPollIsRun(c, s, t, listing, db, ids, records);
    LeadsKeepsReached(c, s, t);
    PollSuppresses(db, ids, records, |records|, s.now, i);
    assert ListsAt(s.rows, listing[i], db.rows[i]);
    assert ListsAt(t.rows, listing[i], AfterRecords(db, ids, records, |records|, s.now).rows[i]);
    if Settled(db, ids, records, |records|, s.now, db.rows[i].invoice) {
      ShelvedStays(c, t, steps, listing[i]);
    }
  }

  // The poll as code leaves its rows as some run of the protocol leaves the table.
  method RunTask(c: Config, ghost s: State, ghost listing: seq<nat>, known: map<string, KnownInvoice>,
                 outbox: seq<OutboundMessage>, ghost db: Database, records: seq<PaymentRecord>, now: int)
      returns (report: PollReport, ghost t: State)
    requires Apart(known) && Distinct(outbox) && HaveBooks(known, db.books) && HaveRows(outbox, db.rows)
    requires now == s.now && Lists(s.rows, listing, db.rows) && NotHeld(s, Ids(known))
    modifies Invoices(known), outbox
    ensures Synced(known, outbox, report, db, records, |records|, now)
    ensures AfterPoll(s, t, listing, db, Ids(known), records) && Leads(c, s, t)
  {
    report := PollPaymentUpdates(true, true, known, outbox, db, records, now);
    PollIsRun(c, s, listing, db, Ids(known), records, |records|);
    t := Run(c, s, SuppressSteps(db, Ids(known), records, |records|, now));
    AfterPollIsRun(c, s, t, listing, db, Ids(known), records);
  }
}
