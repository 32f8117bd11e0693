// The payment poll: payments read from the school's information system are recorded as they come, and a payment that
// settles its invoice suppresses the reminders still waiting for it.
module PaymentPoll {
  import opened Models
  import opened Outbox
  import opened InvoiceLedger

  datatype PaymentRecord = PaymentRecord(sisInvoiceId: string, payment: Payment)

  // An invoice as the poll finds it: by the school system's id, with the id that outbox rows refer to.
  datatype KnownInvoice = KnownInvoice(id: int, invoice: Invoice)

  datatype Database = Database(books: map<string, Books>, rows: seq<Row>)

  datatype PollReport = PollReport(synced: nat, invoicesUpdated: nat, errors: nat)

  // ---- what the poll does ----

  function SuppressedIf(r: Row, invoice: int, now: int): Row {
    if r.status == Pending && r.invoice == Some(invoice) then SuppressedAsPaid(r, now) else r
  }

  function SuppressIn(rows: seq<Row>, invoice: int, now: int): (after: seq<Row>)
    ensures |after| == |rows|
  {
    seq(|rows|, i requires 0 <= i < |rows| => SuppressedIf(rows[i], invoice, now))
  }

  predicate Accepted(ids: map<string, int>, record: PaymentRecord) {
    record.sisInvoiceId in ids && record.payment.amount > 0
  }

  function AfterRecord(db: Database, ids: map<string, int>, record: PaymentRecord, now: int): (db': Database)
    requires db.books.Keys == ids.Keys
    ensures db'.books.Keys == ids.Keys && |db'.rows| == |db.rows|
  {
    if !Accepted(ids, record) then db else
    var sis := record.sisInvoiceId;
    var paid := PaymentRecorded(db.books[sis], record.payment).value;
    Database(db.books[sis := paid], if paid.account.status == Paid then SuppressIn(db.rows, ids[sis], now) else db.rows)
  }

  function AfterRecords(
      db: Database, ids: map<string, int>, records: seq<PaymentRecord>, n: nat, now: int): (db': Database)
    requires db.books.Keys == ids.Keys && n <= |records|
    ensures db'.books.Keys == ids.Keys && |db'.rows| == |db.rows|
  {
    if n == 0 then db else AfterRecord(AfterRecords(db, ids, records, n - 1, now), ids, records[n - 1], now)
  }

  function ReportedOn(db: Database, ids: map<string, int>, records: seq<PaymentRecord>, n: nat, now: int): PollReport
    requires db.books.Keys == ids.Keys && n <= |records|
  {
    if n == 0 then PollReport(0, 0, 0) else
    var t, after := ReportedOn(db, ids, records, n - 1, now), AfterRecords(db, ids, records, n, now);
    var sis := records[n - 1].sisInvoiceId;
    if sis !in ids then t
    else if records[n - 1].payment.amount <= 0 then t.(errors := t.errors + 1)
    else if after.books[sis].account.status == Paid then
      t.(synced := t.synced + 1, invoicesUpdated := t.invoicesUpdated + 1)
    else t.(synced := t.synced + 1)
  }

  function Indices(n: nat, p: nat -> bool): set<nat> {
    set k: nat | k < n && p(k)
  }

  lemma OneMoreIndex(n: nat, p: nat -> bool)
    requires n > 0
    ensures |Indices(n, p)| == |Indices(n - 1, p)| + if p(n - 1) then 1 else 0
  {
    assert Indices(n, p) == Indices(n - 1, p) + if p(n - 1) then {n - 1} else {};
  }

  predicate AcceptedAt(ids: map<string, int>, records: seq<PaymentRecord>, k: nat) {
    k < |records| && Accepted(ids, records[k])
  }

  predicate RefusedAt(ids: map<string, int>, records: seq<PaymentRecord>, k: nat) {
    k < |records| && records[k].sisInvoiceId in ids && records[k].payment.amount <= 0
  }

  predicate SettlesAt(db: Database, ids: map<string, int>, records: seq<PaymentRecord>, now: int, k: nat)
    requires db.books.Keys == ids.Keys
  {
    AcceptedAt(ids, records, k)
    && AfterRecords(db, ids, records, k + 1, now).books[records[k].sisInvoiceId].account.status == Paid
  }

  // The report counts the accepted records, those of them that left their invoice paid, and the refused ones. Records
  // of invoices that are not on file are not counted.
  lemma {:induction false} ReportCounts(
      db: Database, ids: map<string, int>, records: seq<PaymentRecord>, n: nat, now: int)
    requires db.books.Keys == ids.Keys && n <= |records|
    ensures var t := ReportedOn(db, ids, records, n, now);
            && t.synced == |Indices(n, (k: nat) => AcceptedAt(ids, records, k))|
            && t.errors == |Indices(n, (k: nat) => RefusedAt(ids, records, k))|
            && t.invoicesUpdated
               == |Indices(n, (k: nat) => db.books.Keys == ids.Keys && SettlesAt(db, ids, records, now, k))|
  {
    if n > 0 {
      ReportCounts(db, ids, records, n - 1, now);
      OneMoreIndex(n, (k: nat) => AcceptedAt(ids, records, k));
      OneMoreIndex(n, (k: nat) => RefusedAt(ids, records, k));
      OneMoreIndex(n, (k: nat) => db.books.Keys == ids.Keys && SettlesAt(db, ids, records, now, k));
    }
  }

  // ---- what the poll amounts to ----

  // The payments among the first n records that name one invoice, in order.
  function PaymentsFor(records: seq<PaymentRecord>, n: nat, sis: string): seq<Payment>
    requires n <= |records|
  {
    if n == 0 then []
    else PaymentsFor(records, n - 1, sis) + if records[n - 1].sisInvoiceId == sis then [records[n - 1].payment] else []
  }

  lemma {:induction false} RecordOneMore(b: Books, incoming: seq<Payment>, p: Payment)
    ensures Record(b, incoming + [p])
            == match PaymentRecorded(Record(b, incoming), p) case Ok(b') => b' case Err(_) => Record(b, incoming)
    decreases |incoming|
  {
    if incoming == [] {
      assert [] + [p] == [p] && [p][1..] == [];
    } else {
      assert (incoming + [p])[1..] == incoming[1..] + [p];
      RecordOneMore(match PaymentRecorded(b, incoming[0]) case Ok(b') => b' case Err(_) => b, incoming[1..], p);
    }
  }

  // Every invoice ends with exactly its own payments recorded, in the order they came; nothing asks whether a
  // reference has been seen before.
  lemma {:induction false} PollRecordsPayments(
      db: Database, ids: map<string, int>, records: seq<PaymentRecord>, n: nat, now: int, sis: string)
    requires db.books.Keys == ids.Keys && n <= |records| && sis in ids
    ensures AfterRecords(db, ids, records, n, now).books[sis] == Record(db.books[sis], PaymentsFor(records, n, sis))
  {
    if n > 0 {
      PollRecordsPayments(db, ids, records, n - 1, now, sis);
      if records[n - 1].sisInvoiceId == sis {
        RecordOneMore(db.books[sis], PaymentsFor(records, n - 1, sis), records[n - 1].payment);
      } else {
        assert PaymentsFor(records, n, sis) == PaymentsFor(records, n - 1, sis);
      }
    }
  }

  function Amounts(incoming: seq<Payment>): seq<int> {
    seq(|incoming|, i requires 0 <= i < |incoming| => incoming[i].amount)
  }

  lemma {:induction false} RecordIsRun(b: Books, incoming: seq<Payment>)
    ensures Record(b, incoming).account == Run(b.account, Payments(Amounts(incoming)))
    decreases |incoming|
  {
    if incoming != [] {
      assert Payments(Amounts(incoming))[1..] == Payments(Amounts(incoming[1..]));
      RecordIsRun(match PaymentRecorded(b, incoming[0]) case Ok(b') => b' case Err(_) => b, incoming[1..]);
    }
  }

  // What the records credit to one invoice.
  function Credit(records: seq<PaymentRecord>, sis: string): nat {
    Total(Amounts(PaymentsFor(records, |records|, sis)))
  }

  ghost predicate Repolled(db: Database, ids: map<string, int>, records: seq<PaymentRecord>, now: int, sis: string)
    requires db.books.Keys == ids.Keys && sis in ids
  {
    var once := AfterRecords(db, ids, records, |records|, now);
    AfterRecords(once, ids, records, |records|, now).books[sis].account == once.books[sis].account
  }

  lemma RepollOneIff(db: Database, ids: map<string, int>, records: seq<PaymentRecord>, now: int, sis: string)
    requires db.books.Keys == ids.Keys && sis in ids && BooksConsistent(db.books)
    ensures Repolled(db, ids, records, now, sis) <==>
              var a, credit := db.books[sis].account, Credit(records, sis);
              credit == 0 || a.amountPaid + credit >= a.amountDue
  {
    var once := AfterRecords(db, ids, records, |records|, now);
    var incoming := PaymentsFor(records, |records|, sis);
    PollKeepsConsistent(db, ids, records, |records|, now);
    PollRecordsPayments(db, ids, records, |records|, now, sis);
    PollRecordsPayments(once, ids, records, |records|, now, sis);
    RecordIsRun(db.books[sis], incoming);
    RecordIsRun(once.books[sis], incoming);
    PaymentsAlone(db.books[sis].account, Amounts(incoming));
    PaymentsAlone(once.books[sis].account, Amounts(incoming));
  }

  // Polling the same records a second time leaves every account alone exactly when each invoice they credit was settled
  // by the first time; on any other it credits them again.
  lemma RepollIsHarmlessIff(db: Database, ids: map<string, int>, records: seq<PaymentRecord>, now: int)
    requires db.books.Keys == ids.Keys && BooksConsistent(db.books)
    ensures (forall sis :: sis in ids ==> Repolled(db, ids, records, now, sis)) <==>
            (forall sis :: sis in ids && Credit(records, sis) > 0 ==>
               db.books[sis].account.amountPaid + Credit(records, sis) >= db.books[sis].account.amountDue)
  {
    forall sis | sis in ids
      ensures Repolled(db, ids, records, now, sis) <==>
                (Credit(records, sis) > 0 ==>
                   db.books[sis].account.amountPaid + Credit(records, sis) >= db.books[sis].account.amountDue)
    {
      RepollOneIff(db, ids, records, now, sis);
    }
  }

  ghost predicate BooksConsistent(books: map<string, Books>) {
    forall sis :: sis in books ==> Consistent(books[sis].account)
  }

  // Some payment among the first n records was accepted for this invoice, and left it paid.
  ghost predicate SettledBy(
      db: Database, ids: map<string, int>, records: seq<PaymentRecord>, n: nat, now: int, sis: string)
    requires db.books.Keys == ids.Keys && n <= |records|
  {
    && sis in ids && AfterRecords(db, ids, records, n, now).books[sis].account.status == Paid
    && PaidIn(ids, records, n, sis)
  }

  ghost predicate PaidIn(ids: map<string, int>, records: seq<PaymentRecord>, n: nat, sis: string)
    requires n <= |records|
  {
    exists k :: 0 <= k < n && records[k].sisInvoiceId == sis && Accepted(ids, records[k])
  }

  ghost predicate Settled(
      db: Database, ids: map<string, int>, records: seq<PaymentRecord>, n: nat, now: int, invoice: Option<int>)
    requires db.books.Keys == ids.Keys && n <= |records|
  {
    exists sis :: SettledBy(db, ids, records, n, now, sis) && invoice == Some(ids[sis])
  }

  lemma PaidInOneMore(ids: map<string, int>, records: seq<PaymentRecord>, n: nat, sis: string)
    requires 0 < n <= |records|
    ensures PaidIn(ids, records, n, sis) <==>
              PaidIn(ids, records, n - 1, sis) || (records[n - 1].sisInvoiceId == sis && Accepted(ids, records[n - 1]))
  {}

  lemma {:induction false} PollKeepsConsistent(
      db: Database, ids: map<string, int>, records: seq<PaymentRecord>, n: nat, now: int)
    requires db.books.Keys == ids.Keys && n <= |records| && BooksConsistent(db.books)
    ensures BooksConsistent(AfterRecords(db, ids, records, n, now).books)
  {
    if n > 0 {
      PollKeepsConsistent(db, ids, records, n - 1, now);
    }
  }

  // One more record settles the invoice it is accepted for, if that is paid then, and unsettles none.
  lemma SettledByOneMore(
      db: Database, ids: map<string, int>, records: seq<PaymentRecord>, n: nat, now: int, sis: string)
    requires db.books.Keys == ids.Keys && 0 < n <= |records| && BooksConsistent(db.books)
    ensures SettledBy(db, ids, records, n, now, sis) <==>
              || SettledBy(db, ids, records, n - 1, now, sis)
              || (records[n - 1].sisInvoiceId == sis && Accepted(ids, records[n - 1])
                  && AfterRecords(db, ids, records, n, now).books[sis].account.status == Paid)
  {
    PaidInOneMore(ids, records, n, sis);
    PollKeepsConsistent(db, ids, records, n - 1, now);
  }

  // A waiting row is suppressed exactly when the poll accepted a payment for its invoice and left that paid; every
  // other row stays as it was.
  lemma {:induction false} PollSuppresses(
      db: Database, ids: map<string, int>, records: seq<PaymentRecord>, n: nat, now: int, i: nat)
    requires db.books.Keys == ids.Keys && n <= |records| && BooksConsistent(db.books) && i < |db.rows|
    ensures AfterRecords(db, ids, records, n, now).rows[i] ==
              if db.rows[i].status == Pending && Settled(db, ids, records, n, now, db.rows[i].invoice)
              then SuppressedAsPaid(db.rows[i], now) else db.rows[i]
  {
    var r := db.rows[i];
    if n == 0 {
      assert !Settled(db, ids, records, 0, now, r.invoice);
    } else {
      PollSuppresses(db, ids, records, n - 1, now, i);
      SettledOneMore(db, ids, records, n, now, r.invoice);
    }
  }

  lemma SettledOneMore(
      db: Database, ids: map<string, int>, records: seq<PaymentRecord>, n: nat, now: int, invoice: Option<int>)
    requires db.books.Keys == ids.Keys && 0 < n <= |records| && BooksConsistent(db.books)
    ensures Settled(db, ids, records, n, now, invoice) <==>
              || Settled(db, ids, records, n - 1, now, invoice)
              || (Accepted(ids, records[n - 1]) && invoice == Some(ids[records[n - 1].sisInvoiceId])
                  && AfterRecords(db, ids, records, n, now).books[records[n - 1].sisInvoiceId].account.status == Paid)
  {
    if Settled(db, ids, records, n, now, invoice) {
      var sis :| SettledBy(db, ids, records, n, now, sis) && invoice == Some(ids[sis]);
      SettledByOneMore(db, ids, records, n, now, sis);
    }
    if Settled(db, ids, records, n - 1, now, invoice) {
      var sis :| SettledBy(db, ids, records, n - 1, now, sis) && invoice == Some(ids[sis]);
      SettledByOneMore(db, ids, records, n, now, sis);
    }
    SettledByOneMore(db, ids, records, n, now, records[n - 1].sisInvoiceId);
  }

  // ---- the poll itself ----

  function Ids(known: map<string, KnownInvoice>): map<string, int> {
    map sis | sis in known :: known[sis].id
  }

  function Invoices(known: map<string, KnownInvoice>): set<Invoice> {
    set sis | sis in known :: known[sis].invoice
  }

  ghost predicate HasBooks(invoice: Invoice, b: Books)
    reads invoice
  {
    invoice.Ledger() == b
  }

  ghost predicate HaveBooks(known: map<string, KnownInvoice>, books: map<string, Books>)
    reads Invoices(known)
  {
    books.Keys == known.Keys && forall sis :: sis in known ==> HasBooks(known[sis].invoice, books[sis])
  }

  function InvoiceMap(known: map<string, KnownInvoice>): map<string, Invoice> {
    map sis | sis in known :: known[sis].invoice
  }

  // No two entries are about one invoice.
  ghost predicate Apart(known: map<string, KnownInvoice>) {
    Injective(InvoiceMap(known))
  }

  method SuppressPending(outbox: seq<OutboundMessage>, ghost rows: seq<Row>, invoice: int, now: int)
    requires Distinct(outbox) && HaveRows(outbox, rows)
    modifies outbox
    ensures HaveRows(outbox, SuppressIn(rows, invoice, now))
  {
    for i := 0 to |outbox|
      invariant forall j :: 0 <= j < i ==> HasRow(outbox[j], SuppressedIf(rows[j], invoice, now))
      invariant forall j :: i <= j < |outbox| ==> HasRow(outbox[j], rows[j])
    {
      var message := outbox[i];
      assert HasRow(message, rows[i]);
      if message.status == Pending && message.invoice == Some(invoice) {
        message.status, message.updatedAt := Suppressed, now;
      }
    }
  }

  // Records a payment for one invoice, and leaves the others alone.
  method RecordFor(known: map<string, KnownInvoice>, ghost books: map<string, Books>, sis: string, p: Payment)
      returns (recorded: Result<Payment, LedgerError>)
    requires Apart(known) && HaveBooks(known, books) && sis in known
    modifies known[sis].invoice
    ensures recorded.Ok? <==> p.amount > 0
    ensures HaveBooks(known, if p.amount > 0 then books[sis := PaymentRecorded(books[sis], p).value] else books)
  {
    var invoice := known[sis].invoice;
    assert HasBooks(invoice, books[sis]);
    recorded := invoice.RecordPayment(p);
    forall other | other in known && other != sis ensures HasBooks(known[other].invoice, books[other]) {
      assert InvoiceMap(known)[other] != InvoiceMap(known)[sis];
    }
  }

  // One record. A payment that cannot be recorded is an error; an invoice that is not on file is passed over.
  method SyncPayment(known: map<string, KnownInvoice>, outbox: seq<OutboundMessage>, ghost db: Database,
                     record: PaymentRecord, now: int, before: PollReport)
      returns (report: PollReport)
    requires Apart(known) && Distinct(outbox) && HaveBooks(known, db.books) && HaveRows(outbox, db.rows)
    modifies Invoices(known), outbox
    ensures var after := AfterRecord(db, Ids(known), record, now);
            && HaveBooks(known, after.books) && HaveRows(outbox, after.rows)
            && report == if record.sisInvoiceId !in known then before
                         else if record.payment.amount <= 0 then before.(errors := before.errors + 1)
                         else if after.books[record.sisInvoiceId].account.status == Paid then
                           before.(synced := before.synced + 1, invoicesUpdated := before.invoicesUpdated + 1)
                         else before.(synced := before.synced + 1)
  {
    report := before;
    if record.sisInvoiceId !in known {
      return;
    }
    var entry := known[record.sisInvoiceId];
    var recorded := RecordFor(known, db.books, record.sisInvoiceId, record.payment);
    if recorded.Err? {
      report := report.(errors := report.errors + 1);
      return;
    }
    report := report.(synced := report.synced + 1);
    if entry.invoice.status == Paid {
      report := report.(invoicesUpdated := report.invoicesUpdated + 1);
      SuppressPending(outbox, db.rows, entry.id, now);
    }
  }

  ghost predicate Synced(known: map<string, KnownInvoice>, outbox: seq<OutboundMessage>, report: PollReport,
                         db: Database, records: seq<PaymentRecord>, n: nat, now: int)
    requires n <= |records| && db.books.Keys == known.Keys
    reads Invoices(known), outbox
  {
    var after := AfterRecords(db, Ids(known), records, n, now);
    && HaveBooks(known, after.books) && HaveRows(outbox, after.rows)
    && report == ReportedOn(db, Ids(known), records, n, now)
  }

  method SyncNext(known: map<string, KnownInvoice>, outbox: seq<OutboundMessage>, ghost db: Database,
                  records: seq<PaymentRecord>, n: nat, now: int, before: PollReport)
      returns (report: PollReport)
    requires Apart(known) && Distinct(outbox) && n < |records| && db.books.Keys == known.Keys
    requires Synced(known, outbox, before, db, records, n, now)
    modifies Invoices(known), outbox
    ensures Synced(known, outbox, report, db, records, n + 1, now)
  {
    report := SyncPayment(known, outbox, AfterRecords(db, Ids(known), records, n, now), records[n], now, before);
  }

  // The whole poll. Without the school it does nothing; without a connector for it, it reports that and does nothing.
  method PollPaymentUpdates(schoolOnFile: bool, connectorFound: bool, known: map<string, KnownInvoice>,
                            outbox: seq<OutboundMessage>, ghost db: Database, records: seq<PaymentRecord>, now: int)
      returns (report: PollReport)
    requires Apart(known) && Distinct(outbox) && HaveBooks(known, db.books) && HaveRows(outbox, db.rows)
    modifies Invoices(known), outbox
    ensures schoolOnFile && connectorFound ==> Synced(known, outbox, report, db, records, |records|, now)
    ensures !(schoolOnFile && connectorFound) ==>
              && HaveBooks(known, db.books) && HaveRows(outbox, db.rows)
              && report == PollReport(0, 0, if schoolOnFile then 1 else 0)
  {
    report := PollReport(0, 0, 0);
    if !schoolOnFile {
      return;
    }
    if !connectorFound {
      report := report.(errors := report.errors + 1);
      return;
    }
    for n := 0 to |records|
      invariant Synced(known, outbox, report, db, records, n, now)
    {
      report := SyncNext(known, outbox, db, records, n, now, report);
    }
  }
}
