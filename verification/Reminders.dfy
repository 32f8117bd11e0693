// Which reminders are due on a day, and which of them are held back.
module Reminders {
  import opened Models
  import opened Calendar
  import opened MessageKeys

  datatype Invoice = Invoice(id: int, student: int, guardian: int, dueDate: Date, status: InvoiceStatus)

  datatype Candidate = Candidate(
    school: int, invoice: int, student: int, guardian: int, kind: ReminderType, dueDate: Date, key: string)

  const DEFAULT_SCHEDULE: map<ReminderType, int> := map[Due14 := 14, Due3 := 3, DueToday := 0]

  // ---- one invoice ----

  // The day number of a reminder. An empty schedule counts as none given, and a kind without an entry goes out on the
  // due date itself.
  function ComputeReminderDay(dueDate: Date, kind: ReminderType, schedule: map<ReminderType, int>): int {
    var s := if schedule == map[] then DEFAULT_SCHEDULE else schedule;
    Ordinal(dueDate) - if kind in s then s[kind] else 0
  }

  predicate IsReminderDueToday(inv: Invoice, kind: ReminderType, today: Date, schedule: map<ReminderType, int>) {
    ComputeReminderDay(inv.dueDate, kind, schedule) == Ordinal(today)
  }

  predicate IsClosed(inv: Invoice) {
    inv.status == Paid || inv.status == Cancelled
  }

  predicate IsLateNoticeEligible(inv: Invoice, today: Date) {
    !IsClosed(inv) && Before(inv.dueDate, today)
  }

  function ShouldSuppress(inv: Invoice, smsOptIn: bool): Option<string> {
    if inv.status == Paid then Some("invoice_paid")
    else if inv.status == Cancelled then Some("invoice_cancelled")
    else if !smsOptIn then Some("guardian_opted_out")
    else None
  }

  const SCHEDULED_KINDS: seq<ReminderType> := [Due14, Due3, DueToday]

  predicate IsDue(inv: Invoice, kind: ReminderType, today: Date, schedule: map<ReminderType, int>) {
    !IsClosed(inv)
    && if kind == LateNotice then IsLateNoticeEligible(inv, today)
       else kind in SCHEDULED_KINDS && IsReminderDueToday(inv, kind, today, schedule)
  }

  // Of an invoice that is neither paid nor cancelled, under the default schedule: 14 and 3 days before the due date, on
  // it, and on every later day.
  lemma DefaultSchedule(inv: Invoice, kind: ReminderType, today: Date)
    ensures IsDue(inv, kind, today, map[]) <==>
              && inv.status != Paid && inv.status != Cancelled
              && match kind
                 case Due14 => Ordinal(today) == Ordinal(inv.dueDate) - 14
                 case Due3 => Ordinal(today) == Ordinal(inv.dueDate) - 3
                 case DueToday => today == inv.dueDate
                 case LateNotice => Ordinal(today) > Ordinal(inv.dueDate)
                 case _ => false
  {
    OrdinalOrders(inv.dueDate, today);
  }

  // Under a schedule of the school's own: as many days before as it says, or on the due date if it does not say; the
  // late notice is not scheduled.
  lemma OwnSchedule(inv: Invoice, kind: ReminderType, today: Date, schedule: map<ReminderType, int>)
    requires schedule != map[]
    ensures IsDue(inv, kind, today, schedule) <==>
              && inv.status != Paid && inv.status != Cancelled
              && match kind
                 case LateNotice => Ordinal(today) > Ordinal(inv.dueDate)
                 case PaymentConfirmed => false
                 case CallbackAck => false
                 case HardshipAck => false
                 case _ =>
                   if kind in schedule then Ordinal(today) == Ordinal(inv.dueDate) - schedule[kind]
                   else today == inv.dueDate
  {
    OrdinalOrders(inv.dueDate, today);
  }

  // What is held back: reminders of invoices that are paid or cancelled, and of guardians who take no messages.
  lemma SuppressesIff(inv: Invoice, smsOptIn: bool)
    ensures var reason := ShouldSuppress(inv, smsOptIn);
            && (reason.None? <==> inv.status != Paid && inv.status != Cancelled && smsOptIn)
            && (reason == Some("invoice_paid") <==> inv.status == Paid)
            && (reason == Some("invoice_cancelled") <==> inv.status == Cancelled)
  {}

  // ---- all of them ----

  function FieldsOf(school: int, inv: Invoice, kind: ReminderType, version: string): ReminderFields {
    ReminderFields(school, inv.student, inv.guardian, inv.id, kind, inv.dueDate, version)
  }

  function CandidateFor(school: int, inv: Invoice, kind: ReminderType, version: string): Candidate {
    Candidate(school, inv.id, inv.student, inv.guardian, kind, inv.dueDate,
              ComputeMessageKey(FieldsOf(school, inv, kind, version)))
  }

  // A reminder that is due.
  datatype Due = Due(inv: Invoice, kind: ReminderType)

  function DueAmong(inv: Invoice, kinds: seq<ReminderType>, today: Date, schedule: map<ReminderType, int>): seq<Due> {
    if kinds == [] then [] else
    var last := |kinds| - 1;
    DueAmong(inv, kinds[..last], today, schedule)
    + if IsReminderDueToday(inv, kinds[last], today, schedule) then [Due(inv, kinds[last])] else []
  }

  function DueFor(inv: Invoice, today: Date, schedule: map<ReminderType, int>): seq<Due> {
    if IsClosed(inv) then [] else
    DueAmong(inv, SCHEDULED_KINDS, today, schedule)
    + if IsLateNoticeEligible(inv, today) then [Due(inv, LateNotice)] else []
  }

  function DueReminders(invoices: seq<Invoice>, n: nat, today: Date, schedule: map<ReminderType, int>): seq<Due>
    requires n <= |invoices|
  {
    if n == 0 then []
    else DueReminders(invoices, n - 1, today, schedule) + DueFor(invoices[n - 1], today, schedule)
  }

  lemma {:induction false} DueAmongIff(
      inv: Invoice, kinds: seq<ReminderType>, today: Date, schedule: map<ReminderType, int>, r: Due)
    ensures r in DueAmong(inv, kinds, today, schedule) <==>
              r.inv == inv && r.kind in kinds && IsReminderDueToday(inv, r.kind, today, schedule)
  {
    if kinds != [] {
      var last := |kinds| - 1;
      DueAmongIff(inv, kinds[..last], today, schedule, r);
      assert kinds == kinds[..last] + [kinds[last]];
    }
  }

  lemma DueForIff(inv: Invoice, today: Date, schedule: map<ReminderType, int>, r: Due)
    ensures r in DueFor(inv, today, schedule) <==> r.inv == inv && IsDue(inv, r.kind, today, schedule)
  {
    DueAmongIff(inv, SCHEDULED_KINDS, today, schedule, r);
  }

  // In this order: two weeks' notice, three days' notice, the due date's, and the late notice.
  lemma DueForInOrder(inv: Invoice, today: Date, schedule: map<ReminderType, int>)
    ensures DueFor(inv, today, schedule) ==
              IfDue(inv, Due14, today, schedule) + IfDue(inv, Due3, today, schedule)
              + IfDue(inv, DueToday, today, schedule) + IfDue(inv, LateNotice, today, schedule)
  {
    if !IsClosed(inv) {
      assert SCHEDULED_KINDS[..2][..1] == [Due14] && SCHEDULED_KINDS[..2][1] == Due3 && [Due14][..0] == [];
      assert DueAmong(inv, [], today, schedule) == [];
      assert DueAmong(inv, [Due14], today, schedule) == IfDue(inv, Due14, today, schedule);
      assert DueAmong(inv, SCHEDULED_KINDS[..2], today, schedule)
          == IfDue(inv, Due14, today, schedule) + IfDue(inv, Due3, today, schedule);
    }
  }

  function IfDue(inv: Invoice, kind: ReminderType, today: Date, schedule: map<ReminderType, int>): seq<Due> {
    if IsDue(inv, kind, today, schedule) then [Due(inv, kind)] else []
  }

  // What is found due on a day is exactly what is due of the listed invoices.
  lemma {:induction false} IsReminderIff(
      invoices: seq<Invoice>, n: nat, today: Date, schedule: map<ReminderType, int>, r: Due)
    requires n <= |invoices|
    ensures r in DueReminders(invoices, n, today, schedule) <==>
              r.inv in invoices[..n] && IsDue(r.inv, r.kind, today, schedule)
  {
    if n > 0 {
      var inv := invoices[n - 1];
      IsReminderIff(invoices, n - 1, today, schedule, r);
      DueForIff(inv, today, schedule, r);
      InEither(DueReminders(invoices, n - 1, today, schedule), DueFor(inv, today, schedule), r);
      OneMoreInvoice(invoices, n, r.inv);
    }
  }

  lemma InEither(a: seq<Due>, b: seq<Due>, r: Due)
    ensures r in a + b <==> r in a || r in b
  {}

  lemma OneMoreInvoice(invoices: seq<Invoice>, n: nat, inv: Invoice)
    requires 0 < n <= |invoices|
    ensures inv in invoices[..n] <==> inv in invoices[..n - 1] || inv == invoices[n - 1]
  {
    assert invoices[..n] == invoices[..n - 1] + [invoices[n - 1]];
  }

  // The candidates of these reminders, in order.
  ghost predicate AreCandidates(candidates: seq<Candidate>, reminders: seq<Due>, school: int, version: string) {
    |candidates| == |reminders|
    && forall i :: 0 <= i < |reminders| ==> IsCandidate(candidates[i], reminders[i], school, version)
  }

  ghost predicate IsCandidate(c: Candidate, r: Due, school: int, version: string) {
    c == CandidateFor(school, r.inv, r.kind, version)
  }

  method BuildCandidates(school: int, invoices: seq<Invoice>, today: Date, schedule: map<ReminderType, int>,
                         version: string)
      returns (candidates: seq<Candidate>)
    ensures AreCandidates(candidates, DueReminders(invoices, |invoices|, today, schedule), school, version)
  {
    candidates := [];
    for i := 0 to |invoices|
      invariant AreCandidates(candidates, DueReminders(invoices, i, today, schedule), school, version)
    {
      if IsClosed(invoices[i]) {
        continue;
      }
      var dueTypes := DueTypes(invoices[i], today, schedule);
      ghost var before := DueReminders(invoices, i, today, schedule);
      for k := 0 to |dueTypes|
        invariant AreCandidates(candidates, before + RemindersOf(invoices[i], dueTypes[..k]), school, version)
      {
        candidates := AddCandidate(candidates, before + RemindersOf(invoices[i], dueTypes[..k]),
                                   school, invoices[i], dueTypes[k], version);
        assert dueTypes[..k + 1] == dueTypes[..k] + [dueTypes[k]];
        OneMoreReminder(invoices[i], dueTypes[..k], dueTypes[k]);
        assert before + RemindersOf(invoices[i], dueTypes[..k]) + [Due(invoices[i], dueTypes[k])]
            == before + RemindersOf(invoices[i], dueTypes[..k + 1]);
      }
      assert dueTypes[..|dueTypes|] == dueTypes;
    }
  }

  function RemindersOf(inv: Invoice, kinds: seq<ReminderType>): seq<Due> {
    seq(|kinds|, i requires 0 <= i < |kinds| => Due(inv, kinds[i]))
  }

  lemma OneMoreReminder(inv: Invoice, kinds: seq<ReminderType>, kind: ReminderType)
    ensures RemindersOf(inv, kinds + [kind]) == RemindersOf(inv, kinds) + [Due(inv, kind)]
  {}

  method AddCandidate(candidates: seq<Candidate>, ghost reminders: seq<Due>, school: int, inv: Invoice,
                      kind: ReminderType, version: string)
      returns (more: seq<Candidate>)
    requires AreCandidates(candidates, reminders, school, version)
    ensures AreCandidates(more, reminders + [Due(inv, kind)], school, version)
  {
    var key := ComputeMessageKey(FieldsOf(school, inv, kind, version));
    more := candidates + [Candidate(school, inv.id, inv.student, inv.guardian, kind, inv.dueDate, key)];
  }

  // The reminder kinds of an open invoice that are due today.
  method DueTypes(inv: Invoice, today: Date, schedule: map<ReminderType, int>) returns (dueTypes: seq<ReminderType>)
    requires !IsClosed(inv)
    ensures RemindersOf(inv, dueTypes) == DueFor(inv, today, schedule)
  {
    dueTypes := [];
    for k := 0 to |SCHEDULED_KINDS|
      invariant RemindersOf(inv, dueTypes) == DueAmong(inv, SCHEDULED_KINDS[..k], today, schedule)
    {
      assert SCHEDULED_KINDS[..k + 1][..k] == SCHEDULED_KINDS[..k];
      if IsReminderDueToday(inv, SCHEDULED_KINDS[k], today, schedule) {
        OneMoreReminder(inv, dueTypes, SCHEDULED_KINDS[k]);
        dueTypes := dueTypes + [SCHEDULED_KINDS[k]];
      }
    }
    assert SCHEDULED_KINDS[..|SCHEDULED_KINDS|] == SCHEDULED_KINDS;
    if IsLateNoticeEligible(inv, today) {
      OneMoreReminder(inv, dueTypes, LateNotice);
      dueTypes := dueTypes + [LateNotice];
    }
  }
}
