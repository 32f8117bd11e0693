// The daily scheduler run, and what many of them do to the outbox.
module Scheduler {
  import opened Models
  import opened Calendar
  import opened MessageKeys
  import opened Outbox
  import opened Reminders
  import opened Dispatch
  import Ledger = InvoiceLedger

  // What a run finds: its date and instant, whether the school is on file, the school's invoices that are not deleted,
  // and for every guardian on file whether they take text messages.
  datatype Day = Day(
    today: Date, now: int, schoolOnFile: bool, school: int, invoices: seq<Invoice>, guardians: map<int, bool>)

  const VERSION := "v1"

  // ---- one run ----

  predicate IsActive(inv: Invoice) {
    inv.status == Unpaid || inv.status == Partial
  }

  function Active(invoices: seq<Invoice>): seq<Invoice> {
    if invoices == [] then []
    else (if IsActive(invoices[0]) then [invoices[0]] else []) + Active(invoices[1..])
  }

  ghost predicate UniqueIds(invoices: seq<Invoice>) {
    forall i, j :: 0 <= i < j < |invoices| ==> invoices[i].id != invoices[j].id
  }

  // Later invoices win, as in a dictionary.
  function ById(invoices: seq<Invoice>): map<int, Invoice> {
    if invoices == [] then map[]
    else ById(invoices[..|invoices| - 1])[invoices[|invoices| - 1].id := invoices[|invoices| - 1]]
  }

  datatype Screening = Unreachable | HeldBack | Cleared

  function ScreeningOf(invoices: map<int, Invoice>, guardians: map<int, bool>, c: Candidate): Screening {
    if c.guardian !in guardians || c.invoice !in invoices then Unreachable
    else if ShouldSuppress(invoices[c.invoice], guardians[c.guardian]).Some? then HeldBack
    else Cleared
  }

  function Screened(
      invoices: map<int, Invoice>, guardians: map<int, bool>, candidates: seq<Candidate>): seq<Candidate>
  {
    if candidates == [] then [] else
    var last := candidates[|candidates| - 1];
    Screened(invoices, guardians, candidates[..|candidates| - 1])
    + if ScreeningOf(invoices, guardians, last) == Cleared then [last] else []
  }

  // How many candidates met one fate.
  function Met(
      fate: Screening, invoices: map<int, Invoice>, guardians: map<int, bool>, candidates: seq<Candidate>): nat
  {
    if candidates == [] then 0
    else Met(fate, invoices, guardians, candidates[..|candidates| - 1])
         + if ScreeningOf(invoices, guardians, candidates[|candidates| - 1]) == fate then 1 else 0
  }

  function CandidatesOf(reminders: seq<Due>, school: int): seq<Candidate> {
    seq(|reminders|, i requires 0 <= i < |reminders| =>
      CandidateFor(school, reminders[i].inv, reminders[i].kind, VERSION))
  }

  function DayCandidates(day: Day): seq<Candidate> {
    var active := Active(day.invoices);
    CandidatesOf(DueReminders(active, |active|, day.today, map[]), day.school)
  }

  function DayOffer(day: Day): seq<Candidate> {
    Screened(ById(Active(day.invoices)), day.guardians, DayCandidates(day))
  }

  function DayValues(day: Day): seq<Row> {
    Values(DayOffer(day), 3, day.now, day.now)
  }

  function AfterDay(rows: seq<Row>, day: Day): seq<Row> {
    if day.schoolOnFile then InsertedAll(rows, DayValues(day), |DayValues(day)|) else rows
  }

  // A row that a run inserts waits for its first attempt, of three, from the run's own instant on. It is keyed and kept
  // for an invoice that the day lists.
  lemma DayRowsAre(day: Day, v: Row)
    requires v in DayValues(day)
    ensures v.status == Pending && v.retryCount == 0 && v.maxRetries == 3 && v.scheduledAt == Some(day.now)
    ensures v.createdAt == v.updatedAt == day.now
    ensures exists inv, kind :: IsRowFor(day, v, inv, kind)
  {
    var j :| 0 <= j < |DayValues(day)| && DayValues(day)[j] == v;
    var c := DayOffer(day)[j];
    IsScreenedIff(ById(Active(day.invoices)), day.guardians, DayCandidates(day), c);
    var d := CandidateIsDue(day, c);
    IsActiveIff(day.invoices, d.inv);
    assert IsRowFor(day, v, d.inv, d.kind);
  }

  ghost predicate IsRowFor(day: Day, v: Row, inv: Invoice, kind: ReminderType) {
    && inv in day.invoices && v.invoice == Some(inv.id)
    && v.key == ComputeMessageKey(
         ReminderFields(day.school, inv.student, inv.guardian, inv.id, kind, inv.dueDate, "v1"))
  }

  // Every candidate is cleared, held back or out of reach.
  lemma {:induction false} ScreeningAddsUp(
      invoices: map<int, Invoice>, guardians: map<int, bool>, candidates: seq<Candidate>)
    ensures |Screened(invoices, guardians, candidates)| == Met(Cleared, invoices, guardians, candidates)
    ensures Met(Cleared, invoices, guardians, candidates) + Met(HeldBack, invoices, guardians, candidates)
            + Met(Unreachable, invoices, guardians, candidates) == |candidates|
  {
    if candidates != [] {
      ScreeningAddsUp(invoices, guardians, candidates[..|candidates| - 1]);
    }
  }

  lemma {:induction false} IsScreenedIff(
      invoices: map<int, Invoice>, guardians: map<int, bool>, candidates: seq<Candidate>, c: Candidate)
    ensures c in Screened(invoices, guardians, candidates) <==>
              c in candidates && ScreeningOf(invoices, guardians, c) == Cleared
  {
    if candidates != [] {
      var front, last := candidates[..|candidates| - 1], candidates[|candidates| - 1];
      IsScreenedIff(invoices, guardians, front, c);
      assert candidates == front + [last];
    }
  }

  lemma {:induction false} IsActiveIff(invoices: seq<Invoice>, inv: Invoice)
    ensures inv in Active(invoices) <==> inv in invoices && IsActive(inv)
  {
    if invoices != [] {
      IsActiveIff(invoices[1..], inv);
      assert invoices == [invoices[0]] + invoices[1..];
    }
  }

  lemma {:induction false} ByIdFinds(invoices: seq<Invoice>, inv: Invoice)
    requires forall other :: other in invoices && other.id == inv.id ==> other == inv
    ensures inv.id in ById(invoices) ==> ById(invoices)[inv.id] == inv
    ensures inv in invoices ==> inv.id in ById(invoices)
  {
    if invoices != [] {
      var front, last := invoices[..|invoices| - 1], invoices[|invoices| - 1];
      assert invoices == front + [last];
      assert last in invoices;
      ByIdFinds(front, inv);
    }
  }

  // ---- the run itself ----

  datatype DayResult = DayResult(processed: nat, inserted: nat, suppressed: nat, duplicatesSkipped: nat, errors: nat)

  // Clears candidates one by one, and counts those held back.
  method Screen(invoices: map<int, Invoice>, guardians: map<int, bool>, candidates: seq<Candidate>)
      returns (cleared: seq<Candidate>, suppressed: nat)
    ensures cleared == Screened(invoices, guardians, candidates)
    ensures suppressed == Met(HeldBack, invoices, guardians, candidates)
  {
    cleared, suppressed := [], 0;
    for i := 0 to |candidates|
      invariant cleared == Screened(invoices, guardians, candidates[..i])
      invariant suppressed == Met(HeldBack, invoices, guardians, candidates[..i])
    {
      var c := candidates[i];
      assert candidates[..i + 1][..i] == candidates[..i];
      if c.guardian !in guardians {
        continue;
      }
      if c.invoice !in invoices {
        continue;
      }
      if ShouldSuppress(invoices[c.invoice], guardians[c.guardian]).Some? {
        suppressed := suppressed + 1;
        continue;
      }
      cleared := cleared + [c];
    }
    assert candidates[..|candidates|] == candidates;
  }

  datatype DayFailure = RolledBack

  // Every candidate of the day is inserted, a duplicate, held back, or without a guardian on file. If anything raises
  // before the commit, or the commit does, the table is as it was; a run without the school or without open invoices
  // has nothing to commit.
  method ComputeReminderCandidates(table: OutboxTable, day: Day, commits: bool)
      returns (r: Result<DayResult, DayFailure>)
    modifies table
    ensures r.Ok? <==> commits || !day.schoolOnFile || Active(day.invoices) == []
    ensures table.rows == if r.Ok? then AfterDay(old(table.rows), day) else old(table.rows)
    ensures old(UniqueKeys(table.rows)) ==> UniqueKeys(table.rows)
    ensures !day.schoolOnFile ==> r == Ok(DayResult(0, 0, 0, 0, 1))
    ensures day.schoolOnFile && r.Ok? ==>
              var result := r.value;
              && result.errors == 0 && result.processed == |Active(day.invoices)|
              && result.inserted == |table.rows| - |old(table.rows)|
              && result.suppressed == Met(HeldBack, ById(Active(day.invoices)), day.guardians, DayCandidates(day))
              && result.inserted + result.duplicatesSkipped + result.suppressed
                 + Met(Unreachable, ById(Active(day.invoices)), day.guardians, DayCandidates(day))
                 == |DayCandidates(day)|
  {
    if !day.schoolOnFile {
      return Ok(DayResult(0, 0, 0, 0, 1));
    }
    var invoices := Active(day.invoices);
    if invoices == [] {
      return Ok(DayResult(0, 0, 0, 0, 0));
    }
    var before := table.rows;
    var candidates := BuildCandidates(day.school, invoices, day.today, map[], VERSION);
    assert candidates == DayCandidates(day);
    var cleared, suppressed := Screen(ById(invoices), day.guardians, candidates);
    ScreeningAddsUp(ById(invoices), day.guardians, candidates);
    var inserted, duplicates := table.InsertOutboxMessages(cleared, None, 3, day.now);
    if !commits {
      table.rows := before;
      return Err(RolledBack);
    }
    return Ok(DayResult(|invoices|, inserted, suppressed, duplicates, 0));
  }

  // ---- what a run offers ----

  predicate IsFor(inv: Invoice, f: ReminderFields) {
    inv.id == f.invoice && inv.student == f.student && inv.guardian == f.guardian && inv.dueDate == f.dueDate
  }

  // The invoice is listed and open, its guardian takes messages, and the reminder is due.
  ghost predicate OffersFor(day: Day, inv: Invoice, f: ReminderFields) {
    && inv in day.invoices && (inv.status == Unpaid || inv.status == Partial) && IsFor(inv, f)
    && inv.guardian in day.guardians && day.guardians[inv.guardian]
    && IsDue(inv, f.kind, day.today, map[])
  }

  ghost predicate Offers(day: Day, f: ReminderFields) {
    f.school == day.school && f.version == VERSION && exists inv :: OffersFor(day, inv, f)
  }

  lemma CandidateIsDue(day: Day, c: Candidate) returns (d: Due)
    requires c in DayCandidates(day)
    ensures c == CandidateFor(day.school, d.inv, d.kind, VERSION)
    ensures d.inv in Active(day.invoices) && IsDue(d.inv, d.kind, day.today, map[])
  {
    var active := Active(day.invoices);
    var dues := DueReminders(active, |active|, day.today, map[]);
    var i :| 0 <= i < |DayCandidates(day)| && DayCandidates(day)[i] == c;
    d := dues[i];
    assert d in dues && active[..|active|] == active;
    IsReminderIff(active, |active|, day.today, map[], d);
  }

  lemma OfferedKeyMeans(day: Day, c: Candidate, f: ReminderFields) returns (inv: Invoice)
    requires UniqueIds(day.invoices) && c in DayOffer(day) && c.key == ComputeMessageKey(f)
    ensures f.school == day.school && f.version == VERSION && OffersFor(day, inv, f)
  {
    var active := Active(day.invoices);
    IsScreenedIff(ById(active), day.guardians, DayCandidates(day), c);
    var d := CandidateIsDue(day, c);
    inv := d.inv;
    ReminderKeysEqualIff(FieldsOf(day.school, inv, d.kind, VERSION), f);
    IsActiveIff(day.invoices, inv);
    ActiveIsById(day.invoices, inv);
  }

  lemma ActiveIsById(invoices: seq<Invoice>, inv: Invoice)
    requires UniqueIds(invoices) && inv in Active(invoices)
    ensures inv.id in ById(Active(invoices)) && ById(Active(invoices))[inv.id] == inv
  {
    forall other | other in Active(invoices) && other.id == inv.id ensures other == inv {
      IsActiveIff(invoices, other);
      IsActiveIff(invoices, inv);
    }
    ByIdFinds(Active(invoices), inv);
  }

  lemma OfferedWhenDue(day: Day, inv: Invoice, f: ReminderFields) returns (c: Candidate)
    requires UniqueIds(day.invoices) && f.school == day.school && f.version == VERSION && OffersFor(day, inv, f)
    ensures c in DayOffer(day) && c.key == ComputeMessageKey(f)
  {
    var active := Active(day.invoices);
    var dues := DueReminders(active, |active|, day.today, map[]);
    var candidates := DayCandidates(day);
    IsActiveIff(day.invoices, inv);
    assert active[..|active|] == active;
    IsReminderIff(active, |active|, day.today, map[], Due(inv, f.kind));
    var i :| 0 <= i < |dues| && dues[i] == Due(inv, f.kind);
    c := candidates[i];
    assert c == CandidateFor(day.school, inv, f.kind, VERSION);
    assert FieldsOf(day.school, inv, f.kind, VERSION) == f;
    ActiveIsById(day.invoices, inv);
    IsScreenedIff(ById(active), day.guardians, candidates, c);
  }

  // A run offers a reminder's key exactly when it offers the reminder: no other reminder has that key.
  lemma DayOffersIff(day: Day, f: ReminderFields)
    requires UniqueIds(day.invoices)
    ensures HasKey(DayValues(day), ComputeMessageKey(f)) <==> Offers(day, f)
  {
    var key, offer, values := ComputeMessageKey(f), DayOffer(day), DayValues(day);
    if HasKey(values, key) {
      var i :| 0 <= i < |values| && values[i].key == key;
      assert offer[i] in offer && offer[i].key == key;
      var inv := OfferedKeyMeans(day, offer[i], f);
    }
    if Offers(day, f) {
      var inv :| OffersFor(day, inv, f);
      var c := OfferedWhenDue(day, inv, f);
      var i :| 0 <= i < |offer| && offer[i] == c;
      assert values[i].key == key;
    }
  }

  // A second run over the same data inserts nothing.
  lemma SecondRunInsertsNothing(rows: seq<Row>, day: Day, later: int)
    ensures AfterDay(AfterDay(rows, day), day.(now := later)) == AfterDay(rows, day)
  {
    var values, again := DayValues(day), DayValues(day.(now := later));
    forall i | 0 <= i < |again| ensures HasKey(values, again[i].key) {
      assert values[i].key == again[i].key;
    }
    InsertTwice(rows, values, again, |again|);
  }

  // ---- many runs ----

  // What happens to the outbox: scheduler runs; other writers, who change rows and not their keys; and new rows that
  // answer a guardian or replay a failed message. No purges.
  datatype Event = Daily(day: Day) | Rewritten(rows: seq<Row>) | Added(key: MessageKey, row: Row)

  ghost predicate SameKeys(a: seq<Row>, b: seq<Row>) {
    |a| == |b| && forall i :: 0 <= i < |a| ==> SameKeyAt(a, b, i)
  }

  ghost predicate SameKeyAt(a: seq<Row>, b: seq<Row>, i: nat) {
    i < |a| && i < |b| && a[i].key == b[i].key
  }

  ghost predicate Allowed(rows: seq<Row>, e: Event) {
    match e
    case Daily(day) => UniqueIds(day.invoices)
    case Rewritten(rows') => SameKeys(rows, rows')
    case Added(key, row) => Plain(key) && !key.Reminder? && row.key == Text(key)
  }

  function AfterEvent(rows: seq<Row>, e: Event): seq<Row> {
    match e
    case Daily(day) => AfterDay(rows, day)
    case Rewritten(rows') => rows'
    case Added(_, row) => if HasKey(rows, row.key) then rows else rows + [row]
  }

  function After(events: seq<Event>, n: nat): seq<Row>
    requires n <= |events|
  {
    if n == 0 then [] else AfterEvent(After(events, n - 1), events[n - 1])
  }

  // The first n events are possible, one after the other.
  ghost predicate History(events: seq<Event>, n: nat)
    requires n <= |events|
  {
    n == 0 || (History(events, n - 1) && Allowed(After(events, n - 1), events[n - 1]))
  }

  lemma SameKeysHaveKey(a: seq<Row>, b: seq<Row>, key: string)
    requires SameKeys(a, b)
    ensures HasKey(a, key) <==> HasKey(b, key)
  {
    if HasKey(a, key) {
      var i :| 0 <= i < |a| && a[i].key == key;
      assert SameKeyAt(a, b, i);
    }
    if HasKey(b, key) {
      var i :| 0 <= i < |b| && b[i].key == key;
      assert SameKeyAt(a, b, i);
    }
  }

  lemma EventKeepsUnique(rows: seq<Row>, e: Event)
    requires UniqueKeys(rows) && Allowed(rows, e)
    ensures UniqueKeys(AfterEvent(rows, e))
  {
    match e
    case Daily(day) => InsertedIs(rows, DayValues(day), |DayValues(day)|);
    case Rewritten(rows') =>
      forall i, j | 0 <= i < j < |rows'| ensures rows'[i].key != rows'[j].key {
        assert SameKeyAt(rows, rows', i) && SameKeyAt(rows, rows', j);
      }
    case Added(_, row) =>
  }

  lemma {:induction false} HistoryKeepsUnique(events: seq<Event>, n: nat)
    requires n <= |events| && History(events, n)
    ensures UniqueKeys(After(events, n))
  {
    if n > 0 {
      HistoryKeepsUnique(events, n - 1);
      EventKeepsUnique(After(events, n - 1), events[n - 1]);
    }
  }

  ghost predicate DailyOffers(e: Event, f: ReminderFields) {
    e.Daily? && e.day.schoolOnFile && Offers(e.day, f)
  }

  lemma EventAddsKeyIff(rows: seq<Row>, e: Event, f: ReminderFields)
    requires Allowed(rows, e) && f.version == VERSION
    ensures HasKey(AfterEvent(rows, e), ComputeMessageKey(f))
            <==> HasKey(rows, ComputeMessageKey(f)) || DailyOffers(e, f)
  {
    var key := ComputeMessageKey(f);
    match e
    case Daily(day) =>
      var values := DayValues(day);
      DayOffersIff(day, f);
      InsertedHasKeyIff(rows, values, |values|, key);
      assert values[..|values|] == values;
    case Rewritten(rows') => SameKeysHaveKey(rows, rows', key);
    case Added(k, row) =>
      ShortVersionIsPlain(VERSION);
      KeysNeverCollide(k, MessageKey.Reminder(f));
      HasKeyOneMore(rows, row, key);
  }

  ghost predicate SomeRunOffers(events: seq<Event>, n: nat, f: ReminderFields)
    requires n <= |events|
  {
    exists k :: 0 <= k < n && DailyOffers(events[k], f)
  }

  lemma OneMoreRun(events: seq<Event>, n: nat, f: ReminderFields)
    requires 0 < n <= |events|
    ensures SomeRunOffers(events, n, f) <==> SomeRunOffers(events, n - 1, f) || DailyOffers(events[n - 1], f)
  {}

  // A reminder is in the outbox exactly when some run offered it. Neither the order of the runs, nor how many there
  // were, nor what happened in between matters.
  lemma {:induction false} InOutboxIff(events: seq<Event>, n: nat, f: ReminderFields)
    requires n <= |events| && History(events, n) && f.version == VERSION
    ensures HasKey(After(events, n), ComputeMessageKey(f)) <==> SomeRunOffers(events, n, f)
  {
    if n > 0 {
      InOutboxIff(events, n - 1, f);
      OneMoreRun(events, n, f);
      EventAddsKeyIff(After(events, n - 1), events[n - 1], f);
    }
  }

  // ---- an invoice that stays open, and one that is paid ----

  // A run for the school that finds it on file.
  predicate IsRunFor(e: Event, school: int) {
    e.Daily? && e.day.school == school && e.day.schoolOnFile
  }

  // Every such run finds the invoice open, and its guardian taking messages.
  ghost predicate StaysOpen(events: seq<Event>, school: int, inv: Invoice) {
    forall k :: 0 <= k < |events| && IsRunFor(events[k], school) ==> OpenOn(events[k].day, inv)
  }

  ghost predicate OpenOn(day: Day, inv: Invoice) {
    && inv.guardian in day.guardians && day.guardians[inv.guardian]
    && exists status :: (status == Unpaid || status == Partial) && inv.(status := status) in day.invoices
  }

  ghost predicate RanOn(events: seq<Event>, school: int, dayNumber: int) {
    exists k :: 0 <= k < |events| && IsRunFor(events[k], school) && Ordinal(events[k].day.today) == dayNumber
  }

  ghost predicate RanAfter(events: seq<Event>, school: int, dayNumber: int) {
    exists k :: 0 <= k < |events| && IsRunFor(events[k], school) && Ordinal(events[k].day.today) > dayNumber
  }

  ghost predicate RanWhenDue(events: seq<Event>, school: int, dueDate: Date, kind: ReminderType) {
    match kind
    case Due14 => RanOn(events, school, Ordinal(dueDate) - 14)
    case Due3 => RanOn(events, school, Ordinal(dueDate) - 3)
    case DueToday => RanOn(events, school, Ordinal(dueDate))
    case LateNotice => RanAfter(events, school, Ordinal(dueDate))
    case _ => false
  }

  // The reminder's day, given that the invoice is open.
  predicate DueOn(dueDate: Date, kind: ReminderType, today: Date) {
    match kind
    case Due14 => Ordinal(today) == Ordinal(dueDate) - 14
    case Due3 => Ordinal(today) == Ordinal(dueDate) - 3
    case DueToday => Ordinal(today) == Ordinal(dueDate)
    case LateNotice => Ordinal(today) > Ordinal(dueDate)
    case _ => false
  }

  lemma OfferIsDue(day: Day, f: ReminderFields)
    requires Offers(day, f)
    ensures DueOn(f.dueDate, f.kind, day.today)
  {
    var inv :| OffersFor(day, inv, f);
    DefaultSchedule(inv, f.kind, day.today);
  }

  lemma OpenIsOffered(day: Day, school: int, inv: Invoice, kind: ReminderType)
    requires OpenOn(day, inv) && day.school == school && DueOn(inv.dueDate, kind, day.today)
    ensures Offers(day, FieldsOf(school, inv, kind, VERSION))
  {
    var status :| (status == Unpaid || status == Partial) && inv.(status := status) in day.invoices;
    var listed := inv.(status := status);
    DefaultSchedule(listed, kind, day.today);
    OrdinalOrders(inv.dueDate, day.today);
    assert OffersFor(day, listed, FieldsOf(school, inv, kind, VERSION));
  }

  lemma OpenIsOfferedIff(e: Event, school: int, inv: Invoice, kind: ReminderType)
    requires IsRunFor(e, school) ==> OpenOn(e.day, inv)
    ensures DailyOffers(e, FieldsOf(school, inv, kind, VERSION))
            <==> IsRunFor(e, school) && DueOn(inv.dueDate, kind, e.day.today)
  {
    if IsRunFor(e, school) {
      if DueOn(inv.dueDate, kind, e.day.today) {
        OpenIsOffered(e.day, school, inv, kind);
      }
      if Offers(e.day, FieldsOf(school, inv, kind, VERSION)) {
        OfferIsDue(e.day, FieldsOf(school, inv, kind, VERSION));
      }
    }
  }

  // An invoice that stays open gets one row for each of its four reminders that some run came due for, and never two:
  // so it has at most one late notice, however many days late it is.
  lemma OpenInvoiceRows(events: seq<Event>, school: int, inv: Invoice, kind: ReminderType)
    requires History(events, |events|) && StaysOpen(events, school, inv)
    ensures Copies(After(events, |events|), ComputeMessageKey(FieldsOf(school, inv, kind, VERSION)))
            == if RanWhenDue(events, school, inv.dueDate, kind) then 1 else 0
  {
    var f := FieldsOf(school, inv, kind, VERSION);
    InOutboxIff(events, |events|, f);
    HistoryKeepsUnique(events, |events|);
    CopiesIff(After(events, |events|), ComputeMessageKey(f));
    OfferedIffRan(events, school, inv, kind);
  }

  lemma OfferedIffRan(events: seq<Event>, school: int, inv: Invoice, kind: ReminderType)
    requires StaysOpen(events, school, inv)
    ensures SomeRunOffers(events, |events|, FieldsOf(school, inv, kind, VERSION))
            <==> RanWhenDue(events, school, inv.dueDate, kind)
  {
    forall k | 0 <= k < |events|
      ensures DailyOffers(events[k], FieldsOf(school, inv, kind, VERSION))
              <==> IsRunFor(events[k], school) && DueOn(inv.dueDate, kind, events[k].day.today)
    {
      OpenIsOfferedIff(events[k], school, inv, kind);
    }
  }

  // The day lists the invoice, if at all, neither as unpaid nor as partly paid.
  ghost predicate NotOpenOn(day: Day, invoice: int) {
    forall inv :: inv in day.invoices && inv.id == invoice ==> inv.status != Unpaid && inv.status != Partial
  }

  // Such a run offers nothing for it: not if it is paid or cancelled, and not if it is marked overdue either.
  lemma NotOpenIsNotOffered(day: Day, f: ReminderFields)
    requires UniqueIds(day.invoices) && NotOpenOn(day, f.invoice)
    ensures !HasKey(DayValues(day), ComputeMessageKey(f))
  {
    DayOffersIff(day, f);
  }

  // An invoice that no run finds unpaid or partly paid gets no row from any of them.
  lemma {:induction false} ClosedInvoiceGetsNoRow(events: seq<Event>, n: nat, m: nat, f: ReminderFields)
    requires n <= m <= |events| && History(events, m) && f.version == VERSION
    requires forall k :: n <= k < m && events[k].Daily? ==> NotOpenOn(events[k].day, f.invoice)
    ensures HasKey(After(events, m), ComputeMessageKey(f)) <==> HasKey(After(events, n), ComputeMessageKey(f))
    decreases m
  {
    if n < m {
      ClosedInvoiceGetsNoRow(events, n, m - 1, f);
      EventAddsKeyIff(After(events, m - 1), events[m - 1], f);
    }
  }

  // Every later listing of the invoice shows what the ledger has made of it.
  ghost predicate FollowsLedger(e: Event, invoice: int, paid: Ledger.Account, operations: seq<Ledger.Operation>) {
    e.Daily? ==> forall inv :: inv in e.day.invoices && inv.id == invoice ==>
                   inv.status == Ledger.Run(paid, operations).status
  }

  // An invoice that is paid, and to which only ledger operations happen afterwards, gets no row from any later run.
  lemma PaidInvoiceGetsNoRow(events: seq<Event>, n: nat, m: nat, f: ReminderFields,
                             paid: Ledger.Account, operations: seq<seq<Ledger.Operation>>)
    requires n <= m <= |events| == |operations| && History(events, m) && f.version == VERSION
    requires Ledger.Consistent(paid) && paid.status == Paid
    requires forall k :: n <= k < m ==> FollowsLedger(events[k], f.invoice, paid, operations[k])
    ensures HasKey(After(events, m), ComputeMessageKey(f)) <==> HasKey(After(events, n), ComputeMessageKey(f))
  {
    forall k | n <= k < m && events[k].Daily? ensures NotOpenOn(events[k].day, f.invoice) {
      Ledger.PaidIsAbsorbing(paid, operations[k]);
      assert FollowsLedger(events[k], f.invoice, paid, operations[k]);
    }
    ClosedInvoiceGetsNoRow(events, n, m, f);
  }
}
