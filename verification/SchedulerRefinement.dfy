// A scheduler run is a run of the outbox protocol's inserts, and the protocol's other steps are events of a scheduler
// history, so the two views of the outbox are one.
module SchedulerRefinement {
  import opened Dispatch
  import opened MessageKeys
  import opened Models
  import opened Outbox
  import opened Protocol
  import opened ProtocolRuns
  import opened ProtocolSafety
  import opened Scheduler
  import opened TableListing

  // ---- inserts ----

  // The ids handed out so far are below the next one.
  ghost predicate Numbered(s: State) {
    forall id :: id in s.rows ==> id < s.nextId
  }

  lemma KeyInUseIff(s: State, listing: seq<nat>, rows: seq<Row>, key: string)
    requires Lists(s.rows, listing, rows)
    ensures KeyInUse(s, key) <==> HasKey(rows, key)
  {
    if KeyInUse(s, key) {
      var id :| id in s.rows && s.rows[id].key == key;
      var i :| 0 <= i < |listing| && listing[i] == id;
      assert ListsAt(s.rows, listing[i], rows[i]);
    }
    if HasKey(rows, key) {
      var i :| 0 <= i < |rows| && rows[i].key == key;
      assert ListsAt(s.rows, listing[i], rows[i]);
    }
  }

  function InsertOf(v: Row): Step {
    Insert(v.key, v.invoice, v.maxRetries, v.scheduledAt)
  }

  predicate IsNew(v: Row, now: int) {
    v == NewRow(v.key, v.invoice, v.maxRetries, v.scheduledAt, now)
  }

  function ListingAfter(s: State, listing: seq<nat>, key: string): seq<nat> {
    if KeyInUse(s, key) then listing else listing + [s.nextId]
  }

  function AfterInsert(s: State, v: Row): State {
    Inserted(s, v.key, v.invoice, v.maxRetries, v.scheduledAt)
  }

  lemma InsertLists(s: State, listing: seq<nat>, rows: seq<Row>, v: Row)
    requires Lists(s.rows, listing, rows) && Numbered(s) && IsNew(v, s.now)
    ensures var t := AfterInsert(s, v);
            && Lists(t.rows, ListingAfter(s, listing, v.key), if HasKey(rows, v.key) then rows else rows + [v])
            && Numbered(t) && t.now == s.now && t.batches == s.batches
  {
    KeyInUseIff(s, listing, rows, v.key);
    if !KeyInUse(s, v.key) {
      ListsAppended(s.rows, listing, rows, s.nextId, v);
    }
  }

  function AfterInserts(s: State, values: seq<Row>, n: nat): State
    requires n <= |values|
  {
    if n == 0 then s else AfterInsert(AfterInserts(s, values, n - 1), values[n - 1])
  }

  // The state is one that the other leads to, and its table is listed by these rows.
  ghost predicate LeadsToListed(c: Config, s: State, t: State, listing: seq<nat>, rows: seq<Row>) {
    Leads(c, s, t) && Inv(c, t) && Lists(t.rows, listing, rows)
  }

  lemma OneInsertLeads(c: Config, s: State, u: State, v: Row)
    requires Leads(c, s, u) && Inv(c, u)
    ensures Leads(c, s, AfterInsert(u, v)) && Inv(c, AfterInsert(u, v))
    ensures AfterInsert(u, v).now == u.now && AfterInsert(u, v).batches == u.batches
  {
    LeadsOn(c, s, u, InsertOf(v));
    StepKeepsInv(c, u, InsertOf(v));
  }

  lemma {:induction false} InsertsLead(c: Config, s: State, values: seq<Row>, n: nat)
    requires n <= |values| && Inv(c, s)
    ensures Leads(c, s, AfterInserts(s, values, n)) && Inv(c, AfterInserts(s, values, n))
    ensures AfterInserts(s, values, n).now == s.now && AfterInserts(s, values, n).batches == s.batches
  {
    if n == 0 {
      Stays(c, s);
    } else {
      InsertsLead(c, s, values, n - 1);
      OneInsertLeads(c, s, AfterInserts(s, values, n - 1), values[n - 1]);
    }
  }

  lemma {:induction false} InsertsList(s: State, listing: seq<nat>, rows: seq<Row>, values: seq<Row>, n: nat)
      returns (listing': seq<nat>)
    requires n <= |values| && Lists(s.rows, listing, rows) && Numbered(s)
    requires forall j :: 0 <= j < |values| ==> IsNew(values[j], s.now)
    ensures var t := AfterInserts(s, values, n);
            Lists(t.rows, listing', InsertedAll(rows, values, n)) && Numbered(t) && t.now == s.now
  {
    if n == 0 {
      listing' := listing;
    } else {
      var u := AfterInserts(s, values, n - 1);
      var before := InsertsList(s, listing, rows, values, n - 1);
      InsertLists(u, before, InsertedAll(rows, values, n - 1), values[n - 1]);
      listing' := ListingAfter(u, before, values[n - 1].key);
    }
  }

  ghost function AfterDayRun(s: State, day: Day): State {
    if day.schoolOnFile then AfterInserts(s, DayValues(day), |DayValues(day)|) else s
  }

  // A scheduler run is a run of the protocol, and leaves the table as the run says.
  lemma DayIsRun(c: Config, s: State, listing: seq<nat>, rows: seq<Row>, day: Day) returns (listing': seq<nat>)
    requires Inv(c, s) && Lists(s.rows, listing, rows) && day.now == s.now
    ensures LeadsToListed(c, s, AfterDayRun(s, day), listing', AfterDay(rows, day))
    ensures AfterDayRun(s, day).batches == s.batches
  {
    var values := DayValues(day);
    forall j | 0 <= j < |values| ensures IsNew(values[j], s.now) {}
    if day.schoolOnFile {
      InsertsLead(c, s, values, |values|);
      listing' := InsertsList(s, listing, rows, values, |values|);
    } else {
      Stays(c, s);
      listing' := listing;
    }
  }

  // ---- the other steps as events ----

  lemma KeysAreKept(c: Config, s: State, step: Step)
    requires Inv(c, s) && Enabled(s, step) && !step.Insert? && !step.ReplayDeadLetter? && !step.Purge?
    ensures var t := Next(c, s, step);
            t.rows.Keys == s.rows.Keys && forall id :: id in s.rows ==> t.rows[id].key == s.rows[id].key
  {
    if IsRewrite(step) {
      RewriteStepRewrites(c, s, step);
      forall id | id in s.rows ensures Next(c, s, step).rows[id].key == s.rows[id].key {
        assert RewrittenAt(s, Next(c, s, step), id);
      }
    } else if step.Commit? {
      CommitKeepsKeys(c, s, step.worker);
    } else {
      OthersKeepRows(c, s, step);
    }
  }

  lemma OthersKeepRows(c: Config, s: State, step: Step)
    requires Enabled(s, step) && !IsRewrite(step)
    requires !step.Insert? && !step.ReplayDeadLetter? && !step.Purge? && !step.Commit?
    ensures Next(c, s, step).rows == s.rows
  {}

  lemma CommitKeepsKeys(c: Config, s: State, w: int)
    requires BatchesOk(c, s.rows, s.batches, s.now) && Enabled(s, Commit(w))
    ensures var t := Next(c, s, Commit(w));
            t.rows.Keys == s.rows.Keys && forall id :: id in s.rows ==> t.rows[id].key == s.rows[id].key
  {
    var b := s.batches[w];
    assert BatchOk(c, s.rows, b, s.now);
    forall id | id in b.view ensures id in s.rows && b.view[id].key == s.rows[id].key {
      assert ViewOk(c, s.rows[id], b.view[id], id in b.submitted, s.now);
    }
  }

  // A step that neither inserts nor purges rewrites rows without touching their keys.
  lemma StepIsRewriting(c: Config, s: State, step: Step, listing: seq<nat>, rows: seq<Row>) returns (rows': seq<Row>)
    requires Inv(c, s) && Enabled(s, step) && !step.Insert? && !step.ReplayDeadLetter? && !step.Purge?
    requires Lists(s.rows, listing, rows)
    ensures Lists(Next(c, s, step).rows, listing, rows')
    ensures Allowed(rows, Rewritten(rows')) && AfterEvent(rows, Rewritten(rows')) == rows'
  {
    KeysAreKept(c, s, step);
    rows' := RewrittenRows(s.rows, Next(c, s, step).rows, listing, rows);
  }

  lemma RewrittenRows(table: map<nat, Row>, table': map<nat, Row>, listing: seq<nat>, rows: seq<Row>)
      returns (rows': seq<Row>)
    requires Lists(table, listing, rows) && table'.Keys == table.Keys
    requires forall id :: id in table ==> table'[id].key == table[id].key
    ensures Lists(table', listing, rows') && SameKeys(rows, rows')
  {
    forall i | 0 <= i < |listing| ensures listing[i] in table && table[listing[i]] == rows[i] {
      assert ListsAt(table, listing[i], rows[i]);
    }
    rows' := seq(|listing|, i requires 0 <= i < |listing| => table'[listing[i]]);
    ListsRewritten(table, table', listing, rows, rows');
  }

  predicate IsReplyOrReplay(key: MessageKey) {
    key.Response? || key.Replay?
  }

  // The insert of a reply is the event that adds it.
  lemma InsertIsAdded(c: Config, s: State, listing: seq<nat>, rows: seq<Row>, key: MessageKey, v: Row)
    requires Lists(s.rows, listing, rows) && Numbered(s) && IsNew(v, s.now)
    requires Plain(key) && IsReplyOrReplay(key) && v.key == Text(key)
    ensures var t := Next(c, s, InsertOf(v));
            && Allowed(rows, Added(key, v))
            && Lists(t.rows, ListingAfter(s, listing, v.key), AfterEvent(rows, Added(key, v)))
  {
    InsertLists(s, listing, rows, v);
  }

  function ReplayKey(s: State, step: Step): string
    requires step.ReplayDeadLetter? && step.letter in s.deadLetters
  {
    s.deadLetters[step.letter] + ":replay:" + step.stamp
  }

  // So is the replay of a dead letter, which spells the key itself and gives up the letter, unless the key is in use.
  lemma ReplayIsAdded(c: Config, s: State, step: Step, listing: seq<nat>, rows: seq<Row>, key: MessageKey)
    requires Lists(s.rows, listing, rows) && Numbered(s) && step.ReplayDeadLetter? && Enabled(s, step)
    requires Plain(key) && IsReplyOrReplay(key) && ReplayKey(s, step) == Text(key)
    ensures var t, v := Next(c, s, step), NewRow(Text(key), None, 3, Some(s.now), s.now);
            && Allowed(rows, Added(key, v))
            && Lists(t.rows, ListingAfter(s, listing, v.key), AfterEvent(rows, Added(key, v)))
            && t.deadLetters == if HasKey(rows, v.key) then s.deadLetters else s.deadLetters - {step.letter}
  {
    var v := NewRow(Text(key), None, 3, Some(s.now), s.now);
    KeyInUseIff(s, listing, rows, v.key);
    var u := s.(deadLetters := s.deadLetters - {step.letter});
    InsertLists(u, listing, rows, v);
    assert KeyInUse(u, v.key) <==> KeyInUse(s, v.key);
  }

  // ---- whole runs ----

  // A scheduler run, or a protocol step; key says what the key means that the step inserts.
  datatype Block = DayRun(day: Day) | ProtocolStep(step: Step, key: MessageKey)

  // Only scheduler runs insert reminders, and nothing is purged.
  ghost predicate MayFollow(s: State, b: Block) {
    match b
    case DayRun(day) => day.now == s.now && UniqueIds(day.invoices)
    case ProtocolStep(step, key) =>
      && Enabled(s, step) && !step.Purge?
      && (step.Insert? ==> Plain(key) && IsReplyOrReplay(key) && step.key == Text(key))
      && (step.ReplayDeadLetter? ==> Plain(key) && IsReplyOrReplay(key) && ReplayKey(s, step) == Text(key))
  }

  ghost function AfterBlock(c: Config, s: State, b: Block): State
    requires MayFollow(s, b)
  {
    match b
    case DayRun(day) => AfterDayRun(s, day)
    case ProtocolStep(step, _) => Next(c, s, step)
  }

  // From the empty outbox, the state after the first n blocks, as long as they may follow each other.
  ghost function StateAfter(c: Config, now: int, blocks: seq<Block>, n: nat): State
    requires n <= |blocks|
  {
    if n == 0 then Initial(now) else
    var s := StateAfter(c, now, blocks, n - 1);
    if MayFollow(s, blocks[n - 1]) then AfterBlock(c, s, blocks[n - 1]) else s
  }

  ghost predicate Possible(c: Config, now: int, blocks: seq<Block>, n: nat)
    requires n <= |blocks|
  {
    n == 0 || (Possible(c, now, blocks, n - 1) && MayFollow(StateAfter(c, now, blocks, n - 1), blocks[n - 1]))
  }

  ghost predicate IsEventOf(b: Block, e: Event) {
    if b.DayRun? then e == Daily(b.day) else !e.Daily?
  }

  lemma StepIsEvent(c: Config, s: State, b: Block, listing: seq<nat>, rows: seq<Row>)
      returns (e: Event, listing': seq<nat>)
    requires Inv(c, s) && b.ProtocolStep? && MayFollow(s, b) && Lists(s.rows, listing, rows)
    ensures IsEventOf(b, e) && Allowed(rows, e) && Lists(Next(c, s, b.step).rows, listing', AfterEvent(rows, e))
  {
    if b.step.Insert? {
      var v := NewRow(b.step.key, b.step.invoice, b.step.maxRetries, b.step.scheduledAt, s.now);
      InsertIsAdded(c, s, listing, rows, b.key, v);
      e, listing' := Added(b.key, v), ListingAfter(s, listing, v.key);
    } else if b.step.ReplayDeadLetter? {
      var v := NewRow(Text(b.key), None, 3, Some(s.now), s.now);
      ReplayIsAdded(c, s, b.step, listing, rows, b.key);
      e, listing' := Added(b.key, v), ListingAfter(s, listing, v.key);
    } else {
      var rows' := StepIsRewriting(c, s, b.step, listing, rows);
      e, listing' := Rewritten(rows'), listing;
    }
  }

  lemma BlockIsEvent(c: Config, s: State, b: Block, listing: seq<nat>, rows: seq<Row>)
      returns (e: Event, listing': seq<nat>)
    requires Inv(c, s) && MayFollow(s, b) && Lists(s.rows, listing, rows)
    ensures IsEventOf(b, e) && Allowed(rows, e)
    ensures LeadsToListed(c, s, AfterBlock(c, s, b), listing', AfterEvent(rows, e))
  {
    match b
    case DayRun(day) =>
      e := Daily(day);
      listing' := DayIsRun(c, s, listing, rows, day);
    case ProtocolStep(step, _) =>
      e, listing' := StepIsEvent(c, s, b, listing, rows);
      StepKeepsInv(c, s, step);
      Stays(c, s);
      LeadsOn(c, s, s, step);
  }

  lemma {:induction false} AfterPrefix(events: seq<Event>, e: Event, n: nat)
    requires n <= |events|
    ensures After(events + [e], n) == After(events, n) && History(events + [e], n) == History(events, n)
  {
    if n > 0 {
      AfterPrefix(events, e, n - 1);
    }
  }

  lemma NextBlock(c: Config, now: int, blocks: seq<Block>, n: nat, listing: seq<nat>, rows: seq<Row>)
      returns (e: Event, listing': seq<nat>)
    requires 0 < n <= |blocks| && Possible(c, now, blocks, n)
    requires LeadsToListed(c, Initial(now), StateAfter(c, now, blocks, n - 1), listing, rows)
    ensures IsEventOf(blocks[n - 1], e) && Allowed(rows, e)
    ensures LeadsToListed(c, Initial(now), StateAfter(c, now, blocks, n), listing', AfterEvent(rows, e))
  {
    var s := StateAfter(c, now, blocks, n - 1);
    e, listing' := BlockIsEvent(c, s, blocks[n - 1], listing, rows);
    LeadsFurther(c, Initial(now), s, AfterBlock(c, s, blocks[n - 1]));
  }

  // The events are possible, and each is what its block does to the outbox.
  ghost predicate AreEventsOf(blocks: seq<Block>, events: seq<Event>, n: nat)
    requires n <= |blocks|
  {
    |events| == n && History(events, n) && forall k :: 0 <= k < n ==> IsEventOf(blocks[k], events[k])
  }

  lemma OneMoreEvent(blocks: seq<Block>, events: seq<Event>, e: Event, n: nat)
    requires n < |blocks| && AreEventsOf(blocks, events, n) && IsEventOf(blocks[n], e) && Allowed(After(events, n), e)
    ensures AreEventsOf(blocks, events + [e], n + 1)
    ensures After(events + [e], n + 1) == AfterEvent(After(events, n), e)
  {
    AfterPrefix(events, e, n);
  }

  lemma InitialIsListed(c: Config, now: int)
    ensures LeadsToListed(c, Initial(now), Initial(now), [], [])
  {
    InitialInv(c, now);
    Stays(c, Initial(now));
  }

  // The events are what the first n blocks do, and list the table that they lead to.
  ghost predicate ListsHistory(c: Config, now: int, blocks: seq<Block>, n: nat, events: seq<Event>, listing: seq<nat>)
    requires n <= |blocks|
  {
    AreEventsOf(blocks, events, n)
    && LeadsToListed(c, Initial(now), StateAfter(c, now, blocks, n), listing, After(events, n))
  }

  lemma NextInHistory(c: Config, now: int, blocks: seq<Block>, n: nat, events: seq<Event>, listing: seq<nat>)
      returns (events': seq<Event>, listing': seq<nat>)
    requires 0 < n <= |blocks| && Possible(c, now, blocks, n) && ListsHistory(c, now, blocks, n - 1, events, listing)
    ensures ListsHistory(c, now, blocks, n, events', listing')
  {
    var e;
    e, listing' := NextBlock(c, now, blocks, n, listing, After(events, n - 1));
    OneMoreEvent(blocks, events, e, n - 1);
    events' := events + [e];
  }

  // A run of the protocol with its scheduler runs in place, and without purges, lists a scheduler history; so what
  // holds of histories holds of such runs.
  lemma {:induction false} RunIsHistory(c: Config, now: int, blocks: seq<Block>, n: nat)
      returns (events: seq<Event>, listing: seq<nat>)
    requires n <= |blocks| && Possible(c, now, blocks, n)
    ensures ListsHistory(c, now, blocks, n, events, listing)
  {
    if n == 0 {
      InitialIsListed(c, now);
      events, listing := [], [];
    } else {
      events, listing := RunIsHistory(c, now, blocks, n - 1);
      events, listing := NextInHistory(c, now, blocks, n, events, listing);
    }
  }

  ghost predicate SomeDayOffers(blocks: seq<Block>, n: nat, f: ReminderFields)
    requires n <= |blocks|
  {
    exists k :: 0 <= k < n && DayOffers(blocks[k], f)
  }

  ghost predicate DayOffers(b: Block, f: ReminderFields) {
    b.DayRun? && b.day.schoolOnFile && Offers(b.day, f)
  }

  // For one: whatever senders, callbacks and everyone else did meanwhile, a reminder is in the table exactly when some
  // scheduler run offered it.
  lemma InTableIff(c: Config, now: int, blocks: seq<Block>, n: nat, f: ReminderFields)
    requires n <= |blocks| && Possible(c, now, blocks, n) && f.version == VERSION
    ensures KeyInUse(StateAfter(c, now, blocks, n), ComputeMessageKey(f)) <==> SomeDayOffers(blocks, n, f)
  {
    var events, listing := RunIsHistory(c, now, blocks, n);
    KeyInUseIff(StateAfter(c, now, blocks, n), listing, After(events, n), ComputeMessageKey(f));
    InOutboxIff(events, n, f);
    forall k | 0 <= k < n ensures DailyOffers(events[k], f) <==> DayOffers(blocks[k], f) {
      assert IsEventOf(blocks[k], events[k]);
    }
  }
}
