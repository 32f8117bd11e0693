// What every step of the outbox protocol keeps.
module ProtocolSafety {
  import opened Models
  import opened QuietHours
  import opened Outbox
  import opened Protocol

  // ---- the invariant ----

  ghost predicate Timed(r: Row, now: int) {
    r.createdAt <= r.updatedAt <= now
  }

  // A deferred row waits for the end of the quiet window it was deferred in.
  ghost predicate Waits(c: Config, r: Row, now: int) {
    r.deferredAt.Some? ==>
      && r.deferredAt.value <= now
      && IsWithinQuietHours(c.window, r.deferredAt.value, c.offset)
      && r.scheduledAt == Some(NextAllowedSendTime(c.window, r.deferredAt.value, c.offset))
  }

  // A worker that defers a row does so after the row came due.
  predicate DeferredLater(r: Row, v: Row) {
    v.deferredAt != r.deferredAt ==>
      r.scheduledAt.Some? && v.deferredAt.Some? && r.scheduledAt.value <= v.deferredAt.value
  }

  // A worker's copy of a row it has locked. What it has not submitted it may still put back; what it has, never.
  ghost predicate ViewOk(c: Config, r: Row, v: Row, submitted: bool, now: int) {
    && Pollable(r, now)
    && v.key == r.key && v.invoice == r.invoice && v.maxRetries == r.maxRetries && v.retryCount == r.retryCount
    && v.createdAt == r.createdAt && Timed(v, now) && Waits(c, v, now) && DeferredLater(r, v)
    && (submitted ==> v.status != Pending)
  }

  ghost predicate FlightOk(c: Config, b: Batch, now: int) {
    b.flight.Some? ==>
      var f := b.flight.value;
      && f.id in b.view && f.id !in b.submitted && f.id !in b.todo && b.view[f.id].status == Sending
      && f.sampledAt <= now
      && (f.schoolFound ==> !IsWithinQuietHours(c.window, f.sampledAt, c.offset))
  }

  ghost predicate TodoOk(b: Batch, now: int) {
    && (forall i :: 0 <= i < |b.todo| ==>
         b.todo[i] in b.view && b.todo[i] !in b.submitted && Pollable(b.view[b.todo[i]], now))
    && (forall i, j :: 0 <= i < j < |b.todo| ==> b.todo[i] != b.todo[j])
  }

  ghost predicate BatchOk(c: Config, rows: map<nat, Row>, b: Batch, now: int) {
    && (forall id :: id in b.view ==> id in rows && ViewOk(c, rows[id], b.view[id], id in b.submitted, now))
    && b.submitted <= b.view.Keys
    && TodoOk(b, now) && FlightOk(c, b, now)
  }

  ghost predicate BatchesOk(c: Config, rows: map<nat, Row>, batches: map<int, Batch>, now: int) {
    forall w :: w in batches ==> BatchOk(c, rows, batches[w], now)
  }

  // No row is locked twice.
  ghost predicate LocksDisjoint(batches: map<int, Batch>) {
    forall w, x, id :: BothLock(batches, w, x, id) ==> w == x
  }

  ghost predicate BothLock(batches: map<int, Batch>, w: int, x: int, id: nat) {
    w in batches && x in batches && id in batches[w].view && id in batches[x].view
  }

  // The most submits a row may have seen, aborted ones aside: what its batch knows if it is locked, else its allowance.
  ghost predicate WithinAllowance(s: State, id: nat)
    requires id in s.rows
  {
    && (Unlocked(s, id) ==> s.submits[id] <= Allowance(s.rows[id]) + s.aborted[id])
    && forall w :: w in s.batches && id in s.batches[w].view ==>
         s.submits[id] <= s.rows[id].retryCount + s.aborted[id] + if id in s.batches[w].submitted then 1 else 0
  }

  ghost predicate BudgetOk(s: State) {
    && (forall id :: id in s.submits ==> id in s.born)
    && (forall id :: id in s.born ==> s.submits[id] <= s.born[id].maxRetries + s.aborted[id])
    && (forall id :: id in s.rows ==> WithinAllowance(s, id))
  }

  ghost predicate RowOk(c: Config, r: Row, b: Birth, now: int) {
    b == Birth(r.key, r.createdAt, r.maxRetries) && Timed(r, now) && Waits(c, r, now)
  }

  ghost predicate RowsOk(c: Config, rows: map<nat, Row>, born: map<nat, Birth>, now: int) {
    && rows.Keys <= born.Keys
    && (forall id :: id in rows ==> RowOk(c, rows[id], born[id], now))
    && (forall i, j :: ShareKey(rows, i, j) ==> i == j)
  }

  ghost predicate ShareKey(rows: map<nat, Row>, i: nat, j: nat) {
    i in rows && j in rows && rows[i].key == rows[j].key
  }

  // How long the key of a row that ended so stays taken after the row was last written.
  function Retention(ended: MessageStatus): int {
    if ended == Failed then 30 * DAY else 90 * DAY
  }

  ghost predicate LongGone(b: Birth, ended: MessageStatus, now: int) {
    ended in {Sent, Delivered, Failed} && now - b.at > Retention(ended)
  }

  ghost predicate HistoryOk(
      ids: set<nat>, born: map<nat, Birth>, ended: map<nat, MessageStatus>, nextId: nat, now: int)
  {
    && ids !! ended.Keys && ids + ended.Keys == born.Keys
    && (forall id :: id in born ==> id < nextId && born[id].at <= now)
    && (forall id :: id in ended ==> id in born && LongGone(born[id], ended[id], now))
    && (forall i, j :: Rebirth(born, i, j) ==> i in ended && born[j].at - born[i].at > Retention(ended[i]))
  }

  // Row j was inserted under the key that row i had been inserted under before.
  ghost predicate Rebirth(born: map<nat, Birth>, i: nat, j: nat) {
    i in born && j in born && i < j && born[i].key == born[j].key
  }

  ghost predicate Inv(c: Config, s: State) {
    && BatchesOk(c, s.rows, s.batches, s.now) && LocksDisjoint(s.batches)
    && BudgetOk(s)
    && RowsOk(c, s.rows, s.born, s.now)
    && HistoryOk(s.rows.Keys, s.born, s.ended, s.nextId, s.now)
  }

  lemma InitialInv(c: Config, now: int)
    ensures Inv(c, Initial(now))
  {}

  // ---- writes to rows at rest ----

  ghost predicate Rewritten(s: State, t: State) {
    && t == s.(rows := t.rows, callbackEvents := t.callbackEvents)
    && t.rows.Keys == s.rows.Keys
    && forall id :: id in s.rows ==> RewrittenAt(s, t, id)
  }

  ghost predicate RewrittenAt(s: State, t: State, id: nat)
    requires id in s.rows && id in t.rows
  {
    t.rows[id] == s.rows[id] || (Unlocked(s, id) && Follows(s.rows[id], t.rows[id], s.now))
  }

  lemma RewritingKeepsInv(c: Config, s: State, t: State)
    requires Inv(c, s) && Rewritten(s, t)
    ensures Inv(c, t)
  {
    RewritingKeepsBatches(c, s, t);
    RewritingKeepsRows(c, s, t);
    forall id | id in t.rows ensures WithinAllowance(t, id) {
      assert WithinAllowance(s, id) && RewrittenAt(s, t, id);
    }
  }

  lemma RewritingKeepsBatches(c: Config, s: State, t: State)
    requires BatchesOk(c, s.rows, s.batches, s.now) && Rewritten(s, t)
    ensures BatchesOk(c, t.rows, t.batches, t.now)
  {
    forall w | w in t.batches ensures BatchOk(c, t.rows, t.batches[w], t.now) {
      assert BatchOk(c, s.rows, s.batches[w], s.now);
      forall id | id in t.batches[w].view ensures id in t.rows && t.rows[id] == s.rows[id] {
        assert RewrittenAt(s, t, id);
      }
      BatchKeepsItsRows(c, s.rows, t.rows, s.batches[w], s.now);
    }
  }

  lemma BatchKeepsItsRows(c: Config, rows: map<nat, Row>, rows': map<nat, Row>, b: Batch, now: int)
    requires BatchOk(c, rows, b, now)
    requires forall id :: id in b.view ==> id in rows && id in rows' && rows'[id] == rows[id]
    ensures BatchOk(c, rows', b, now)
  {}

  lemma RewritingKeepsRows(c: Config, s: State, t: State)
    requires RowsOk(c, s.rows, s.born, s.now) && Rewritten(s, t)
    ensures RowsOk(c, t.rows, t.born, t.now)
  {
    forall id | id in t.rows ensures RowOk(c, t.rows[id], t.born[id], t.now) && t.rows[id].key == s.rows[id].key {
      assert RowOk(c, s.rows[id], s.born[id], s.now) && RewrittenAt(s, t, id);
    }
    forall i, j | ShareKey(t.rows, i, j) ensures i == j {
      assert ShareKey(s.rows, i, j);
    }
  }

  lemma OneRowRewrites(s: State, id: nat, r: Row, events: set<string>)
    requires id in s.rows && Unlocked(s, id) && Follows(s.rows[id], r, s.now)
    ensures Rewritten(s, s.(rows := s.rows[id := r], callbackEvents := events))
  {
    var t := s.(rows := s.rows[id := r], callbackEvents := events);
    forall i | i in s.rows ensures RewrittenAt(s, t, i) {}
  }

  lemma RetryRewrites(c: Config, s: State, id: nat)
    requires Enabled(s, Retry(id))
    ensures Rewritten(s, Next(c, s, Retry(id)))
  {
    RetryFollows(s.rows[id], s.now);
    OneRowRewrites(s, id, Transitioned(s.rows[id], Pending, "", s.now).value, s.callbackEvents);
  }

  lemma CallbackRewrites(c: Config, s: State, id: nat, event: string, providerStatus: string)
    requires Enabled(s, Callback(id, event, providerStatus))
    ensures Rewritten(s, Next(c, s, Callback(id, event, providerStatus)))
  {
    if event !in s.callbackEvents {
      CallbackFollows(s.rows[id], providerStatus, s.now);
      OneRowRewrites(s, id, CalledBack(s.rows[id], providerStatus, s.now), s.callbackEvents + {event});
    }
  }

  lemma ReconcileRewrites(c: Config, s: State, ids: seq<nat>, answers: map<nat, string>)
    requires BatchesOk(c, s.rows, s.batches, s.now) && Enabled(s, Reconcile(ids, answers))
    ensures Rewritten(s, Next(c, s, Reconcile(ids, answers)))
  {
    var t := Next(c, s, Reconcile(ids, answers));
    forall id | id in s.rows ensures RewrittenAt(s, t, id) {
      if id in ids {
        assert id in Unresolved(s);
        ReconciliationFollows(s.rows[id], if id in answers then Some(answers[id]) else None, s.now);
        forall w | w in s.batches ensures id !in s.batches[w].view {
          assert BatchOk(c, s.rows, s.batches[w], s.now);
        }
      }
    }
  }

  lemma SuppressRewrites(c: Config, s: State, invoice: int)
    requires Enabled(s, Suppress(invoice))
    ensures Rewritten(s, Next(c, s, Suppress(invoice)))
  {
    var t := Next(c, s, Suppress(invoice));
    forall id | id in s.rows ensures RewrittenAt(s, t, id) {
      if s.rows[id].status == Pending {
        SuppressionFollows(s.rows[id], s.now);
      }
    }
  }

  // ---- time, inserts and purges ----

  lemma TickKeepsInv(c: Config, s: State, elapsed: nat)
    requires Inv(c, s)
    ensures Inv(c, Next(c, s, Tick(elapsed)))
  {
    var t := Next(c, s, Tick(elapsed));
    TickKeepsBatches(c, s.rows, s.batches, s.now, t.now);
    forall id | id in t.rows ensures RowOk(c, t.rows[id], t.born[id], t.now) {
      assert RowOk(c, s.rows[id], s.born[id], s.now);
    }
    forall id | id in t.rows ensures WithinAllowance(t, id) {
      assert WithinAllowance(s, id);
    }
    forall id | id in t.ended ensures LongGone(t.born[id], t.ended[id], t.now) {
      assert LongGone(s.born[id], s.ended[id], s.now);
    }
  }

  lemma TickKeepsBatches(c: Config, rows: map<nat, Row>, batches: map<int, Batch>, now: int, later: int)
    requires BatchesOk(c, rows, batches, now) && now <= later
    ensures BatchesOk(c, rows, batches, later)
  {
    forall w | w in batches ensures BatchOk(c, rows, batches[w], later) {
      var b := batches[w];
      assert BatchOk(c, rows, b, now);
      forall id | id in b.view ensures ViewOk(c, rows[id], b.view[id], id in b.submitted, later) {
        assert ViewOk(c, rows[id], b.view[id], id in b.submitted, now);
      }
    }
  }

  lemma InsertKeepsInv(
      c: Config, s: State, key: string, invoice: Option<int>, maxRetries: nat, scheduledAt: Option<int>)
    requires Inv(c, s)
    ensures Inv(c, Inserted(s, key, invoice, maxRetries, scheduledAt))
  {
    if !KeyInUse(s, key) {
      var t, n := Inserted(s, key, invoice, maxRetries, scheduledAt), s.nextId;
      assert t.rows.Keys == s.rows.Keys + {n};
      InsertKeepsHistory(s.rows, s.born, s.ended, n, s.now, Birth(key, s.now, maxRetries));
      InsertKeepsBatches(c, s, t, n);
      InsertKeepsBudget(c, s, t, n);
      InsertKeepsRows(c, s, t, n);
    }
  }

  lemma InsertKeepsRows(c: Config, s: State, t: State, n: nat)
    requires n in t.rows && n in t.born && n !in s.rows && n !in s.born && t.now == s.now
    requires t.rows == s.rows[n := t.rows[n]] && t.born == s.born[n := t.born[n]]
    requires RowsOk(c, s.rows, s.born, s.now) && !KeyInUse(s, t.rows[n].key)
    requires RowOk(c, t.rows[n], t.born[n], t.now)
    ensures RowsOk(c, t.rows, t.born, t.now)
  {
    forall id | id in t.rows ensures RowOk(c, t.rows[id], t.born[id], t.now) {
      if id != n {
        assert RowOk(c, s.rows[id], s.born[id], s.now);
      }
    }
    forall i, j | ShareKey(t.rows, i, j) ensures i == j {
      assert i != n && j != n ==> ShareKey(s.rows, i, j);
    }
  }

  lemma InsertKeepsBatches(c: Config, s: State, t: State, n: nat)
    requires n !in s.rows && n in t.rows && t.rows == s.rows[n := t.rows[n]] && t.batches == s.batches && t.now == s.now
    requires BatchesOk(c, s.rows, s.batches, s.now)
    ensures BatchesOk(c, t.rows, t.batches, t.now)
  {
    forall w | w in t.batches ensures BatchOk(c, t.rows, t.batches[w], t.now) {
      assert BatchOk(c, s.rows, s.batches[w], s.now);
      BatchKeepsItsRows(c, s.rows, t.rows, s.batches[w], s.now);
    }
  }

  lemma InsertKeepsBudget(c: Config, s: State, t: State, n: nat)
    requires n in t.rows && n in t.born
    requires t == s.(rows := s.rows[n := t.rows[n]], born := s.born[n := t.born[n]], nextId := n + 1)
    requires n !in s.born && n !in s.rows && BudgetOk(s) && BatchesOk(c, s.rows, s.batches, s.now)
    ensures BudgetOk(t)
  {
    forall id | id in t.rows ensures WithinAllowance(t, id) {
      if id == n {
        assert n !in s.submits;
        forall w | w in s.batches ensures n !in s.batches[w].view {
          assert BatchOk(c, s.rows, s.batches[w], s.now);
        }
      } else {
        assert WithinAllowance(s, id);
      }
    }
  }

  lemma InsertKeepsHistory(
      rows: map<nat, Row>, born: map<nat, Birth>, ended: map<nat, MessageStatus>, n: nat, now: int, b: Birth)
    requires HistoryOk(rows.Keys, born, ended, n, now) && b.at == now
    requires forall id :: id in rows ==> rows[id].key == born[id].key && rows[id].key != b.key
    ensures HistoryOk(rows.Keys + {n}, born[n := b], ended, n + 1, now)
  {
    var born' := born[n := b];
    forall i, j | Rebirth(born', i, j) ensures i in ended && born'[j].at - born'[i].at > Retention(ended[i]) {
      if j == n {
        assert i !in rows;
        assert LongGone(born[i], ended[i], now);
      } else {
        assert Rebirth(born, i, j);
      }
    }
  }

  lemma PurgeKeepsInv(c: Config, s: State, scope: set<nat>)
    requires Inv(c, s)
    ensures Inv(c, Next(c, s, Purge(scope)))
  {
    var t := Next(c, s, Purge(scope));
    var gone := set id | id in s.rows && id in scope && Purgeable(s.rows[id], s.now);
    PurgedAreLongGone(c, s, t, gone);
    PurgeKeepsHistory(s, t, gone);
    PurgeKeepsBatches(c, s, t, gone);
    PurgeKeepsRows(c, s, t);
    PurgeKeepsBudget(s, t);
  }

  lemma PurgedAreLongGone(c: Config, s: State, t: State, gone: set<nat>)
    requires RowsOk(c, s.rows, s.born, s.now) && s.rows.Keys !! s.ended.Keys
    requires forall id :: id in gone ==> id in s.rows && Purgeable(s.rows[id], s.now)
    requires t.rows == s.rows - gone && t.ended == s.ended + map id | id in gone :: s.rows[id].status
    ensures t.rows.Keys == s.rows.Keys - gone && t.ended.Keys == s.ended.Keys + gone
    ensures forall id :: id in s.ended ==> t.ended[id] == s.ended[id]
    ensures forall id :: id in gone ==> LongGone(s.born[id], t.ended[id], s.now)
  {
    forall id | id in gone ensures LongGone(s.born[id], t.ended[id], s.now) {
      assert RowOk(c, s.rows[id], s.born[id], s.now);
    }
  }

  lemma PurgeKeepsRows(c: Config, s: State, t: State)
    requires RowsOk(c, s.rows, s.born, s.now) && t.born == s.born && t.now == s.now
    requires t.rows.Keys <= s.rows.Keys && forall id :: id in t.rows ==> t.rows[id] == s.rows[id]
    ensures RowsOk(c, t.rows, t.born, t.now)
  {
    forall id | id in t.rows ensures RowOk(c, t.rows[id], t.born[id], t.now) {
      assert RowOk(c, s.rows[id], s.born[id], s.now);
    }
    forall i, j | ShareKey(t.rows, i, j) ensures i == j {
      assert ShareKey(s.rows, i, j);
    }
  }

  lemma PurgeKeepsHistory(s: State, t: State, gone: set<nat>)
    requires HistoryOk(s.rows.Keys, s.born, s.ended, s.nextId, s.now) && gone <= s.rows.Keys
    requires t.rows.Keys == s.rows.Keys - gone && t.ended.Keys == s.ended.Keys + gone
    requires t == s.(rows := t.rows, ended := t.ended)
    requires forall id :: id in s.ended ==> t.ended[id] == s.ended[id]
    requires forall id :: id in gone ==> id in t.ended && LongGone(s.born[id], t.ended[id], s.now)
    ensures HistoryOk(t.rows.Keys, t.born, t.ended, t.nextId, t.now)
  {
    forall id | id in t.ended ensures LongGone(t.born[id], t.ended[id], t.now) {
      if id !in gone {
        assert LongGone(s.born[id], s.ended[id], s.now);
      }
    }
    forall i, j | Rebirth(t.born, i, j) ensures i in t.ended && t.born[j].at - t.born[i].at > Retention(t.ended[i]) {
      assert Rebirth(s.born, i, j);
    }
  }

  lemma PurgeKeepsBatches(c: Config, s: State, t: State, gone: set<nat>)
    requires BatchesOk(c, s.rows, s.batches, s.now) && t.batches == s.batches && t.now == s.now
    requires t.rows == s.rows - gone && forall id :: id in gone ==> id in s.rows && Purgeable(s.rows[id], s.now)
    ensures BatchesOk(c, t.rows, t.batches, t.now)
  {
    forall w | w in t.batches ensures BatchOk(c, t.rows, t.batches[w], t.now) {
      assert BatchOk(c, s.rows, s.batches[w], s.now);
      forall id | id in s.batches[w].view ensures id !in gone {
        assert ViewOk(c, s.rows[id], s.batches[w].view[id], id in s.batches[w].submitted, s.now);
      }
      BatchKeepsItsRows(c, s.rows, t.rows, s.batches[w], s.now);
    }
  }

  lemma PurgeKeepsBudget(s: State, t: State)
    requires BudgetOk(s) && t == s.(rows := t.rows, ended := t.ended)
    requires t.rows.Keys <= s.rows.Keys && forall id :: id in t.rows ==> t.rows[id] == s.rows[id]
    ensures BudgetOk(t)
  {
    forall id | id in t.rows ensures WithinAllowance(t, id) {
      assert WithinAllowance(s, id);
    }
  }

  // ---- a worker's batch ----

  lemma PollKeepsInv(c: Config, s: State, w: int, ids: seq<nat>, limit: nat, canSend: bool)
    requires Inv(c, s) && Enabled(s, Poll(w, ids, limit, canSend))
    ensures Inv(c, Next(c, s, Poll(w, ids, limit, canSend)))
  {
    var b := Batch(ids, canSend, map id | id in ids && id in s.rows :: s.rows[id], None, {});
    PolledBatchOk(c, s, ids, limit, b);
    PolledKeepsInv(c, s, w, b);
  }

  lemma PolledKeepsInv(c: Config, s: State, w: int, b: Batch)
    requires Inv(c, s) && w !in s.batches && BatchOk(c, s.rows, b, s.now) && b.submitted == {}
    requires forall id :: id in b.view ==> id in s.rows && s.rows[id].status == Pending && Unlocked(s, id)
    ensures Inv(c, s.(batches := s.batches[w := b]))
  {
    var t := s.(batches := s.batches[w := b]);
    BatchChangeKeepsBatches(c, s, t, w);
    PollKeepsLocks(s, t, w);
    PollKeepsBudget(s, t, w);
  }

  lemma PolledBatchOk(c: Config, s: State, ids: seq<nat>, limit: nat, b: Batch)
    requires RowsOk(c, s.rows, s.born, s.now) && IsSelection(ids, Due(s), limit)
    requires b.todo == ids && b.view == (map id | id in ids && id in s.rows :: s.rows[id])
    requires b.flight.None? && b.submitted == {}
    ensures BatchOk(c, s.rows, b, s.now)
    ensures forall id :: id in b.view ==> id in s.rows && s.rows[id].status == Pending && Unlocked(s, id)
  {
    forall id | id in b.view
      ensures Pollable(s.rows[id], s.now) && Unlocked(s, id) && ViewOk(c, s.rows[id], b.view[id], false, s.now)
    {
      assert id in Due(s);
      assert RowOk(c, s.rows[id], s.born[id], s.now);
    }
    forall i | 0 <= i < |ids| ensures ids[i] in b.view {
      assert ids[i] in Due(s);
    }
  }

  lemma PollKeepsLocks(s: State, t: State, w: int)
    requires LocksDisjoint(s.batches) && w !in s.batches && w in t.batches
    requires t.batches == s.batches[w := t.batches[w]]
    requires forall id :: id in t.batches[w].view ==> Unlocked(s, id)
    ensures LocksDisjoint(t.batches)
  {
    forall x, y, id | BothLock(t.batches, x, y, id) ensures x == y {
      assert x != w && y != w ==> BothLock(s.batches, x, y, id);
    }
  }

  lemma PollKeepsBudget(s: State, t: State, w: int)
    requires BudgetOk(s) && w !in s.batches && w in t.batches && t == s.(batches := s.batches[w := t.batches[w]])
    requires t.batches[w].submitted == {}
    requires forall id :: id in t.batches[w].view ==> id in s.rows && s.rows[id].status == Pending && Unlocked(s, id)
    ensures BudgetOk(t)
  {
    forall id | id in t.rows ensures WithinAllowance(t, id) {
      assert WithinAllowance(s, id);
      if Unlocked(t, id) {
        forall x | x in s.batches ensures id !in s.batches[x].view {
          assert t.batches[x] == s.batches[x];
        }
      }
    }
  }

  // Only one worker's batch differs, and it is sound.
  lemma BatchChangeKeepsBatches(c: Config, s: State, t: State, w: int)
    requires BatchesOk(c, s.rows, s.batches, s.now) && t.rows == s.rows && t.now == s.now
    requires w in t.batches && t.batches == s.batches[w := t.batches[w]] && BatchOk(c, s.rows, t.batches[w], s.now)
    ensures BatchesOk(c, t.rows, t.batches, t.now)
  {
    forall x | x in t.batches ensures BatchOk(c, t.rows, t.batches[x], t.now) {
      if x != w {
        assert BatchOk(c, s.rows, s.batches[x], s.now);
      }
    }
  }

  // Work inside a batch: the same rows stay locked, and the rows in sent are handed to the provider.
  ghost predicate Worked(c: Config, s: State, t: State, w: int, sent: set<nat>) {
    Accounted(s, t, w, sent) && BatchOk(c, s.rows, t.batches[w], s.now)
  }

  ghost predicate Accounted(s: State, t: State, w: int, sent: set<nat>) {
    && w in s.batches && w in t.batches
    && t == s.(batches := s.batches[w := t.batches[w]], submits := t.submits)
    && t.batches[w].view.Keys == s.batches[w].view.Keys
    && sent <= s.batches[w].view.Keys && sent !! s.batches[w].submitted
    && t.submits == s.submits + multiset(sent)
    && t.batches[w].submitted == s.batches[w].submitted + sent
  }

  lemma WorkKeepsInv(c: Config, s: State, t: State, w: int, sent: set<nat>)
    requires Inv(c, s) && Worked(c, s, t, w, sent)
    ensures Inv(c, t)
  {
    BatchChangeKeepsBatches(c, s, t, w);
    forall x, y, id | BothLock(t.batches, x, y, id) ensures x == y {
      assert BothLock(s.batches, x, y, id);
    }
    WorkKeepsBudget(c, s, t, w, sent);
  }

  lemma WorkKeepsBudget(c: Config, s: State, t: State, w: int, sent: set<nat>)
    requires BudgetOk(s) && BatchesOk(c, s.rows, s.batches, s.now) && LocksDisjoint(s.batches)
    requires RowsOk(c, s.rows, s.born, s.now) && Worked(c, s, t, w, sent)
    ensures BudgetOk(t)
  {
    forall id | id in t.rows ensures WithinAllowance(t, id) {
      WorkKeepsAllowance(s, t, w, sent, id);
    }
    forall id | id in sent ensures id in s.rows {
      assert BatchOk(c, s.rows, s.batches[w], s.now);
    }
    forall id | id in t.born ensures t.submits[id] <= t.born[id].maxRetries + t.aborted[id] {
      if id in sent {
        SentWithinMax(c, s, w, id);
      }
    }
    forall id | id in t.submits ensures id in t.born {
      assert id in s.submits || id in sent;
    }
  }

  lemma SentWithinMax(c: Config, s: State, w: int, id: nat)
    requires BatchesOk(c, s.rows, s.batches, s.now) && RowsOk(c, s.rows, s.born, s.now)
    requires w in s.batches && id in s.batches[w].view && id !in s.batches[w].submitted
    requires id in s.rows && WithinAllowance(s, id)
    ensures id in s.born && s.submits[id] < s.born[id].maxRetries + s.aborted[id]
  {
    assert BatchOk(c, s.rows, s.batches[w], s.now);
    assert ViewOk(c, s.rows[id], s.batches[w].view[id], false, s.now);
    assert RowOk(c, s.rows[id], s.born[id], s.now);
  }

  lemma WorkKeepsAllowance(s: State, t: State, w: int, sent: set<nat>, id: nat)
    requires Accounted(s, t, w, sent) && id in s.rows && WithinAllowance(s, id) && LocksDisjoint(s.batches)
    ensures WithinAllowance(t, id)
  {
    if Unlocked(t, id) {
      forall x | x in s.batches ensures id !in s.batches[x].view {
        assert id !in t.batches[x].view;
      }
      assert id !in s.batches[w].view;
    }
    forall x | x in t.batches && id in t.batches[x].view
      ensures t.submits[id] <= t.rows[id].retryCount + t.aborted[id] + if id in t.batches[x].submitted then 1 else 0
    {
      assert id in sent ==> BothLock(s.batches, w, x, id);
    }
  }

  lemma SkipWorks(c: Config, s: State, w: int)
    requires BatchesOk(c, s.rows, s.batches, s.now) && Enabled(s, Skip(w))
    ensures Worked(c, s, Next(c, s, Skip(w)), w, {})
  {
    assert BatchOk(c, s.rows, s.batches[w], s.now);
  }

  lemma RaiseWorks(c: Config, s: State, w: int)
    requires BatchesOk(c, s.rows, s.batches, s.now) && Enabled(s, Raise(w))
    ensures Worked(c, s, Next(c, s, Raise(w)), w, {})
  {
    assert BatchOk(c, s.rows, s.batches[w], s.now);
  }

  // A row just claimed is failed, put back until quiet hours end, or bound for the provider outside quiet hours.
  lemma ClaimedRowOk(c: Config, r: Row, v: Row, guardianFound: bool, schoolFound: bool, now: int)
    requires ViewOk(c, r, v, false, now) && v.status == Pending
    ensures var (v', goes) := AfterClaim(c, v, guardianFound, schoolFound, now);
            && ViewOk(c, r, v', false, now)
            && (goes ==> v'.status == Sending && (schoolFound ==> !IsWithinQuietHours(c.window, now, c.offset)))
  {}

  lemma ClaimWorks(c: Config, s: State, w: int, guardianFound: bool, schoolFound: bool)
    requires BatchesOk(c, s.rows, s.batches, s.now) && Enabled(s, Claim(w, guardianFound, schoolFound))
    ensures Worked(c, s, Next(c, s, Claim(w, guardianFound, schoolFound)), w, {})
  {
    assert BatchOk(c, s.rows, s.batches[w], s.now);
    ClaimedBatchOk(c, s.rows, s.batches[w], guardianFound, schoolFound, s.now);
  }

  lemma ClaimedBatchOk(c: Config, rows: map<nat, Row>, b: Batch, guardianFound: bool, schoolFound: bool, now: int)
    requires BatchOk(c, rows, b, now) && b.flight.None? && b.todo != [] && b.todo[0] in b.view
    ensures var b' := ClaimedIn(c, b, guardianFound, schoolFound, now);
            BatchOk(c, rows, b', now) && b'.view.Keys == b.view.Keys && b'.submitted == b.submitted
  {
    var id, b' := b.todo[0], ClaimedIn(c, b, guardianFound, schoolFound, now);
    ClaimedRowOk(c, rows[id], b.view[id], guardianFound, schoolFound, now);
    forall i | i in b'.view ensures i in rows && ViewOk(c, rows[i], b'.view[i], i in b'.submitted, now) {
      assert i in b.view;
    }
    assert forall i :: 0 <= i < |b'.todo| ==> b'.todo[i] == b.todo[i + 1] && b'.todo[i] != id;
  }

  lemma SubmittedRowOk(c: Config, r: Row, v: Row, outcome: Outcome, recorded: bool, now: int)
    requires ViewOk(c, r, v, false, now) && v.status == Sending
    ensures ViewOk(c, r, if recorded then AfterSubmit(v, outcome, now) else v, true, now)
  {}

  lemma SubmitWorks(c: Config, s: State, w: int, outcome: Outcome, recorded: bool)
    requires BatchesOk(c, s.rows, s.batches, s.now) && Enabled(s, Submit(w, outcome, recorded))
    ensures Worked(c, s, Next(c, s, Submit(w, outcome, recorded)), w, {s.batches[w].flight.value.id})
  {
    var b := s.batches[w];
    assert BatchOk(c, s.rows, b, s.now);
    SubmittedBatchOk(c, s.rows, b, outcome, recorded, s.now);
    assert multiset({b.flight.value.id}) == multiset{b.flight.value.id};
  }

  lemma SubmittedBatchOk(c: Config, rows: map<nat, Row>, b: Batch, outcome: Outcome, recorded: bool, now: int)
    requires BatchOk(c, rows, b, now) && b.flight.Some?
    ensures var b' := SubmittedIn(b, outcome, recorded, now);
            BatchOk(c, rows, b', now) && b'.view.Keys == b.view.Keys && b.flight.value.id !in b.submitted
  {
    var id, b' := b.flight.value.id, SubmittedIn(b, outcome, recorded, now);
    SubmittedRowOk(c, rows[id], b.view[id], outcome, recorded, now);
    forall i | i in b'.view ensures i in rows && ViewOk(c, rows[i], b'.view[i], i in b'.submitted, now) {
      assert i in b.view;
    }
    assert forall i :: 0 <= i < |b'.todo| ==> b'.todo[i] == b.todo[i] && b.todo[i] in b.todo;
  }

  // ---- the end of a batch ----

  lemma CommitKeepsInv(c: Config, s: State, w: int)
    requires Inv(c, s) && Enabled(s, Commit(w))
    ensures Inv(c, Next(c, s, Commit(w)))
  {
    var t := Next(c, s, Commit(w));
    assert BatchOk(c, s.rows, s.batches[w], s.now);
    assert t.rows.Keys == s.rows.Keys;
    CommitKeepsBatches(c, s, t, w);
    CommitKeepsRows(c, s, t, w);
    forall id | id in t.rows ensures WithinAllowance(t, id) {
      CommitKeepsAllowance(c, s, t, w, id);
    }
  }

  lemma CommitKeepsBatches(c: Config, s: State, t: State, w: int)
    requires BatchesOk(c, s.rows, s.batches, s.now) && LocksDisjoint(s.batches) && w in s.batches
    requires t.rows == s.rows + s.batches[w].view && t.batches == s.batches - {w} && t.now == s.now
    ensures BatchesOk(c, t.rows, t.batches, t.now) && LocksDisjoint(t.batches)
  {
    forall x | x in t.batches ensures BatchOk(c, t.rows, t.batches[x], t.now) {
      assert BatchOk(c, s.rows, s.batches[x], s.now);
      forall id | id in s.batches[x].view ensures id !in s.batches[w].view {
        assert id in s.batches[w].view ==> BothLock(s.batches, w, x, id);
      }
      BatchKeepsItsRows(c, s.rows, t.rows, s.batches[x], s.now);
    }
    forall x, y, id | BothLock(t.batches, x, y, id) ensures x == y {
      assert BothLock(s.batches, x, y, id);
    }
  }

  lemma CommitKeepsRows(c: Config, s: State, t: State, w: int)
    requires RowsOk(c, s.rows, s.born, s.now) && BatchesOk(c, s.rows, s.batches, s.now) && w in s.batches
    requires t.rows == s.rows + s.batches[w].view && t.born == s.born && t.now == s.now
    ensures RowsOk(c, t.rows, t.born, t.now)
  {
    var b := s.batches[w];
    assert BatchOk(c, s.rows, b, s.now);
    forall id | id in t.rows
      ensures id in s.rows && RowOk(c, t.rows[id], t.born[id], t.now) && t.rows[id].key == s.rows[id].key
    {
      if id in b.view {
        assert ViewOk(c, s.rows[id], b.view[id], id in b.submitted, s.now);
      }
      assert RowOk(c, s.rows[id], s.born[id], s.now);
    }
    forall i, j | ShareKey(t.rows, i, j) ensures i == j {
      assert ShareKey(s.rows, i, j);
    }
  }

  lemma CommitKeepsAllowance(c: Config, s: State, t: State, w: int, id: nat)
    requires BatchesOk(c, s.rows, s.batches, s.now) && LocksDisjoint(s.batches) && w in s.batches
    requires t == s.(rows := s.rows + s.batches[w].view, batches := s.batches - {w})
    requires id in s.rows && WithinAllowance(s, id)
    ensures WithinAllowance(t, id)
  {
    var b := s.batches[w];
    assert BatchOk(c, s.rows, b, s.now);
    if id in b.view {
      assert ViewOk(c, s.rows[id], b.view[id], id in b.submitted, s.now);
      forall x | x in t.batches ensures id !in t.batches[x].view {
        assert id in t.batches[x].view ==> BothLock(s.batches, w, x, id);
      }
    } else if Unlocked(t, id) {
      forall x | x in s.batches ensures id !in s.batches[x].view {
        assert x == w || x in t.batches;
      }
    }
  }

  lemma AbortKeepsInv(c: Config, s: State, w: int)
    requires Inv(c, s) && Enabled(s, Abort(w))
    ensures Inv(c, Next(c, s, Abort(w)))
  {
    var t := Next(c, s, Abort(w));
    forall x | x in t.batches ensures BatchOk(c, t.rows, t.batches[x], t.now) {
      assert BatchOk(c, s.rows, s.batches[x], s.now);
    }
    forall x, y, id | BothLock(t.batches, x, y, id) ensures x == y {
      assert BothLock(s.batches, x, y, id);
    }
    forall id | id in t.rows ensures WithinAllowance(t, id) {
      AbortKeepsAllowance(c, s, t, w, id);
    }
  }

  lemma AbortKeepsAllowance(c: Config, s: State, t: State, w: int, id: nat)
    requires BatchesOk(c, s.rows, s.batches, s.now) && w in s.batches
    requires t == s.(batches := s.batches - {w}, aborted := s.aborted + multiset(s.batches[w].submitted))
    requires id in s.rows && WithinAllowance(s, id)
    ensures WithinAllowance(t, id)
  {
    var b := s.batches[w];
    assert BatchOk(c, s.rows, b, s.now);
    if id in b.view {
      assert ViewOk(c, s.rows[id], b.view[id], id in b.submitted, s.now);
    } else if Unlocked(t, id) {
      forall x | x in s.batches ensures id !in s.batches[x].view {
        assert x == w || x in t.batches;
      }
    }
  }

  // ---- every step, every run ----

  predicate IsRewrite(step: Step) {
    step.Retry? || step.Reconcile? || step.Callback? || step.ForgetCallbacks? || step.Suppress?
  }

  predicate IsTableChange(step: Step) {
    step.Tick? || step.Insert? || step.MoveToDeadLetter? || step.ReplayDeadLetter? || step.Purge?
  }

  predicate IsWork(step: Step) {
    step.Skip? || step.Claim? || step.Raise? || step.Submit?
  }

  lemma RewriteStepRewrites(c: Config, s: State, step: Step)
    requires BatchesOk(c, s.rows, s.batches, s.now) && Enabled(s, step) && IsRewrite(step)
    ensures Rewritten(s, Next(c, s, step))
  {
    match step
    case Retry(id) => RetryRewrites(c, s, id);
    case Reconcile(ids, answers) => ReconcileRewrites(c, s, ids, answers);
    case Callback(id, event, providerStatus) => CallbackRewrites(c, s, id, event, providerStatus);
    case ForgetCallbacks(_) =>
    case Suppress(invoice) => SuppressRewrites(c, s, invoice);
  }

  lemma TableChangeKeepsInv(c: Config, s: State, step: Step)
    requires Inv(c, s) && Enabled(s, step) && IsTableChange(step)
    ensures Inv(c, Next(c, s, step))
  {
    match step
    case Tick(elapsed) => TickKeepsInv(c, s, elapsed);
    case Insert(key, invoice, maxRetries, scheduledAt) => InsertKeepsInv(c, s, key, invoice, maxRetries, scheduledAt);
    case MoveToDeadLetter(_, _) => DeadLettersDoNotMatter(c, s, Next(c, s, step).deadLetters);
    case ReplayDeadLetter(letter, stamp) =>
      DeadLettersDoNotMatter(c, s, s.deadLetters - {letter});
      InsertKeepsInv(c, s.(deadLetters := s.deadLetters - {letter}),
                     s.deadLetters[letter] + ":replay:" + stamp, None, 3, Some(s.now));
    case Purge(scope) => PurgeKeepsInv(c, s, scope);
  }

  lemma WorkStepWorks(c: Config, s: State, step: Step) returns (sent: set<nat>)
    requires BatchesOk(c, s.rows, s.batches, s.now) && Enabled(s, step) && IsWork(step)
    ensures Worked(c, s, Next(c, s, step), step.worker, sent)
  {
    sent := {};
    match step
    case Skip(w) => SkipWorks(c, s, w);
    case Claim(w, guardianFound, schoolFound) => ClaimWorks(c, s, w, guardianFound, schoolFound);
    case Raise(w) => RaiseWorks(c, s, w);
    case Submit(w, outcome, recorded) =>
      SubmitWorks(c, s, w, outcome, recorded);
      sent := {s.batches[w].flight.value.id};
  }

  lemma StepKeepsInv(c: Config, s: State, step: Step)
    requires Inv(c, s) && Enabled(s, step)
    ensures Inv(c, Next(c, s, step))
  {
    if IsRewrite(step) {
      RewriteStepRewrites(c, s, step);
      RewritingKeepsInv(c, s, Next(c, s, step));
    } else if IsTableChange(step) {
      TableChangeKeepsInv(c, s, step);
    } else if IsWork(step) {
      var sent := WorkStepWorks(c, s, step);
      WorkKeepsInv(c, s, Next(c, s, step), step.worker, sent);
    } else {
      match step
      case Poll(w, ids, limit, canSend) => PollKeepsInv(c, s, w, ids, limit, canSend);
      case Commit(w) => CommitKeepsInv(c, s, w);
      case Abort(w) => AbortKeepsInv(c, s, w);
    }
  }

  lemma DeadLettersDoNotMatter(c: Config, s: State, letters: map<nat, string>)
    requires Inv(c, s)
    ensures Inv(c, s.(deadLetters := letters))
  {
    var t := s.(deadLetters := letters);
    forall id | id in t.rows ensures WithinAllowance(t, id) {
      assert WithinAllowance(s, id);
    }
  }

  lemma {:induction false} RunKeepsInv(c: Config, s: State, steps: seq<Step>)
    requires Inv(c, s) && Legal(c, s, steps)
    ensures Inv(c, Run(c, s, steps))
    decreases |steps|
  {
    if steps != [] {
      StepKeepsInv(c, s, steps[0]);
      RunKeepsInv(c, Next(c, s, steps[0]), steps[1..]);
    }
  }
}
