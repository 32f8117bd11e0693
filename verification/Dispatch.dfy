// The keyed insert: candidates become outbox rows, and a key already in the table is left alone.
module Dispatch {
  import opened Models
  import opened Outbox
  import opened Reminders

  predicate HasKey(rows: seq<Row>, key: string) {
    exists i :: 0 <= i < |rows| && rows[i].key == key
  }

  ghost predicate UniqueKeys(rows: seq<Row>) {
    forall i, j :: 0 <= i < j < |rows| ==> rows[i].key != rows[j].key
  }

  function ValueOf(c: Candidate, maxRetries: nat, scheduledAt: int, now: int): Row {
    NewRow(c.key, Some(c.invoice), maxRetries, Some(scheduledAt), now)
  }

  // One statement inserts all values; it sees the rows it has already inserted.
  function InsertedAll(rows: seq<Row>, values: seq<Row>, n: nat): seq<Row>
    requires n <= |values|
  {
    if n == 0 then rows else
    var before := InsertedAll(rows, values, n - 1);
    if HasKey(before, values[n - 1].key) then before else before + [values[n - 1]]
  }

  lemma HasKeyOneMore(rows: seq<Row>, r: Row, key: string)
    ensures HasKey(rows + [r], key) <==> HasKey(rows, key) || r.key == key
  {
    if HasKey(rows, key) {
      var i :| 0 <= i < |rows| && rows[i].key == key;
      assert (rows + [r])[i].key == key;
    }
    if r.key == key {
      assert (rows + [r])[|rows|].key == key;
    }
  }

  // What the insert amounts to: the rows that were there are untouched, what is added comes from the values, a key is
  // in the table afterwards if it was there before or was offered, and no key comes to be there twice.
  lemma {:induction false} InsertedIs(rows: seq<Row>, values: seq<Row>, n: nat)
    requires n <= |values|
    ensures var after := InsertedAll(rows, values, n);
            && rows <= after && |after| <= |rows| + n
            && (forall i :: |rows| <= i < |after| ==> after[i] in values[..n] && !HasKey(rows, after[i].key))
            && (UniqueKeys(rows) ==> UniqueKeys(after))
  {
    if n > 0 {
      InsertedIs(rows, values, n - 1);
      var before, after := InsertedAll(rows, values, n - 1), InsertedAll(rows, values, n);
      assert values[..n] == values[..n - 1] + [values[n - 1]];
      if !HasKey(before, values[n - 1].key) {
        forall i | 0 <= i < |rows| ensures rows[i].key != values[n - 1].key {
          assert before[i] == rows[i];
        }
      }
    }
  }

  lemma {:induction false} InsertedHasKeyIff(rows: seq<Row>, values: seq<Row>, n: nat, key: string)
    requires n <= |values|
    ensures HasKey(InsertedAll(rows, values, n), key) <==> HasKey(rows, key) || HasKey(values[..n], key)
  {
    if n > 0 {
      InsertedHasKeyIff(rows, values, n - 1, key);
      assert values[..n] == values[..n - 1] + [values[n - 1]];
      HasKeyOneMore(values[..n - 1], values[n - 1], key);
      HasKeyOneMore(InsertedAll(rows, values, n - 1), values[n - 1], key);
    }
  }

  // Inserting the same values again, whenever and under whatever circumstances, inserts nothing.
  lemma {:induction false} InsertTwice(rows: seq<Row>, values: seq<Row>, again: seq<Row>, n: nat)
    requires n <= |again|
    requires forall i :: 0 <= i < n ==> HasKey(values, again[i].key)
    ensures InsertedAll(InsertedAll(rows, values, |values|), again, n) == InsertedAll(rows, values, |values|)
  {
    if n > 0 {
      InsertTwice(rows, values, again, n - 1);
      InsertedHasKeyIff(rows, values, |values|, again[n - 1].key);
      assert values[..|values|] == values;
    }
  }

  // How many rows carry a key.
  function Copies(rows: seq<Row>, key: string): nat {
    if rows == [] then 0
    else Copies(rows[..|rows| - 1], key) + if rows[|rows| - 1].key == key then 1 else 0
  }

  lemma {:induction false} CopiesIff(rows: seq<Row>, key: string)
    requires UniqueKeys(rows)
    ensures Copies(rows, key) == if HasKey(rows, key) then 1 else 0
  {
    if rows != [] {
      var front, last := rows[..|rows| - 1], rows[|rows| - 1];
      CopiesIff(front, key);
      HasKeyOneMore(front, last, key);
      assert rows == front + [last];
    }
  }

  ghost predicate AreValues(values: seq<Row>, candidates: seq<Candidate>, maxRetries: nat, at: int, now: int) {
    |values| == |candidates|
    && forall j :: 0 <= j < |values| ==> values[j] == ValueOf(candidates[j], maxRetries, at, now)
  }

  function Values(candidates: seq<Candidate>, maxRetries: nat, at: int, now: int): seq<Row> {
    seq(|candidates|, j requires 0 <= j < |candidates| => ValueOf(candidates[j], maxRetries, at, now))
  }

  class OutboxTable {
    var rows: seq<Row>

    constructor ()
      ensures rows == []
    {
      rows := [];
    }

    // Whatever is offered is either inserted or counted as a duplicate.
    method InsertOutboxMessages(candidates: seq<Candidate>, scheduledAt: Option<int>, maxRetries: nat := 3, now: int)
        returns (inserted: nat, duplicatesSkipped: nat)
      modifies this
      ensures var at := if scheduledAt.Some? then scheduledAt.value else now;
              rows == InsertedAll(old(rows), Values(candidates, maxRetries, at, now), |candidates|)
      ensures inserted == |rows| - |old(rows)| && inserted + duplicatesSkipped == |candidates|
      ensures old(UniqueKeys(rows)) ==> UniqueKeys(rows)
    {
      var at := if scheduledAt.Some? then scheduledAt.value else now;
      var values: seq<Row> := [];
      for i := 0 to |candidates|
        invariant AreValues(values, candidates[..i], maxRetries, at, now)
      {
        values := values + [ValueOf(candidates[i], maxRetries, at, now)];
      }
      assert values == Values(candidates, maxRetries, at, now);
      InsertedIs(rows, values, |values|);
      inserted := OnConflictDoNothing(values);
      duplicatesSkipped := |values| - inserted;
    }

    // The database's part: how many rows were really inserted.
    method OnConflictDoNothing(values: seq<Row>) returns (inserted: nat)
      modifies this
      ensures rows == InsertedAll(old(rows), values, |values|) && inserted == |rows| - |old(rows)|
    {
      inserted := 0;
      for n := 0 to |values|
        invariant rows == InsertedAll(old(rows), values, n) && inserted == |rows| - |old(rows)|
      {
        if !HasKey(rows, values[n].key) {
          rows := rows + [values[n]];
          inserted := inserted + 1;
        }
      }
    }
  }
}
