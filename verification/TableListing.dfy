// The outbox table, listed: the protocol knows a row by its id, the services walk over the rows one by one.
module TableListing {
  import opened Outbox

  ghost predicate Lists(table: map<nat, Row>, listing: seq<nat>, rows: seq<Row>) {
    && |listing| == |rows|
    && (forall i, j :: 0 <= i < j < |listing| ==> listing[i] != listing[j])
    && (forall id :: id in table <==> id in listing)
    && (forall i :: 0 <= i < |listing| ==> ListsAt(table, listing[i], rows[i]))
  }

  ghost predicate ListsAt(table: map<nat, Row>, id: nat, r: Row) {
    id in table && table[id] == r
  }

  lemma ListsOneTable(a: map<nat, Row>, b: map<nat, Row>, listing: seq<nat>, rows: seq<Row>)
    requires Lists(a, listing, rows) && Lists(b, listing, rows)
    ensures a == b
  {
    forall id | id in a ensures id in b && a[id] == b[id] {
      var i :| 0 <= i < |listing| && listing[i] == id;
      assert ListsAt(a, listing[i], rows[i]) && ListsAt(b, listing[i], rows[i]);
    }
  }

  // Another table with the same ids is listed by its own rows.
  lemma ListsRewritten(a: map<nat, Row>, b: map<nat, Row>, listing: seq<nat>, rows: seq<Row>, rows': seq<Row>)
    requires Lists(a, listing, rows) && b.Keys == a.Keys && |rows'| == |rows|
    requires forall i :: 0 <= i < |listing| && listing[i] in b ==> b[listing[i]] == rows'[i]
    ensures Lists(b, listing, rows')
  {
    forall i | 0 <= i < |listing| ensures ListsAt(b, listing[i], rows'[i]) {
      assert ListsAt(a, listing[i], rows[i]);
    }
  }

  lemma ListsAppended(table: map<nat, Row>, listing: seq<nat>, rows: seq<Row>, id: nat, r: Row)
    requires Lists(table, listing, rows) && id !in table
    ensures Lists(table[id := r], listing + [id], rows + [r])
  {
    var table', listing', rows' := table[id := r], listing + [id], rows + [r];
    forall i | 0 <= i < |listing'| ensures ListsAt(table', listing'[i], rows'[i]) {
      assert i < |listing| ==> ListsAt(table, listing[i], rows[i]);
    }
  }
}
