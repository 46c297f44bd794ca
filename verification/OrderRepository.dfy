/** The repository's transactions and the update handler that runs between them. */
module OrderRepository {
  import opened Prelude
  import opened CounterOrder
  import opened OrderConcurrency

  /** How a transaction's commit turns out: it may land although the call reports an error. */
  datatype CommitOutcome = Committed | RolledBack | Unconfirmed

  /** The tables before and after a handler that ran undisturbed over the lines it was given. */
  ghost predicate HandledOver(before: Tables, after: Tables, order: nat, itemType: int, lines: seq<LineItem>) {
    Exec(Sys(before, map[], {}), [Read(0, order, itemType, lines), Apply(0), Write(0)])
    == Some(Sys(after, map[], {(order, itemType)}))
  }

  predicate HasLine(db: Tables, order: nat, itemType: int) {
    exists id :: id in db.rows && db.rows[id].order == order && db.rows[id].line.itemType == itemType
  }

  lemma HandlesOver(db: Tables, order: nat, itemType: int, lines: seq<LineItem>)
    requires order in db.orders && lines != [] && Lists(db, order, lines)
    requires Deliver(OrderData(db.orders[order], lines), itemType).1
    ensures var (done, _) := Deliver(OrderData(db.orders[order], lines), itemType);
            HandledOver(db, Commit(db, order, done), order, itemType, lines)
  {
    hide Lists, Deliver, Commit, Exec;
    var data := OrderData(db.orders[order], lines);
    var done := Deliver(data, itemType).0;
    var s0 := Sys(db, map[], {});
    var s1 := s0.(handlers := map[0 := Handler(order, itemType, data, data, false)]);
    var s2 := s0.(handlers := map[0 := Handler(order, itemType, data, done, true)]);
    var s3 := Sys(Commit(db, order, done), map[], {(order, itemType)});
    assert s1.handlers[0 := s2.handlers[0]] == s2.handlers && s2.handlers - {0} == s3.handlers;
    assert s2.written + {(order, itemType)} == s3.written;
    var actions := [Read(0, order, itemType, lines), Apply(0), Write(0)];
    Unfold(s0, actions, s1);
    Unfold(s1, actions[1..], s2);
    Unfold(s2, actions[2..], s3);
    Unfolded(s3, actions[3..]);
  }

  lemma Unfold(s: Sys, actions: seq<Action>, next: Sys)
    requires actions != [] && Step(s, actions[0]) == Some(next)
    ensures Exec(s, actions) == Exec(next, actions[1..])
  {
  }

  lemma Unfolded(s: Sys, actions: seq<Action>)
    requires actions == []
    ensures Exec(s, actions) == Some(s)
  {
  }

  class OrderRepo {
    var db: Tables

    constructor ()
      ensures db == Tables(map[], map[])
    {
      db := Tables(map[], map[]);
    }

    /** Reads an order with its lines in no particular order; an order without lines cannot be scanned. */
    method GetByID(order: nat) returns (r: Option<Order>)
      requires Keyed(db) && order in db.orders
      ensures r.Some? ==> fresh(r.value) && r.value.lineItems != []
                          && r.value.status == db.orders[order] && Lists(db, order, r.value.lineItems)
      ensures r.None? ==> !HasRow(db, order)
    {
      var lines: seq<LineItem> := [];
      var ids := db.rows.Keys;
      while ids != {}
        invariant ids <= db.rows.Keys && DistinctLines(lines)
        invariant forall i :: 0 <= i < |lines| ==>
                    lines[i].id in db.rows && lines[i].id !in ids && db.rows[lines[i].id] == Row(order, lines[i])
        invariant forall id :: id in db.rows && id !in ids && db.rows[id].order == order ==>
                    exists i :: 0 <= i < |lines| && lines[i].id == id
        decreases |ids|
      {
        var id :| id in ids;
        ids := ids - {id};
        if db.rows[id].order == order {
          ghost var before := lines;
          lines := lines + [db.rows[id].line];
          assert lines[|before|].id == id && forall i :: 0 <= i < |before| ==> lines[i] == before[i];
        }
      }
      if lines == [] {
        return None;
      }
      var data := OrderData(db.orders[order], lines);
      var found := new Order(data);
      assert found.Data() == data;
      r := Some(found);
    }

    /** Inserts the order and its lines in one transaction. */
    method Create(order: nat, data: OrderData, commit: CommitOutcome) returns (ok: bool)
      modifies this
      ensures ok == commit.Committed?
      ensures db == if !commit.RolledBack?
                    then Tables(old(db.orders)[order := data.status], Inserted(old(db.rows), order, data.lines))
                    else old(db)
    {
      var orders := db.orders[order := data.status];
      var rows := db.rows;
      for i := 0 to |data.lines|
        invariant rows == Inserted(db.rows, order, data.lines[..i]) && db == old(db)
      {
        assert data.lines[..i + 1][..i] == data.lines[..i];
        rows := rows[data.lines[i].id := Row(order, data.lines[i])];
      }
      assert data.lines[..|data.lines|] == data.lines;
      if !commit.RolledBack? {
        db := Tables(orders, rows);
      }
      ok := commit.Committed?;
    }

    /** Writes the order's status and each line's status by line ID in one transaction. */
    method Update(order: nat, data: OrderData, commit: CommitOutcome) returns (ok: bool)
      modifies this
      ensures ok == commit.Committed?
      ensures db == if !commit.RolledBack? then Commit(old(db), order, data) else old(db)
    {
      var orders := if order in db.orders then db.orders[order := data.status] else db.orders;
      var rows := db.rows;
      for i := 0 to |data.lines|
        invariant rows == Updated(db.rows, data.lines[..i]) && db == old(db)
      {
        assert data.lines[..i + 1][..i] == data.lines[..i];
        var id := data.lines[i].id;
        if id in rows {
          rows := rows[id := rows[id].(line := rows[id].line.(status := data.lines[i].status))];
        }
      }
      assert data.lines[..|data.lines|] == data.lines;
      if !commit.RolledBack? {
        db := Tables(orders, rows);
      }
      ok := commit.Committed?;
    }

    /**
     * One update event: read, apply, write back. It succeeds exactly when the order has a
     * line of the type and the commit is confirmed; unless the commit landed, the tables
     * are left alone.
     */
    method Handle(order: nat, itemType: int, commit: CommitOutcome) returns (ok: bool)
      requires Keyed(db) && order in db.orders
      modifies this
      ensures HasLine(old(db), order, itemType) && !commit.RolledBack? ==>
                exists lines :: HandledOver(old(db), db, order, itemType, lines)
      ensures !HasLine(old(db), order, itemType) || commit.RolledBack? ==> db == old(db)
      ensures ok <==> HasLine(old(db), order, itemType) && commit.Committed?
    {
      var found := GetByID(order);
      if found.None? {
        return false;
      }
      var copy := found.value;
      ghost var lines, read := copy.lineItems, copy.Data();
      var accepted := copy.Apply(itemType);
      if !accepted {
        assert FirstOf(lines, itemType).None?;
        return false;
      }
      assert db.rows[lines[FirstOf(lines, itemType).value].id].line.itemType == itemType;
      HandlesOver(db, order, itemType, lines);
      ok := Update(order, OrderData(copy.status, copy.lineItems), commit);
      assert !commit.RolledBack? ==> db == Commit(old(db), order, Deliver(read, itemType).0);
    }
  }
}
