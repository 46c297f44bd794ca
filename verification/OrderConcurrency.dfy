/** Many event handlers reading, updating and writing back whole orders. */
module OrderConcurrency {
  import opened Prelude
  import opened CounterOrder

  datatype Row = Row(order: nat, line: LineItem)

  /** The orders and line_items tables; line IDs are the key of the second. */
  datatype Tables = Tables(orders: map<nat, Status>, rows: map<nat, Row>)

  /** A handler between its read and its write: the event, the order as read, and its private copy. */
  datatype Handler = Handler(order: nat, itemType: int, asRead: OrderData, copy: OrderData, applied: bool)

  /** `written` records the updates whose handlers committed. */
  datatype Sys = Sys(db: Tables, handlers: map<nat, Handler>, written: set<(nat, int)>)

  datatype Action =
    | Create(order: nat, data: OrderData)
    | Read(worker: nat, order: nat, itemType: int, lines: seq<LineItem>)
    | Apply(worker: nat)
    | Write(worker: nat)
    | Abandon(worker: nat)

  // ------------------------------------------------------------------------
  // The repository

  predicate DistinctLines(lines: seq<LineItem>) {
    forall i, j :: 0 <= i < j < |lines| ==> lines[i].id != lines[j].id
  }

  /** A query result: each row of the order once, in whatever order the database chose. */
  ghost predicate Lists(db: Tables, order: nat, lines: seq<LineItem>) {
    && DistinctLines(lines)
    && (forall i :: 0 <= i < |lines| ==> lines[i].id in db.rows && db.rows[lines[i].id] == Row(order, lines[i]))
    && (forall id :: id in db.rows && db.rows[id].order == order ==> exists i :: 0 <= i < |lines| && lines[i].id == id)
  }

  function Inserted(rows: map<nat, Row>, order: nat, lines: seq<LineItem>): map<nat, Row> {
    if lines == [] then rows
    else
      var n := |lines| - 1;
      Inserted(rows, order, lines[..n])[lines[n].id := Row(order, lines[n])]
  }

  /** One UPDATE per line, by line ID; only the status column changes. */
  function Updated(rows: map<nat, Row>, lines: seq<LineItem>): map<nat, Row> {
    if lines == [] then rows
    else
      var n := |lines| - 1;
      var before := Updated(rows, lines[..n]);
      var id := lines[n].id;
      if id in before then before[id := before[id].(line := before[id].line.(status := lines[n].status))] else before
  }

  /** The transaction that writes a whole order. */
  function Commit(db: Tables, order: nat, data: OrderData): Tables {
    Tables(if order in db.orders then db.orders[order := data.status] else db.orders, Updated(db.rows, data.lines))
  }

  ghost predicate Insertable(db: Tables, order: nat, data: OrderData) {
    && order !in db.orders
    && DistinctLines(data.lines)
    && (forall i :: 0 <= i < |data.lines| ==> data.lines[i].id !in db.rows)
    && Unstarted(data)
  }

  // ------------------------------------------------------------------------
  // Steps

  /**
   * The next state, or none when the action cannot happen. A read of an order without
   * lines fails to scan the joined NULL columns, so no handler ever holds an empty copy;
   * an update refused by the order ends its handler without a write.
   */
  ghost function Step(s: Sys, a: Action): Option<Sys> {
    match a
    case Create(order, data) =>
      if Insertable(s.db, order, data)
      then Some(s.(db := Tables(s.db.orders[order := data.status], Inserted(s.db.rows, order, data.lines))))
      else None
    case Read(w, order, t, lines) =>
      if w !in s.handlers && order in s.db.orders && lines != [] && Lists(s.db, order, lines)
      then
        var data := OrderData(s.db.orders[order], lines);
        Some(s.(handlers := s.handlers[w := Handler(order, t, data, data, false)]))
      else None
    case Apply(w) =>
      if w in s.handlers && !s.handlers[w].applied
      then
        var h := s.handlers[w];
        var (data, ok) := Deliver(h.copy, h.itemType);
        if ok then Some(s.(handlers := s.handlers[w := h.(copy := data, applied := true)]))
        else Some(s.(handlers := s.handlers - {w}))
      else None
    case Write(w) =>
      if w in s.handlers && s.handlers[w].applied
      then
        var h := s.handlers[w];
        Some(Sys(Commit(s.db, h.order, h.copy), s.handlers - {w}, s.written + {(h.order, h.itemType)}))
      else None
    case Abandon(w) => Some(s.(handlers := s.handlers - {w}))
  }

  ghost function Exec(s: Sys, actions: seq<Action>): Option<Sys>
    decreases |actions|
  {
    if actions == [] then Some(s)
    else
      match Step(s, actions[0])
      case None => None
      case Some(next) => Exec(next, actions[1..])
  }

  const EMPTY: Sys := Sys(Tables(map[], map[]), map[], {})

  // ------------------------------------------------------------------------
  // The invariant

  ghost predicate HasRow(db: Tables, order: nat) {
    exists id :: id in db.rows && db.rows[id].order == order
  }

  ghost predicate AllRowsFulfilled(db: Tables, order: nat) {
    forall id :: id in db.rows && db.rows[id].order == order ==> db.rows[id].line.status == Fulfilled
  }

  /** In every committed order with lines, the status is Fulfilled exactly when every line is. */
  ghost predicate StatusMatchesLines(db: Tables) {
    forall o :: o in db.orders && HasRow(db, o) ==> (db.orders[o] == Fulfilled <==> AllRowsFulfilled(db, o))
  }

  /** Every Fulfilled line's item type was in an update whose handler committed. */
  ghost predicate LinesWereWritten(db: Tables, written: set<(nat, int)>) {
    forall id :: id in db.rows && db.rows[id].line.status == Fulfilled ==>
      (db.rows[id].order, db.rows[id].line.itemType) in written
  }

  ghost predicate Keyed(db: Tables) {
    forall id :: id in db.rows ==> db.rows[id].line.id == id && db.rows[id].order in db.orders
  }

  /** The copy names exactly the order's rows; statuses may differ. */
  ghost predicate Covers(db: Tables, order: nat, lines: seq<LineItem>) {
    && DistinctLines(lines)
    && (forall i :: 0 <= i < |lines| ==>
          lines[i].id in db.rows && db.rows[lines[i].id].order == order
            && db.rows[lines[i].id].line.itemType == lines[i].itemType)
    && (forall id :: id in db.rows && db.rows[id].order == order ==> exists i :: 0 <= i < |lines| && lines[i].id == id)
  }

  ghost predicate DataJustified(data: OrderData, order: nat, written: set<(nat, int)>) {
    && (data.status == Fulfilled <==> AllFulfilled(data.lines))
    && (forall i :: 0 <= i < |data.lines| && data.lines[i].status == Fulfilled ==>
          (order, data.lines[i].itemType) in written)
  }

  ghost predicate HandlerJustified(db: Tables, written: set<(nat, int)>, h: Handler) {
    && h.order in db.orders
    && h.asRead.lines != [] && Covers(db, h.order, h.asRead.lines)
    && DataJustified(h.asRead, h.order, written)
    && (h.applied ==> Deliver(h.asRead, h.itemType) == (h.copy, true))
    && (!h.applied ==> h.copy == h.asRead)
  }

  ghost predicate Inv(s: Sys) {
    && Keyed(s.db) && StatusMatchesLines(s.db) && LinesWereWritten(s.db, s.written)
    && forall w :: w in s.handlers ==> HandlerJustified(s.db, s.written, s.handlers[w])
  }

  // ------------------------------------------------------------------------
  // What the two SQL loops do

  lemma UpdatedLast(rows: map<nat, Row>, lines: seq<LineItem>)
    requires lines != []
    ensures var before, last := Updated(rows, lines[..|lines| - 1]), lines[|lines| - 1];
            Updated(rows, lines) ==
            if last.id in before
            then before[last.id := before[last.id].(line := before[last.id].line.(status := last.status))] else before
  {
  }

  lemma {:induction false} UpdatedMeans(rows: map<nat, Row>, lines: seq<LineItem>)
    requires DistinctLines(lines)
    ensures Updated(rows, lines).Keys == rows.Keys
    ensures forall id :: id in rows && (forall i :: 0 <= i < |lines| ==> lines[i].id != id) ==>
              Updated(rows, lines)[id] == rows[id]
    ensures forall i :: 0 <= i < |lines| && lines[i].id in rows ==>
              Updated(rows, lines)[lines[i].id]
                == rows[lines[i].id].(line := rows[lines[i].id].line.(status := lines[i].status))
  {
    if lines != [] {
      var n := |lines| - 1;
      var head := lines[..n];
      UpdatedMeans(rows, head);
      hide Updated;
      UpdatedLast(rows, lines);
      assert forall i :: 0 <= i < n ==> head[i] == lines[i] && head[i].id != lines[n].id;
    }
  }

  lemma {:induction false} InsertedMeans(rows: map<nat, Row>, order: nat, lines: seq<LineItem>)
    requires DistinctLines(lines) && forall i :: 0 <= i < |lines| ==> lines[i].id !in rows
    ensures forall id :: id in Inserted(rows, order, lines) <==>
              id in rows || exists i :: 0 <= i < |lines| && lines[i].id == id
    ensures forall id :: id in rows ==>
              id in Inserted(rows, order, lines) && Inserted(rows, order, lines)[id] == rows[id]
    ensures forall i :: 0 <= i < |lines| ==>
              lines[i].id in Inserted(rows, order, lines)
                && Inserted(rows, order, lines)[lines[i].id] == Row(order, lines[i])
  {
    if lines != [] {
      var n := |lines| - 1;
      assert lines == lines[..n] + [lines[n]];
      InsertedMeans(rows, order, lines[..n]);
    }
  }

  // ------------------------------------------------------------------------
  // Every step keeps the invariant

  lemma CreateKeeps(s: Sys, next: Sys, order: nat, data: OrderData)
    requires Inv(s) && Step(s, Create(order, data)) == Some(next)
    ensures Inv(next)
  {
    hide Inserted, HasRow, AllRowsFulfilled, Covers, DataJustified;
    InsertedMeans(s.db.rows, order, data.lines);
    CreateKeepsOthers(s.db, next.db, order, data);
    forall w | w in next.handlers ensures HandlerJustified(next.db, next.written, next.handlers[w]) {
      CreateKeepsCover(s.db, next.db, order, data, s.handlers[w].order, s.handlers[w].asRead.lines);
    }
  }

  lemma CreateKeepsCover(db: Tables, after: Tables, order: nat, data: OrderData, o: nat, lines: seq<LineItem>)
    requires Insertable(db, order, data) && after.rows == Inserted(db.rows, order, data.lines)
    requires Covers(db, o, lines) && o in db.orders
    ensures Covers(after, o, lines)
  {
    hide Inserted;
    InsertedMeans(db.rows, order, data.lines);
  }

  lemma CreateKeepsOthers(db: Tables, after: Tables, order: nat, data: OrderData)
    requires Keyed(db) && Insertable(db, order, data) && StatusMatchesLines(db)
    requires after == Tables(db.orders[order := data.status], Inserted(db.rows, order, data.lines))
    ensures StatusMatchesLines(after)
  {
    hide Inserted;
    InsertedMeans(db.rows, order, data.lines);
    forall o | o in after.orders && HasRow(after, o)
      ensures after.orders[o] == Fulfilled <==> AllRowsFulfilled(after, o) {
      var id :| id in after.rows && after.rows[id].order == o;
      if o != order {
        assert id in db.rows;
        assert AllRowsFulfilled(db, o) <==> AllRowsFulfilled(after, o);
      }
    }
  }

  /** What was read satisfies the same link as the tables it was read from. */
  lemma ReadJustified(s: Sys, order: nat, lines: seq<LineItem>)
    requires Keyed(s.db) && StatusMatchesLines(s.db) && LinesWereWritten(s.db, s.written)
    requires order in s.db.orders && lines != [] && Lists(s.db, order, lines)
    ensures Covers(s.db, order, lines) && DataJustified(OrderData(s.db.orders[order], lines), order, s.written)
  {
    assert lines[0].id in s.db.rows;
    assert HasRow(s.db, order);
    if AllFulfilled(lines) {
      forall id | id in s.db.rows && s.db.rows[id].order == order ensures s.db.rows[id].line.status == Fulfilled {
        var i :| 0 <= i < |lines| && lines[i].id == id;
      }
      assert AllRowsFulfilled(s.db, order);
    }
    if AllRowsFulfilled(s.db, order) {
      assert AllFulfilled(lines);
    }
  }

  /** An accepted update keeps the copy's lines and link, and fulfils nothing but its own type. */
  lemma DeliverKeeps(o: OrderData, itemType: int, after: OrderData)
    requires o.lines != [] && Deliver(o, itemType) == (after, true)
    ensures |after.lines| == |o.lines|
    ensures forall i :: 0 <= i < |o.lines| ==> after.lines[i] == o.lines[i].(status := after.lines[i].status)
    ensures forall i :: 0 <= i < |o.lines| ==>
              after.lines[i].status == o.lines[i].status
              || (after.lines[i].itemType == itemType && after.lines[i].status == Fulfilled)
    ensures exists i :: 0 <= i < |o.lines| && after.lines[i].itemType == itemType && after.lines[i].status == Fulfilled
    ensures (o.status == Fulfilled <==> AllFulfilled(o.lines)) ==>
              (after.status == Fulfilled <==> AllFulfilled(after.lines))
  {
    var k := FirstOf(o.lines, itemType).value;
    assert after.lines[k].itemType == itemType;
    if AllFulfilled(o.lines) {
      assert AllFulfilled(after.lines);
    }
  }

  lemma CopyCovers(db: Tables, order: nat, lines: seq<LineItem>, copy: seq<LineItem>)
    requires Covers(db, order, lines) && |copy| == |lines|
    requires forall i :: 0 <= i < |lines| ==> copy[i].id == lines[i].id && copy[i].itemType == lines[i].itemType
    ensures Covers(db, order, copy)
  {
    forall id | id in db.rows && db.rows[id].order == order ensures exists i :: 0 <= i < |copy| && copy[i].id == id {
      var i :| 0 <= i < |lines| && lines[i].id == id;
      assert copy[i].id == id;
    }
  }

  /** After a commit the tables hold the copy for its order, and every other row as before. */
  lemma CommitMeans(db: Tables, order: nat, data: OrderData)
    requires order in db.orders && Covers(db, order, data.lines)
    ensures Commit(db, order, data).orders == db.orders[order := data.status]
    ensures Commit(db, order, data).rows.Keys == db.rows.Keys
    ensures forall id :: id in db.rows && db.rows[id].order != order ==> Commit(db, order, data).rows[id] == db.rows[id]
    ensures forall i :: 0 <= i < |data.lines| ==>
              Commit(db, order, data).rows[data.lines[i].id]
              == db.rows[data.lines[i].id].(line := db.rows[data.lines[i].id].line.(status := data.lines[i].status))
    ensures forall id :: id in db.rows ==>
              Commit(db, order, data).rows[id]
              == db.rows[id].(line := db.rows[id].line.(status := Commit(db, order, data).rows[id].line.status))
  {
    hide Updated;
    UpdatedMeans(db.rows, data.lines);
    forall id | id in db.rows
      ensures Commit(db, order, data).rows[id]
           == db.rows[id].(line := db.rows[id].line.(status := Commit(db, order, data).rows[id].line.status))
    {
      if db.rows[id].order == order {
        var i :| 0 <= i < |data.lines| && data.lines[i].id == id;
      }
    }
  }

  lemma CommitKeepsCover(db: Tables, order: nat, data: OrderData, o: nat, lines: seq<LineItem>)
    requires order in db.orders && Covers(db, order, data.lines) && Covers(db, o, lines)
    ensures Covers(Commit(db, order, data), o, lines)
  {
    hide Commit;
    CommitMeans(db, order, data);
  }

  lemma CommitMatches(db: Tables, order: nat, data: OrderData)
    requires StatusMatchesLines(db) && order in db.orders && Covers(db, order, data.lines)
    requires data.status == Fulfilled <==> AllFulfilled(data.lines)
    ensures StatusMatchesLines(Commit(db, order, data))
  {
    hide Commit;
    CommitMeans(db, order, data);
    var after := Commit(db, order, data);
    forall o | o in after.orders && HasRow(after, o)
      ensures after.orders[o] == Fulfilled <==> AllRowsFulfilled(after, o) {
      var id :| id in after.rows && after.rows[id].order == o;
      assert db.rows[id].order == o;
      if o != order {
        assert HasRow(db, o);
        assert AllRowsFulfilled(db, o) <==> AllRowsFulfilled(after, o);
      } else {
        CommitFulfils(db, order, data);
      }
    }
  }

  lemma CommitFulfils(db: Tables, order: nat, data: OrderData)
    requires order in db.orders && Covers(db, order, data.lines)
    ensures AllRowsFulfilled(Commit(db, order, data), order) <==> AllFulfilled(data.lines)
  {
    hide Commit;
    CommitMeans(db, order, data);
    var after := Commit(db, order, data);
    if AllFulfilled(data.lines) {
      forall id | id in after.rows && after.rows[id].order == order ensures after.rows[id].line.status == Fulfilled {
        var i :| 0 <= i < |data.lines| && data.lines[i].id == id;
      }
    }
    if AllRowsFulfilled(after, order) {
      forall i | 0 <= i < |data.lines| ensures data.lines[i].status == Fulfilled {
        assert after.rows[data.lines[i].id].order == order;
      }
    }
  }

  lemma CommitWritten(db: Tables, written: set<(nat, int)>, order: nat, data: OrderData)
    requires Keyed(db) && LinesWereWritten(db, written) && order in db.orders && Covers(db, order, data.lines)
    requires forall i :: 0 <= i < |data.lines| && data.lines[i].status == Fulfilled ==>
               (order, data.lines[i].itemType) in written
    ensures Keyed(Commit(db, order, data)) && LinesWereWritten(Commit(db, order, data), written)
  {
    hide Commit;
    CommitMeans(db, order, data);
    var after := Commit(db, order, data);
    forall id | id in after.rows && after.rows[id].line.status == Fulfilled
      ensures (after.rows[id].order, after.rows[id].line.itemType) in written
    {
      if db.rows[id].order == order {
        var i :| 0 <= i < |data.lines| && data.lines[i].id == id;
      }
    }
  }

  lemma WriteKeeps(s: Sys, next: Sys, w: nat)
    requires Inv(s) && Step(s, Write(w)) == Some(next)
    ensures Inv(next)
  {
    hide Covers, StatusMatchesLines, LinesWereWritten, Keyed, Deliver, Commit;
    var h := s.handlers[w];
    DeliverKeeps(h.asRead, h.itemType, h.copy);
    CopyCovers(s.db, h.order, h.asRead.lines, h.copy.lines);
    CommitMatches(s.db, h.order, h.copy);
    MoreWritten(s.db, s.written, next.written);
    CommitWritten(s.db, next.written, h.order, h.copy);
    CommitOrders(s.db, h.order, h.copy);
    forall v | v in next.handlers ensures HandlerJustified(next.db, next.written, next.handlers[v]) {
      CommitKeepsCover(s.db, h.order, h.copy, s.handlers[v].order, s.handlers[v].asRead.lines);
    }
  }

  /** What a write finds and does. */
  lemma WriteMeans(s: Sys, next: Sys, w: nat)
    requires Inv(s) && Step(s, Write(w)) == Some(next)
    ensures w in s.handlers
    ensures var h := s.handlers[w];
            && h.order in s.db.orders && h.asRead.lines != [] && Deliver(h.asRead, h.itemType) == (h.copy, true)
            && Covers(s.db, h.order, h.asRead.lines) && Covers(s.db, h.order, h.copy.lines)
            && |h.copy.lines| == |h.asRead.lines|
            && (forall i :: 0 <= i < |h.copy.lines| ==>
                  h.copy.lines[i] == h.asRead.lines[i].(status := h.copy.lines[i].status))
            && next == Sys(Commit(s.db, h.order, h.copy), s.handlers - {w}, s.written + {(h.order, h.itemType)})
  {
    hide StatusMatchesLines, LinesWereWritten, Keyed, DataJustified, Covers, Commit, Deliver;
    var h := s.handlers[w];
    DeliverKeeps(h.asRead, h.itemType, h.copy);
    CopyCovers(s.db, h.order, h.asRead.lines, h.copy.lines);
  }

  lemma CommitOrders(db: Tables, order: nat, data: OrderData)
    requires order in db.orders
    ensures Commit(db, order, data).orders.Keys == db.orders.Keys
  {
  }

  lemma MoreWritten(db: Tables, written: set<(nat, int)>, more: set<(nat, int)>)
    requires LinesWereWritten(db, written) && written <= more
    ensures LinesWereWritten(db, more)
  {
  }

  lemma ReadKeeps(s: Sys, next: Sys, a: Action)
    requires Inv(s) && a.Read? && Step(s, a) == Some(next)
    ensures Inv(next)
  {
    hide Covers, DataJustified, StatusMatchesLines, LinesWereWritten, Keyed, Lists, Deliver;
    ReadJustified(s, a.order, a.lines);
  }

  lemma StepKeeps(s: Sys, next: Sys, a: Action)
    requires Inv(s) && Step(s, a) == Some(next)
    ensures Inv(next)
  {
    hide StatusMatchesLines, LinesWereWritten, Keyed, Covers, DataJustified, Lists, Insertable, Commit, Inserted;
    match a
    case Create(order, data) => CreateKeeps(s, next, order, data);
    case Read(_, _, _, _) => ReadKeeps(s, next, a);
    case Apply(_) =>
    case Write(w) => WriteKeeps(s, next, w);
    case Abandon(_) =>
  }

  lemma {:induction false} ExecKeeps(s: Sys, actions: seq<Action>)
    requires Inv(s) && Exec(s, actions).Some?
    ensures Inv(Exec(s, actions).value)
    decreases |actions|
  {
    hide Inv, Step;
    if actions != [] {
      StepKeeps(s, Step(s, actions[0]).value, actions[0]);
      ExecKeeps(Step(s, actions[0]).value, actions[1..]);
    }
  }

  /**
   * For any number of handlers in any interleaving: a committed order with lines is
   * Fulfilled exactly when all its lines are, and every Fulfilled line's item type was in
   * an update whose handler committed.
   */
  lemma StatusLink(actions: seq<Action>)
    requires Exec(EMPTY, actions).Some?
    ensures var s := Exec(EMPTY, actions).value; StatusMatchesLines(s.db) && LinesWereWritten(s.db, s.written)
  {
    hide Exec;
    ExecKeeps(EMPTY, actions);
  }
}
