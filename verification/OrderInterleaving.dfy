/** Which updates survive when handlers of one order overlap, and when none is lost. */
module OrderInterleaving {
  import opened Prelude
  import opened CounterOrder
  import opened OrderConcurrency

  // ------------------------------------------------------------------------
  // Lines are conserved

  /** Every line is still there, unchanged but for its status, and no existing order gained one. */
  ghost predicate Extends(db: Tables, after: Tables) {
    && db.orders.Keys <= after.orders.Keys
    && (forall id :: id in db.rows ==>
          id in after.rows && after.rows[id]
            == db.rows[id].(line := db.rows[id].line.(status := after.rows[id].line.status)))
    && (forall id :: id in after.rows && id !in db.rows ==> after.rows[id].order !in db.orders)
  }

  lemma StepExtends(s: Sys, next: Sys, a: Action)
    requires Inv(s) && Step(s, a) == Some(next)
    ensures Extends(s.db, next.db)
  {
    hide StatusMatchesLines, LinesWereWritten, HandlerJustified, Covers, Commit, Inserted, Lists, Deliver;
    match a
    case Create(order, data) => InsertedMeans(s.db.rows, order, data.lines);
    case Write(w) =>
      WriteMeans(s, next, w);
      CommitMeans(s.db, s.handlers[w].order, s.handlers[w].copy);
    case Read(_, _, _, _) =>
    case Apply(_) =>
    case Abandon(_) =>
  }

  lemma {:induction false} LinesConserved(s: Sys, actions: seq<Action>)
    requires Inv(s) && Exec(s, actions).Some?
    ensures Extends(s.db, Exec(s, actions).value.db)
    decreases |actions|
  {
    hide Inv, Step;
    if actions != [] {
      var next := Step(s, actions[0]).value;
      StepExtends(s, next, actions[0]);
      StepKeeps(s, next, actions[0]);
      LinesConserved(next, actions[1..]);
    }
  }

  // ------------------------------------------------------------------------
  // Lost updates

  /** The line whose update the handler carries. */
  ghost predicate Carries(h: Handler, i: nat) {
    i < |h.asRead.lines| && FirstOf(h.asRead.lines, h.itemType) == Some(i)
  }

  lemma CopyStatus(h: Handler, i: nat)
    requires h.asRead.lines != [] && Deliver(h.asRead, h.itemType) == (h.copy, true) && i < |h.asRead.lines|
    ensures |h.copy.lines| == |h.asRead.lines|
    ensures h.copy.lines[i].status == if Carries(h, i) then Fulfilled else h.asRead.lines[i].status
  {
  }

  /** Where a committed row's new status comes from. */
  lemma WrittenRow(s: Sys, next: Sys, w: nat, id: nat) returns (i: nat)
    requires Inv(s) && Step(s, Write(w)) == Some(next)
    requires id in s.db.rows && s.db.rows[id].order == s.handlers[w].order
    ensures i < |s.handlers[w].asRead.lines| == |s.handlers[w].copy.lines| && s.handlers[w].asRead.lines[i].id == id
    ensures id in next.db.rows && next.db.rows[id].line.status == s.handlers[w].copy.lines[i].status
  {
    hide Inv, Step, Commit, Deliver;
    WriteMeans(s, next, w);
    var h := s.handlers[w];
    CommitMeans(s.db, h.order, h.copy);
    i :| i < |h.asRead.lines| && h.asRead.lines[i].id == id;
    assert h.copy.lines[i].id == id;
  }

  lemma OtherRow(s: Sys, next: Sys, w: nat, id: nat)
    requires Inv(s) && Step(s, Write(w)) == Some(next)
    requires id in s.db.rows && s.db.rows[id].order != s.handlers[w].order
    ensures id in next.db.rows && next.db.rows[id] == s.db.rows[id]
    ensures forall i :: 0 <= i < |s.handlers[w].asRead.lines| ==> s.handlers[w].asRead.lines[i].id != id
  {
    hide Inv, Step, Commit, Deliver;
    WriteMeans(s, next, w);
    CommitMeans(s.db, s.handlers[w].order, s.handlers[w].copy);
  }

  lemma ReadOnce(s: Sys, w: nat, i: nat, j: nat)
    requires Inv(s) && w in s.handlers
    requires i < |s.handlers[w].asRead.lines| && j < |s.handlers[w].asRead.lines|
    requires s.handlers[w].asRead.lines[i].id == s.handlers[w].asRead.lines[j].id
    ensures i == j
  {
    assert HandlerJustified(s.db, s.written, s.handlers[w]);
  }

  /**
   * A write takes a committed line back from Fulfilled exactly when the handler read that
   * line before it was Fulfilled and its own update is about another line.
   */
  lemma WriteReverts(s: Sys, next: Sys, w: nat, id: nat)
    requires Inv(s) && Step(s, Write(w)) == Some(next)
    requires id in s.db.rows && s.db.rows[id].line.status == Fulfilled
    ensures id in next.db.rows
    ensures next.db.rows[id].line.status != Fulfilled <==>
            exists i: nat :: i < |s.handlers[w].asRead.lines| && s.handlers[w].asRead.lines[i].id == id
              && s.handlers[w].asRead.lines[i].status != Fulfilled && !Carries(s.handlers[w], i)
  {
    hide StatusMatchesLines, LinesWereWritten, Keyed, Commit, DataJustified, Deliver, Covers, Carries;
    var h := s.handlers[w];
    if s.db.rows[id].order == h.order {
      assert HandlerJustified(s.db, s.written, h);
      var k := WrittenRow(s, next, w, id);
      CopyStatus(h, k);
      forall i: nat | i < |h.asRead.lines| && h.asRead.lines[i].id == id ensures i == k {
        ReadOnce(s, w, i, k);
      }
    } else {
      OtherRow(s, next, w, id);
    }
  }

  /** The tables still hold what the handler read. */
  ghost predicate Current(db: Tables, h: Handler) {
    h.order in db.orders && db.orders[h.order] == h.asRead.status && Lists(db, h.order, h.asRead.lines)
  }

  /** When nothing was written to the order since the read, a write is one serial update of the committed order. */
  lemma CurrentWriteIsSerial(s: Sys, next: Sys, w: nat)
    requires Inv(s) && Step(s, Write(w)) == Some(next) && Current(s.db, s.handlers[w])
    ensures var h := s.handlers[w];
            && Deliver(h.asRead, h.itemType) == (h.copy, true)
            && h.order in next.db.orders && next.db.orders[h.order] == h.copy.status
            && Lists(next.db, h.order, h.copy.lines)
  {
    hide Inv, Step, Commit, Deliver;
    WriteMeans(s, next, w);
    CommitMeans(s.db, s.handlers[w].order, s.handlers[w].copy);
  }

  // ------------------------------------------------------------------------
  // Runs in which handlers of one order take turns

  predicate NoOverlap(s: Sys, a: Action) {
    a.Read? ==> forall w :: w in s.handlers ==> s.handlers[w].order != a.order
  }

  ghost predicate TakesTurns(s: Sys, actions: seq<Action>)
    requires Exec(s, actions).Some?
    decreases |actions|
  {
    actions == [] || (NoOverlap(s, actions[0]) && TakesTurns(Step(s, actions[0]).value, actions[1..]))
  }

  /** No two lines of the order share an item type. */
  ghost predicate TypesDiffer(db: Tables, order: nat) {
    forall a, b :: a in db.rows && b in db.rows && a != b && db.rows[a].order == order && db.rows[b].order == order
      ==> db.rows[a].line.itemType != db.rows[b].line.itemType
  }

  ghost predicate UpdatesKept(s: Sys) {
    forall id :: id in s.db.rows && TypesDiffer(s.db, s.db.rows[id].order)
                 && (s.db.rows[id].order, s.db.rows[id].line.itemType) in s.written
      ==> s.db.rows[id].line.status == Fulfilled
  }

  ghost predicate TurnsInv(s: Sys) {
    && (forall w :: w in s.handlers ==> Current(s.db, s.handlers[w]))
    && (forall v, w :: v in s.handlers && w in s.handlers && v != w ==> s.handlers[v].order != s.handlers[w].order)
    && (forall p :: p in s.written ==> p.0 in s.db.orders)
    && UpdatesKept(s)
  }

  lemma SameTypesDiffer(db: Tables, after: Tables, order: nat)
    requires Extends(db, after) && order in db.orders
    ensures TypesDiffer(db, order) <==> TypesDiffer(after, order)
  {
    if TypesDiffer(after, order) {
      forall a, b | a in db.rows && b in db.rows && a != b && db.rows[a].order == order && db.rows[b].order == order
        ensures db.rows[a].line.itemType != db.rows[b].line.itemType
      {
        assert after.rows[a].order == order && after.rows[b].order == order;
      }
    }
  }

  /** Another order's rows do not disturb what a handler read. */
  lemma StaysCurrent(db: Tables, after: Tables, h: Handler)
    requires Extends(db, after) && Current(db, h) && after.orders[h.order] == db.orders[h.order]
    requires forall id :: id in db.rows && db.rows[id].order == h.order ==> after.rows[id] == db.rows[id]
    ensures Current(after, h)
  {
  }

  lemma CreateTurns(s: Sys, next: Sys, order: nat, data: OrderData)
    requires Inv(s) && TurnsInv(s) && Step(s, Create(order, data)) == Some(next)
    ensures TurnsInv(next)
  {
    hide StatusMatchesLines, LinesWereWritten, DataJustified, Covers, Inserted, Current, TypesDiffer, Extends;
    StepExtends(s, next, Create(order, data));
    InsertedMeans(s.db.rows, order, data.lines);
    forall w | w in next.handlers ensures Current(next.db, next.handlers[w]) {
      StaysCurrent(s.db, next.db, s.handlers[w]);
    }
    forall id | id in next.db.rows && TypesDiffer(next.db, next.db.rows[id].order)
                && (next.db.rows[id].order, next.db.rows[id].line.itemType) in next.written
      ensures next.db.rows[id].line.status == Fulfilled
    {
      if id in s.db.rows {
        SameTypesDiffer(s.db, next.db, s.db.rows[id].order);
      }
    }
  }

  lemma WriteTurns(s: Sys, next: Sys, w: nat)
    requires Inv(s) && TurnsInv(s) && Step(s, Write(w)) == Some(next)
    ensures TurnsInv(next)
  {
    hide Inv, Step, Covers, Commit, Current, TypesDiffer, Extends, Deliver, UpdatesKept;
    StepExtends(s, next, Write(w));
    WriteMeans(s, next, w);
    var h := s.handlers[w];
    CommitMeans(s.db, h.order, h.copy);
    forall v | v in next.handlers ensures Current(next.db, next.handlers[v]) {
      StaysCurrent(s.db, next.db, s.handlers[v]);
    }
    WriteKeepsUpdates(s, next, w);
  }

  lemma WriteKeepsUpdates(s: Sys, next: Sys, w: nat)
    requires Inv(s) && TurnsInv(s) && Step(s, Write(w)) == Some(next)
    ensures UpdatesKept(next)
  {
    hide Step, StatusMatchesLines, LinesWereWritten, HandlerJustified, Covers, Commit, Current, TypesDiffer, Extends,
         Deliver;
    StepExtends(s, next, Write(w));
    WriteMeans(s, next, w);
    var h := s.handlers[w];
    CommitMeans(s.db, h.order, h.copy);
    forall id | id in next.db.rows && TypesDiffer(next.db, next.db.rows[id].order)
                && (next.db.rows[id].order, next.db.rows[id].line.itemType) in next.written
      ensures next.db.rows[id].line.status == Fulfilled
    {
      SameTypesDiffer(s.db, next.db, s.db.rows[id].order);
      if s.db.rows[id].order == h.order {
        LineAfterWrite(s, next, w, id);
      }
    }
  }

  /** The line the update is about is Fulfilled after the write. */
  lemma OwnLineWritten(db: Tables, h: Handler, id: nat)
    requires h.asRead.lines != [] && Deliver(h.asRead, h.itemType) == (h.copy, true)
    requires Lists(db, h.order, h.copy.lines) && TypesDiffer(db, h.order)
    requires id in db.rows && db.rows[id].order == h.order && db.rows[id].line.itemType == h.itemType
    ensures db.rows[id].line.status == Fulfilled
  {
    hide Deliver;
    DeliverKeeps(h.asRead, h.itemType, h.copy);
    var k :| 0 <= k < |h.asRead.lines| && h.copy.lines[k].itemType == h.itemType && h.copy.lines[k].status == Fulfilled;
    assert db.rows[h.copy.lines[k].id] == Row(h.order, h.copy.lines[k]);
    assert h.copy.lines[k].id == id;
  }

  /** Any other line that was Fulfilled when the handler read it still is. */
  lemma OtherLineWritten(before: Tables, db: Tables, h: Handler, id: nat)
    requires h.asRead.lines != [] && Deliver(h.asRead, h.itemType) == (h.copy, true)
    requires Lists(before, h.order, h.asRead.lines) && Lists(db, h.order, h.copy.lines)
    requires id in before.rows && before.rows[id].order == h.order && before.rows[id].line.status == Fulfilled
    requires id in db.rows && db.rows[id].order == h.order
    ensures db.rows[id].line.status == Fulfilled
  {
    hide Deliver;
    DeliverKeeps(h.asRead, h.itemType, h.copy);
    var i :| 0 <= i < |h.asRead.lines| && h.asRead.lines[i].id == id;
    assert before.rows[id] == Row(h.order, h.asRead.lines[i]);
    assert h.copy.lines[i].id == id && db.rows[id] == Row(h.order, h.copy.lines[i]);
  }

  lemma LineAfterWrite(s: Sys, next: Sys, w: nat, id: nat)
    requires Inv(s) && TurnsInv(s) && Step(s, Write(w)) == Some(next)
    requires id in next.db.rows && id in s.db.rows && next.db.rows[id].order == s.db.rows[id].order
    requires s.db.rows[id].order == s.handlers[w].order
    requires TypesDiffer(next.db, s.handlers[w].order) && TypesDiffer(s.db, s.handlers[w].order)
    requires (next.db.rows[id].order, next.db.rows[id].line.itemType) in next.written
    requires next.db.rows[id].line.itemType == s.db.rows[id].line.itemType
    ensures next.db.rows[id].line.status == Fulfilled
  {
    hide Inv, Step, Covers, Commit, Deliver, Lists, TypesDiffer;
    WriteMeans(s, next, w);
    var h := s.handlers[w];
    CurrentWriteIsSerial(s, next, w);
    if next.db.rows[id].line.itemType == h.itemType {
      OwnLineWritten(next.db, h, id);
    } else {
      assert (s.db.rows[id].order, s.db.rows[id].line.itemType) in s.written;
      OtherLineWritten(s.db, next.db, h, id);
    }
  }

  lemma StepTurns(s: Sys, next: Sys, a: Action)
    requires Inv(s) && TurnsInv(s) && NoOverlap(s, a) && Step(s, a) == Some(next)
    ensures TurnsInv(next)
  {
    hide Inv, Commit, Inserted, Deliver, TypesDiffer, Lists, Insertable;
    match a
    case Create(order, data) => CreateTurns(s, next, order, data);
    case Write(w) => WriteTurns(s, next, w);
    case Read(_, _, _, _) =>
    case Apply(_) =>
    case Abandon(_) =>
  }

  lemma {:induction false} TurnsKeep(s: Sys, actions: seq<Action>)
    requires Inv(s) && TurnsInv(s) && Exec(s, actions).Some? && TakesTurns(s, actions)
    ensures TurnsInv(Exec(s, actions).value)
    decreases |actions|
  {
    hide Inv, TurnsInv, Step, NoOverlap;
    if actions != [] {
      var next := Step(s, actions[0]).value;
      StepKeeps(s, next, actions[0]);
      StepTurns(s, next, actions[0]);
      TurnsKeep(next, actions[1..]);
    }
  }

  /**
   * When handlers of one order never overlap, no committed update is lost: in an order
   * with distinct item types a line is Fulfilled exactly when an update of its type was
   * committed, and the order is Fulfilled exactly when one was for every line.
   */
  lemma TurnsLoseNothing(actions: seq<Action>, order: nat)
    requires Exec(EMPTY, actions).Some? && TakesTurns(EMPTY, actions)
    requires var db := Exec(EMPTY, actions).value.db; order in db.orders && HasRow(db, order) && TypesDiffer(db, order)
    ensures var s := Exec(EMPTY, actions).value;
            && (forall id :: id in s.db.rows && s.db.rows[id].order == order ==>
                  (s.db.rows[id].line.status == Fulfilled <==> (order, s.db.rows[id].line.itemType) in s.written))
            && (s.db.orders[order] == Fulfilled <==>
                forall id :: id in s.db.rows && s.db.rows[id].order == order ==>
                  (order, s.db.rows[id].line.itemType) in s.written)
  {
    hide Exec, TypesDiffer, HasRow, TakesTurns;
    StatusLink(actions);
    TurnsKeep(EMPTY, actions);
  }

  // ------------------------------------------------------------------------
  // Without turns an update can be lost

  function SampleLine(id: nat, itemType: int, status: Status): LineItem {
    LineItem(id, itemType, "", 1.0, status, true)
  }

  function SampleRows(a: Status, b: Status): map<nat, Row> {
    map[10 := Row(1, SampleLine(10, 1, a)), 11 := Row(1, SampleLine(11, 2, b))]
  }

  function SampleData(status: Status, a: Status, b: Status): OrderData {
    OrderData(status, [SampleLine(10, 1, a), SampleLine(11, 2, b)])
  }

  function SampleHandler(itemType: int, applied: bool): Handler
    requires itemType in {1, 2}
  {
    var read := SampleData(InProcess, InProcess, InProcess);
    Handler(1, itemType, read,
            if !applied then read
            else if itemType == 1 then SampleData(InProcess, Fulfilled, InProcess)
            else SampleData(InProcess, InProcess, Fulfilled),
            applied)
  }

  lemma SampleApply(itemType: int)
    requires itemType in {1, 2}
    ensures Deliver(SampleHandler(itemType, false).copy, itemType) == (SampleHandler(itemType, true).copy, true)
  {
    var lines := SampleHandler(itemType, false).copy.lines;
    assert lines[1..] == [lines[1]];
    assert FirstOf(lines, itemType) == Some(itemType - 1);
    var after := lines[itemType - 1 := lines[itemType - 1].(status := Fulfilled)];
    assert after[2 - itemType].status == InProcess;
    assert after == SampleHandler(itemType, true).copy.lines;
  }

  lemma SampleCommit(rows: map<nat, Row>, a: Status, b: Status)
    requires rows.Keys == {10, 11} && rows[10].line == SampleLine(10, 1, rows[10].line.status) && rows[10].order == 1
    requires rows[11].line == SampleLine(11, 2, rows[11].line.status) && rows[11].order == 1
    ensures Updated(rows, [SampleLine(10, 1, a), SampleLine(11, 2, b)]) == SampleRows(a, b)
  {
    hide Updated;
    var lines := [SampleLine(10, 1, a), SampleLine(11, 2, b)];
    UpdatedMeans(rows, lines);
    assert lines[0].id == 10 && lines[1].id == 11;
  }

  lemma SampleInsert()
    ensures Insertable(EMPTY.db, 1, SampleData(InProcess, InProcess, InProcess))
    ensures Inserted(map[], 1, SampleData(InProcess, InProcess, InProcess).lines) == SampleRows(InProcess, InProcess)
  {
    hide Inserted;
    var lines := SampleData(InProcess, InProcess, InProcess).lines;
    InsertedMeans(map[], 1, lines);
    assert lines[0].id == 10 && lines[1].id == 11;
  }

  lemma SampleListed(db: Tables)
    requires db.rows == SampleRows(InProcess, InProcess)
    ensures Lists(db, 1, SampleData(InProcess, InProcess, InProcess).lines)
  {
    var lines := SampleData(InProcess, InProcess, InProcess).lines;
    assert lines[0].id == 10 && lines[1].id == 11;
  }

  /** The tables with both handlers at the given points. */
  function SampleSys(status: Status, a: Status, b: Status, handlers: map<nat, Handler>, written: set<(nat, int)>): Sys {
    Sys(Tables(map[1 := status], SampleRows(a, b)), handlers, written)
  }

  lemma ExecOne(s: Sys, actions: seq<Action>, next: Sys)
    requires actions != [] && Step(s, actions[0]) == Some(next)
    ensures Exec(s, actions) == Exec(next, actions[1..])
  {
  }

  /** Both handlers read the new order before either writes. */
  lemma SampleReads(actions: seq<Action>)
    requires var data := SampleData(InProcess, InProcess, InProcess);
             |actions| >= 3 && actions[..3] == [Create(1, data), Read(1, 1, 1, data.lines), Read(2, 1, 2, data.lines)]
    ensures Exec(EMPTY, actions) == Exec(SampleOpen(false, false), actions[3..])
  {
    hide Lists, Insertable, Inserted, Exec;
    var s1 := SampleSys(InProcess, InProcess, InProcess, map[], {});
    var s2 := s1.(handlers := map[1 := SampleHandler(1, false)]);
    SampleInsert();
    SampleListed(s1.db);
    assert s2.handlers[2 := SampleHandler(2, false)] == SampleOpen(false, false).handlers;
    assert actions[0] == actions[..3][0] && actions[1] == actions[..3][1] && actions[2] == actions[..3][2];
    ExecOne(EMPTY, actions, s1);
    ExecOne(s1, actions[1..], s2);
    ExecOne(s2, actions[2..], SampleOpen(false, false));
  }

  /** The order with both handlers open. */
  function SampleOpen(first: bool, second: bool): Sys {
    SampleSys(InProcess, InProcess, InProcess, map[1 := SampleHandler(1, first), 2 := SampleHandler(2, second)], {})
  }

  lemma SampleApplies(actions: seq<Action>)
    requires |actions| >= 2 && actions[..2] == [Apply(1), Apply(2)]
    ensures Exec(SampleOpen(false, false), actions) == Exec(SampleOpen(true, true), actions[2..])
  {
    hide Deliver, Updated, Exec;
    var s3, s4, s5 := SampleOpen(false, false), SampleOpen(true, false), SampleOpen(true, true);
    SampleApply(1);
    SampleApply(2);
    assert s3.handlers[1 := SampleHandler(1, true)] == s4.handlers;
    assert s4.handlers[2 := SampleHandler(2, true)] == s5.handlers;
    assert actions[0] == actions[..2][0] && actions[1] == actions[..2][1];
    ExecOne(s3, actions, s4);
    ExecOne(s4, actions[1..], s5);
  }

  /** The first of two open handlers commits. */
  lemma SampleWrites(actions: seq<Action>)
    requires actions == [Write(1)]
    ensures Exec(SampleOpen(true, true), actions)
            == Some(SampleSys(InProcess, Fulfilled, InProcess, map[2 := SampleHandler(2, true)], {(1, 1)}))
  {
    hide Deliver, Updated, Exec;
    var s5 := SampleOpen(true, true);
    var s6 := SampleSys(InProcess, Fulfilled, InProcess, map[2 := SampleHandler(2, true)], {(1, 1)});
    SampleCommit(s5.db.rows, Fulfilled, InProcess);
    assert s5.handlers - {1} == s6.handlers && s5.db.orders[1 := InProcess] == s6.db.orders;
    assert s5.written + {(1, 1)} == s6.written && Commit(s5.db, 1, SampleHandler(1, true).copy) == s6.db;
    ExecOne(s5, actions, s6);
    ExecNone(s6, actions[1..]);
  }

  /** The overlapping part: both handlers read, then the first commits. */
  lemma SampleFirst(actions: seq<Action>)
    requires var data := SampleData(InProcess, InProcess, InProcess);
             actions == [Create(1, data), Read(1, 1, 1, data.lines), Read(2, 1, 2, data.lines)]
                        + [Apply(1), Apply(2), Write(1)]
    ensures Exec(EMPTY, actions)
            == Some(SampleSys(InProcess, Fulfilled, InProcess, map[2 := SampleHandler(2, true)], {(1, 1)}))
  {
    hide Exec, SampleSys, SampleOpen;
    SampleReads(actions);
    SampleApplies(actions[3..]);
    assert actions[3..][2..] == [Write(1)];
    SampleWrites(actions[3..][2..]);
  }

  lemma ExecNone(s: Sys, actions: seq<Action>)
    requires actions == []
    ensures Exec(s, actions) == Some(s)
  {
  }

  lemma {:induction false} ExecAppend(s: Sys, first: seq<Action>, last: Action)
    requires Exec(s, first).Some?
    ensures Exec(s, first + [last]) == Step(Exec(s, first).value, last)
    decreases |first|
  {
    hide Step;
    if first == [] {
      assert first + [last] == [last];
    } else {
      assert (first + [last])[1..] == first[1..] + [last];
      ExecAppend(Step(s, first[0]).value, first[1..], last);
    }
  }

  /** Two handlers of a two-line order overlap: both updates commit, and the first is undone. */
  lemma OverlapLosesUpdate() returns (first: seq<Action>, last: Action, order: nat, id: nat)
    ensures Exec(EMPTY, first).Some? && id in Exec(EMPTY, first).value.db.rows
    ensures Exec(EMPTY, first).value.db.rows[id].line.status == Fulfilled
    ensures Exec(EMPTY, first + [last]).Some?
    ensures var s := Exec(EMPTY, first + [last]).value;
            && id in s.db.rows && s.db.rows[id].order == order && TypesDiffer(s.db, order)
            && (order, s.db.rows[id].line.itemType) in s.written && s.db.rows[id].line.status == InProcess
  {
    hide Deliver, Updated, Exec;
    order, id, last := 1, 10, Write(2);
    var data := SampleData(InProcess, InProcess, InProcess);
    first := [Create(1, data), Read(1, 1, 1, data.lines), Read(2, 1, 2, data.lines), Apply(1), Apply(2), Write(1)];
    SampleFirst(first);
    ExecAppend(EMPTY, first, last);
    var mid := Exec(EMPTY, first).value;
    SampleCommit(mid.db.rows, InProcess, Fulfilled);
  }
}
