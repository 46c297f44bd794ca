/**
 * The marker table kept in the source database by the restore drill, its
 * transactions, and point-in-time snapshots of the database.
 */
module Markers {
  import opened Prelude

  type Time = int
  type Key = (string, string)  // drill_id, marker_name: the primary key
  type Table = map<Key, string>

  /** `markers` is None while the schema platform_restore_drill is absent. */
  datatype Db = Db(markers: Option<Table>, tables: set<string>)

  datatype Tx =
    | InsertMarker(drill: string, name: string, payload: string, create: bool)
    | CleanupDrill(drill: string)
    | CreateTable(table: string)
    | DropTable(table: string)

  datatype Commit = Commit(time: Time, tx: Tx)

  const EXPECTED_TABLES: set<string> :=
    {"barista.barista_orders", "kitchen.kitchen_orders", "order.line_items", "order.orders"}

  function MarkerChecksum(drill: string, name: string, payload: string): Digest {
    Sha256(drill + ['\0'] + name + ['\0'] + payload)
  }

  lemma ChecksumBindsPayload(drill: string, name: string, p: string, q: string)
    ensures MarkerChecksum(drill, name, p) == MarkerChecksum(drill, name, q) <==> p == q
  {
    var head := drill + ['\0'] + name + ['\0'];
    assert (head + p)[|head|..] == p && (head + q)[|head|..] == q;
  }

  lemma HeadsApart(a: string, b: string, c: string, d: string)
    requires '\0' !in a && '\0' !in c && a + ['\0'] + b == c + ['\0'] + d
    ensures a == c && b == d
  {
    var x, y := a + ['\0'] + b, c + ['\0'] + d;
    assert x[|a|] == '\0' && y[|c|] == '\0';
    assert forall k :: 0 <= k < |c| ==> y[k] == c[k];
    assert forall k :: 0 <= k < |a| ==> x[k] == a[k];
    assert x[..|a|] == a && y[..|c|] == c && x[|a| + 1..] == b && y[|c| + 1..] == d;
  }

  /** The NUL separators keep drill, marker and payload apart, so a checksum names its marker too. */
  lemma ChecksumBindsMarker(d: string, n: string, p: string, e: string, m: string, q: string)
    requires '\0' !in d && '\0' !in n && '\0' !in e && '\0' !in m
    ensures MarkerChecksum(d, n, p) == MarkerChecksum(e, m, q) <==> d == e && n == m && p == q
  {
    if MarkerChecksum(d, n, p) == MarkerChecksum(e, m, q) {
      assert d + ['\0'] + n + ['\0'] + p == d + ['\0'] + (n + ['\0'] + p);
      assert e + ['\0'] + m + ['\0'] + q == e + ['\0'] + (m + ['\0'] + q);
      HeadsApart(d, n + ['\0'] + p, e, m + ['\0'] + q);
      HeadsApart(n, p, m, q);
    }
  }

  /** One transaction; None when it fails and rolls back. */
  function ApplyTx(db: Db, tx: Tx): Option<Db> {
    match tx
    case InsertMarker(d, n, p, create) =>
      var open := if create && db.markers.None? then Some(map[]) else db.markers;
      if open.None? then None
      else if (d, n) !in open.value then Some(db.(markers := Some(open.value[(d, n) := p])))
      else if open.value[(d, n)] == p then Some(db.(markers := open))
      else None
    case CleanupDrill(d) =>
      if db.markers.None? then Some(db)
      else
        var rest := map k | k in db.markers.value && k.0 != d :: db.markers.value[k];
        Some(db.(markers := if rest == map[] then None else Some(rest)))
    case CreateTable(t) => Some(db.(tables := db.tables + {t}))
    case DropTable(t) => Some(db.(tables := db.tables - {t}))
  }

  const EMPTY_DB := Db(None, {})

  /** The database after every commit of the log. */
  function Replay(log: seq<Commit>): Db {
    if log == [] then EMPTY_DB
    else
      var before := Replay(log[..|log| - 1]);
      match ApplyTx(before, log[|log| - 1].tx)
      case Some(after) => after
      case None => before
  }

  lemma ReplayAppend(log: seq<Commit>, c: Commit)
    ensures Replay(log + [c]) == match ApplyTx(Replay(log), c.tx) case Some(after) => after case None => Replay(log)
  {
    assert (log + [c])[..|log|] == log;
  }

  /** Only transactions that succeeded are in the log. */
  ghost predicate Committed(log: seq<Commit>) {
    forall i :: 0 <= i < |log| ==> ApplyTx(Replay(log[..i]), log[i].tx).Some?
  }

  ghost predicate TimesIncrease(log: seq<Commit>) {
    forall i, j :: 0 <= i < j < |log| ==> log[i].time < log[j].time
  }

  /** The commits a restore to time t replays. */
  function UpTo(log: seq<Commit>, t: Time): seq<Commit> {
    if log == [] || log[|log| - 1].time <= t then log else UpTo(log[..|log| - 1], t)
  }

  function SnapshotAt(log: seq<Commit>, t: Time): Db {
    Replay(UpTo(log, t))
  }

  predicate Inserts(c: Commit, drill: string, name: string) {
    c.tx.InsertMarker? && c.tx.drill == drill && c.tx.name == name
  }

  predicate Cleans(c: Commit, drill: string) {
    c.tx.CleanupDrill? && c.tx.drill == drill
  }

  /** When the marker was first committed. */
  function CommitTime(log: seq<Commit>, drill: string, name: string): (r: Option<Time>)
    ensures r.Some? <==> exists i :: 0 <= i < |log| && Inserts(log[i], drill, name)
  {
    if log == [] then None
    else
      var prev := CommitTime(log[..|log| - 1], drill, name);
      assert forall i :: 0 <= i < |log| - 1 ==> log[..|log| - 1][i] == log[i];
      if prev.Some? then prev
      else if Inserts(log[|log| - 1], drill, name) then Some(log[|log| - 1].time)
      else None
  }

  ghost predicate NeverCleaned(log: seq<Commit>, drill: string) {
    forall i :: 0 <= i < |log| ==> !Cleans(log[i], drill)
  }

  predicate HasMarker(db: Db, drill: string, name: string) {
    db.markers.Some? && (drill, name) in db.markers.value
  }

  /** The verdict of the validation job on a database. */
  predicate Validates(db: Db, drill: string, expected: Digest) {
    && HasMarker(db, drill, "A")
    && !HasMarker(db, drill, "B")
    && MarkerChecksum(drill, "A", db.markers.value[(drill, "A")]) == expected
    && EXPECTED_TABLES <= db.tables
  }

  // ------------------------------------------------------------------------
  // Snapshots

  lemma {:induction false} UpToIsPrefix(log: seq<Commit>, t: Time)
    requires TimesIncrease(log)
    ensures UpTo(log, t) <= log
    ensures forall i :: 0 <= i < |UpTo(log, t)| ==> log[i].time <= t
    ensures forall i :: |UpTo(log, t)| <= i < |log| ==> log[i].time > t
  {
    if log != [] {
      if log[|log| - 1].time > t {
        UpToIsPrefix(log[..|log| - 1], t);
      }
    }
  }

  /** Later commits never change an earlier snapshot. */
  lemma {:induction false} SnapshotFrozen(log: seq<Commit>, more: seq<Commit>, t: Time)
    requires forall i :: 0 <= i < |more| ==> more[i].time > t
    ensures SnapshotAt(log + more, t) == SnapshotAt(log, t)
  {
    if more == [] {
      assert log + more == log;
    } else {
      var all := log + more;
      assert all[..|all| - 1] == log + more[..|more| - 1];
      SnapshotFrozen(log, more[..|more| - 1], t);
    }
  }

  lemma CommittedPrefix(log: seq<Commit>, n: nat)
    requires Committed(log) && n <= |log|
    ensures Committed(log[..n])
  {
    forall i | 0 <= i < n ensures ApplyTx(Replay(log[..n][..i]), log[..n][i].tx).Some? {
      assert log[..n][..i] == log[..i];
    }
  }

  lemma CommittedAppend(log: seq<Commit>, c: Commit)
    requires Committed(log) && ApplyTx(Replay(log), c.tx).Some?
    ensures Committed(log + [c])
    ensures Replay(log + [c]) == ApplyTx(Replay(log), c.tx).value
  {
    var all := log + [c];
    assert all[..|log|] == log;
    forall i | 0 <= i < |all| ensures ApplyTx(Replay(all[..i]), all[i].tx).Some? {
      if i < |log| {
        assert all[..i] == log[..i];
      }
    }
  }

  lemma CommitTimeAppend(log: seq<Commit>, c: Commit, drill: string, name: string)
    ensures CommitTime(log + [c], drill, name) ==
            if CommitTime(log, drill, name).Some? then CommitTime(log, drill, name)
            else if Inserts(c, drill, name) then Some(c.time) else None
  {
    assert (log + [c])[..|log|] == log;
  }

  /** Every insert of a marker into a committed log carries the stored payload. */
  lemma {:induction false} RowsFollowLog(log: seq<Commit>, drill: string, name: string)
    requires Committed(log) && NeverCleaned(log, drill)
    ensures HasMarker(Replay(log), drill, name) <==> CommitTime(log, drill, name).Some?
    ensures forall i :: 0 <= i < |log| && Inserts(log[i], drill, name) ==>
              HasMarker(Replay(log), drill, name)
              && Replay(log).markers.value[(drill, name)] == log[i].tx.payload
  {
    hide CommitTime;
    if log != [] {
      var n := |log| - 1;
      CommittedPrefix(log, n);
      RowsFollowLog(log[..n], drill, name);
      var before, tx := Replay(log[..n]), log[n].tx;
      assert ApplyTx(before, tx) == Some(Replay(log));
      assert !Cleans(log[n], drill);
      if HasMarker(before, drill, name) {
        assert HasMarker(Replay(log), drill, name)
            && Replay(log).markers.value[(drill, name)] == before.markers.value[(drill, name)];
      }
      forall i | 0 <= i < |log| && Inserts(log[i], drill, name)
        ensures HasMarker(Replay(log), drill, name)
             && Replay(log).markers.value[(drill, name)] == log[i].tx.payload
      {
        if i < n {
          assert log[..n][i] == log[i];
        }
      }
    }
  }

  lemma {:induction false} CommitTimeWithin(log: seq<Commit>, drill: string, name: string, t: Time)
    requires TimesIncrease(log)
    ensures CommitTime(UpTo(log, t), drill, name) ==
            match CommitTime(log, drill, name)
            case Some(c) => if c <= t then Some(c) else None
            case None => None
  {
    if log != [] {
      var n := |log| - 1;
      assert log == log[..n] + [log[n]];
      CommitTimeAppend(log[..n], log[n], drill, name);
      CommitTimeBounded(log[..n], drill, name);
      if log[n].time > t {
        CommitTimeWithin(log[..n], drill, name, t);
      }
    }
  }

  lemma {:induction false} CommitTimeBounded(log: seq<Commit>, drill: string, name: string)
    ensures var r := CommitTime(log, drill, name);
            r.Some? ==> exists i :: 0 <= i < |log| && log[i].time == r.value && Inserts(log[i], drill, name)
  {
    if log != [] {
      var n := |log| - 1;
      CommitTimeBounded(log[..n], drill, name);
      if CommitTime(log[..n], drill, name).Some? {
        var i :| 0 <= i < n && log[..n][i].time == CommitTime(log, drill, name).value
          && Inserts(log[..n][i], drill, name);
        assert log[i] == log[..n][i];
      } else if Inserts(log[n], drill, name) {
        assert log[n].time == CommitTime(log, drill, name).value;
      }
    }
  }

  /**
   * The boundary the drill tests: on any history that interleaves any number of
   * drills and schema changes, validation of drill d on the snapshot as of t
   * passes exactly when marker A was committed by then, marker B was not, the
   * expected checksum is that of A's payload and the application tables exist.
   */
  lemma BoundaryExact(log: seq<Commit>, drill: string, expected: Digest, t: Time)
    requires Committed(log) && TimesIncrease(log) && NeverCleaned(log, drill)
    ensures var a, b := CommitTime(log, drill, "A"), CommitTime(log, drill, "B");
            Validates(SnapshotAt(log, t), drill, expected) <==>
            && a.Some? && a.value <= t && (b.Some? ==> t < b.value)
            && (forall i :: 0 <= i < |log| && Inserts(log[i], drill, "A") ==>
                  MarkerChecksum(drill, "A", log[i].tx.payload) == expected)
            && EXPECTED_TABLES <= SnapshotAt(log, t).tables
  {
    UpToIsPrefix(log, t);
    var seen := UpTo(log, t);
    assert seen == log[..|seen|];
    CommittedPrefix(log, |seen|);
    RowsFollowLog(seen, drill, "A");
    RowsFollowLog(seen, drill, "B");
    RowsFollowLog(log, drill, "A");
    CommitTimeWithin(log, drill, "A", t);
    CommitTimeWithin(log, drill, "B", t);
    var a := CommitTime(log, drill, "A");
    if a.Some? && a.value <= t {
      var i :| 0 <= i < |seen| && Inserts(seen[i], drill, "A");
      assert log[i] == seen[i];
      assert SnapshotAt(log, t).markers.value[(drill, "A")] == Replay(log).markers.value[(drill, "A")];
    }
  }
}
