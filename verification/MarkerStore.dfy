/** The migration job's view of the marker table, one method per action. */
module MarkerStore {
  import opened Prelude
  import opened Markers

  /** A Go map read: absent keys count zero. */
  function CountOf(count: map<string, nat>, name: string): nat {
    if name in count then count[name] else 0
  }

  class PostgresStore {
    var db: Db

    constructor (initial: Db)
      ensures db == initial
    {
      db := initial;
    }

    /** Inserting the stored payload again is a no-op; a different payload never replaces it. */
    method InsertMarkerRow(drill: string, name: string, payload: string, create: bool) returns (ok: bool)
      modifies this
      ensures ok <==>
              && (create || old(db).markers.Some?)
              && (HasMarker(old(db), drill, name) ==> old(db).markers.value[(drill, name)] == payload)
      ensures !ok ==> db == old(db)
      ensures ok ==> ApplyTx(old(db), InsertMarker(drill, name, payload, create)) == Some(db)
      ensures ok ==> HasMarker(db, drill, name) && db.markers.value[(drill, name)] == payload
      ensures ok && HasMarker(old(db), drill, name) ==> db == old(db)
      ensures forall d, n :: HasMarker(old(db), d, n) ==>
                HasMarker(db, d, n) && db.markers.value[(d, n)] == old(db).markers.value[(d, n)]
      ensures forall d, n :: HasMarker(db, d, n) && (d, n) != (drill, name) ==> HasMarker(old(db), d, n)
    {
      var markers := db.markers;
      if create && markers.None? {
        markers := Some(map[]);
      }
      if markers.None? {
        return false;
      }
      if (drill, name) !in markers.value {
        markers := Some(markers.value[(drill, name) := payload]);
      } else if markers.value[(drill, name)] != payload {
        return false;
      }
      db := db.(markers := markers);
      ok := true;
    }

    /** Scans the drill's rows, counting markers by name. */
    method Validate(drill: string, expected: Digest) returns (ok: bool, markerA: bool, markerB: bool)
      ensures ok <==> Validates(db, drill, expected)
      ensures db.markers.Some? ==> (markerA <==> HasMarker(db, drill, "A")) && (markerB <==> HasMarker(db, drill, "B"))
    {
      markerA, markerB := false, false;
      if db.markers.None? {
        return false, false, false;
      }
      var table := db.markers.value;
      ghost var all := set k | k in table && k.0 == drill;
      var rows := set k | k in table && k.0 == drill;
      var count: map<string, nat> := map[];
      var checksum: Option<Digest> := None;
      while rows != {}
        invariant rows <= all
        invariant forall n :: CountOf(count, n) == if (drill, n) in all - rows then 1 else 0
        invariant (drill, "A") in all - rows ==> checksum == Some(MarkerChecksum(drill, "A", table[(drill, "A")]))
        decreases rows
      {
        var row :| row in rows;
        assert row == (drill, row.1);
        count := count[row.1 := CountOf(count, row.1) + 1];
        if row.1 == "A" {
          checksum := Some(MarkerChecksum(drill, "A", table[row]));
        }
        rows := rows - {row};
      }
      markerA := CountOf(count, "A") == 1;
      markerB := CountOf(count, "B") > 0;
      if !markerA || markerB || checksum != Some(expected) {
        return false, markerA, markerB;
      }
      ok := EXPECTED_TABLES <= db.tables;
    }

    /** Removes exactly the drill's rows and drops the schema exactly when none remain. */
    method Cleanup(drill: string)
      modifies this
      ensures ApplyTx(old(db), CleanupDrill(drill)) == Some(db)
      ensures db.tables == old(db).tables
      ensures forall d, n :: HasMarker(db, d, n) <==> HasMarker(old(db), d, n) && d != drill
      ensures forall d, n :: HasMarker(db, d, n) ==> db.markers.value[(d, n)] == old(db).markers.value[(d, n)]
      ensures db.markers.None? <==> forall d, n :: d != drill ==> !HasMarker(old(db), d, n)
      ensures ApplyTx(db, CleanupDrill(drill)) == Some(db)
    {
      if db.markers.None? {
        return;
      }
      var rest := map k | k in db.markers.value && k.0 != drill :: db.markers.value[k];
      forall d, n ensures (d, n) in rest <==> HasMarker(db, d, n) && d != drill {
      }
      if rest != map[] {
        var k :| k in rest;
        assert HasMarker(db, k.0, k.1);
      }
      assert rest == map k | k in rest && k.0 != drill :: rest[k];
      db := db.(markers := if rest == map[] then None else Some(rest));
    }
  }
}
