/** The diff between two persisted finding lists and the events it publishes. */
module Transitions {
  import opened Prelude
  import opened Findings

  datatype Kind = Added | Changed | Resolved | Unchanged
  datatype Transition = Transition(kind: Kind, finding: Finding, previous: Option<Finding>)

  /** What an observer of events knows about a finding. */
  datatype Level = Level(severity: Severity, confidence: Confidence)
  type View = map<string, Level>

  function LevelOf(f: Finding): Level {
    Level(f.severity, f.confidence)
  }

  /** The last finding under each non-empty ID. */
  function ById(fs: seq<Finding>): map<string, Finding> {
    if fs == [] then map[]
    else
      var m, f := ById(fs[..|fs| - 1]), fs[|fs| - 1];
      if f.id == "" then m else m[f.id := f]
  }

  function ViewOf(fs: seq<Finding>): View {
    map id | id in ById(fs) :: LevelOf(ById(fs)[id])
  }

  function Compare(before: map<string, Finding>, f: Finding): Transition {
    if f.id !in before then Transition(Added, f, None)
    else if LevelOf(before[f.id]) != LevelOf(f) then Transition(Changed, f, Some(before[f.id]))
    else Transition(Unchanged, f, Some(before[f.id]))
  }

  function Appearances(before: map<string, Finding>, after: seq<Finding>): seq<Transition> {
    if after == [] then []
    else
      var ts, f := Appearances(before, after[..|after| - 1]), after[|after| - 1];
      if f.id == "" then ts else ts + [Compare(before, f)]
  }

  function Departures(before: seq<Finding>, after: map<string, Finding>): seq<Transition> {
    if before == [] then []
    else
      var ts, f := Departures(before[..|before| - 1], after), before[|before| - 1];
      if f.id == "" || f.id in after then ts else ts + [Transition(Resolved, f, Some(f))]
  }

  function Diff(before: seq<Finding>, after: seq<Finding>): seq<Transition> {
    Appearances(ById(before), after) + Departures(before, ById(after))
  }

  /** The transitions that become events. */
  function Published(ts: seq<Transition>): seq<Transition> {
    if ts == [] then []
    else
      var rest, t := Published(ts[..|ts| - 1]), ts[|ts| - 1];
      if t.kind == Unchanged then rest else rest + [t]
  }

  function ApplyEvent(v: View, t: Transition): View {
    match t.kind
    case Added => v[t.finding.id := LevelOf(t.finding)]
    case Changed => v[t.finding.id := LevelOf(t.finding)]
    case Resolved => v - {t.finding.id}
    case Unchanged => v
  }

  /** What an observer knows after seeing the events in order. */
  function Replay(v: View, ts: seq<Transition>): View {
    if ts == [] then v else ApplyEvent(Replay(v, ts[..|ts| - 1]), ts[|ts| - 1])
  }

  /** Whether an event makes sense to an observer holding view v. */
  predicate Legal(v: View, t: Transition) {
    match t.kind
    case Added => t.finding.id !in v
    case Changed => t.finding.id in v && v[t.finding.id] != LevelOf(t.finding)
    case Resolved => t.finding.id in v
    case Unchanged => t.finding.id in v && v[t.finding.id] == LevelOf(t.finding)
  }

  ghost predicate AllLegal(v: View, ts: seq<Transition>) {
    forall i :: 0 <= i < |ts| ==> Legal(Replay(v, ts[..i]), ts[i])
  }

  // ------------------------------------------------------------------------
  // The loops

  method ComputeFindingTransitions(before: seq<Finding>, after: seq<Finding>, inventoryReady: bool)
    returns (ts: seq<Transition>)
    ensures ts == if inventoryReady then Diff(before, after) else []
  {
    if !inventoryReady {
      return [];
    }
    var oldMap := IndexById(before);
    var newMap := IndexById(after);
    ts := [];
    for i := 0 to |after|
      invariant ts == Appearances(oldMap, after[..i])
    {
      var f := after[i];
      assert after[..i + 1][..i] == after[..i];
      if f.id == "" {
        continue;
      }
      if f.id !in oldMap {
        ts := ts + [Transition(Added, f, None)];
        continue;
      }
      var was := oldMap[f.id];
      if was.severity != f.severity || was.confidence != f.confidence {
        ts := ts + [Transition(Changed, f, Some(was))];
      } else {
        ts := ts + [Transition(Unchanged, f, Some(was))];
      }
    }
    assert after[..|after|] == after;
    ghost var appeared := ts;
    for i := 0 to |before|
      invariant ts == appeared + Departures(before[..i], newMap)
    {
      var f := before[i];
      assert before[..i + 1][..i] == before[..i];
      if f.id != "" && f.id !in newMap {
        ts := ts + [Transition(Resolved, f, Some(f))];
      }
    }
    assert before[..|before|] == before;
  }

  method IndexById(fs: seq<Finding>) returns (m: map<string, Finding>)
    ensures m == ById(fs)
  {
    m := map[];
    for i := 0 to |fs|
      invariant m == ById(fs[..i])
    {
      assert fs[..i + 1][..i] == fs[..i];
      if fs[i].id != "" {
        m := m[fs[i].id := fs[i]];
      }
    }
    assert fs[..|fs|] == fs;
  }

  // ------------------------------------------------------------------------
  // Replaying

  lemma {:induction false} ByIdMembers(fs: seq<Finding>)
    ensures forall id :: id in ById(fs) <==> id != "" && exists i :: 0 <= i < |fs| && fs[i].id == id
    ensures forall id :: id in ById(fs) ==> ById(fs)[id].id == id && ById(fs)[id] in fs
  {
    if fs != [] {
      var n := |fs| - 1;
      ByIdMembers(fs[..n]);
      assert forall i :: 0 <= i < n ==> fs[..n][i] == fs[i];
    }
  }

  lemma ByIdUnique(fs: seq<Finding>, f: Finding)
    requires DistinctIds(fs) && f in fs && f.id != ""
    ensures f.id in ById(fs) && ById(fs)[f.id] == f
  {
    ByIdMembers(fs);
  }

  lemma {:induction false} ReplayConcat(v: View, xs: seq<Transition>, ys: seq<Transition>)
    ensures Replay(v, xs + ys) == Replay(Replay(v, xs), ys)
  {
    if ys == [] {
      assert xs + ys == xs;
    } else {
      assert (xs + ys)[..|xs + ys| - 1] == xs + ys[..|ys| - 1];
      ReplayConcat(v, xs, ys[..|ys| - 1]);
    }
  }

  lemma {:induction false} PublishedReplays(v: View, ts: seq<Transition>)
    ensures Replay(v, Published(ts)) == Replay(v, ts)
  {
    if ts != [] {
      var n := |ts| - 1;
      PublishedReplays(v, ts[..n]);
      if ts[n].kind != Unchanged {
        assert (Published(ts[..n]) + [ts[n]])[..|Published(ts[..n])|] == Published(ts[..n]);
      }
    }
  }

  lemma ViewStep(fs: seq<Finding>)
    requires fs != []
    ensures var head, f := ViewOf(fs[..|fs| - 1]), fs[|fs| - 1];
            ViewOf(fs) == if f.id == "" then head else head[f.id := LevelOf(f)]
  {
  }

  /** One more reported finding, seen by an observer who has already seen the ones before it. */
  lemma AppearanceStep(before: seq<Finding>, seen: View, f: Finding)
    requires f.id !in seen && f.id != ""
    ensures var v, t := ViewOf(before), Compare(ById(before), f);
            Legal(v + seen, t) && ApplyEvent(v + seen, t) == v + seen[f.id := LevelOf(f)]
  {
    hide ById;
    ByIdMembers(before);
    var v := ViewOf(before);
    assert (v + seen)[f.id := LevelOf(f)] == v + seen[f.id := LevelOf(f)];
    assert f.id in v <==> f.id in ById(before);
  }

  /** Reporting the new findings lays them over the old view. */
  lemma {:induction false} AppearancesReplay(before: seq<Finding>, after: seq<Finding>)
    requires DistinctIds(after)
    ensures Replay(ViewOf(before), Appearances(ById(before), after)) == ViewOf(before) + ViewOf(after)
    ensures AllLegal(ViewOf(before), Appearances(ById(before), after))
  {
    hide AllLegal, Legal, Compare, ApplyEvent;
    var v, m := ViewOf(before), ById(before);
    if after == [] {
      NothingLegal(v);
      assert v + ViewOf(after) == v;
    } else {
      var n := |after| - 1;
      var head, f := after[..n], after[n];
      AppearancesReplay(before, head);
      ViewStep(after);
      var ts := Appearances(m, head);
      if f.id != "" {
        ByIdMembers(head);
        AppearanceStep(before, ViewOf(head), f);
        LegalAppend(v, ts, Compare(m, f));
        assert (ts + [Compare(m, f)])[..|ts|] == ts;
      }
    }
  }

  lemma NothingLegal(v: View)
    ensures AllLegal(v, [])
  {
  }

  lemma LegalAppend(v: View, ts: seq<Transition>, t: Transition)
    requires AllLegal(v, ts) && Legal(Replay(v, ts), t)
    ensures AllLegal(v, ts + [t])
  {
    var all := ts + [t];
    forall i | 0 <= i < |all| ensures Legal(Replay(v, all[..i]), all[i]) {
      assert all[..i] == if i < |ts| then ts[..i] else ts;
    }
  }

  lemma LegalPrefix(v: View, ts: seq<Transition>, n: nat)
    requires AllLegal(v, ts) && n <= |ts|
    ensures AllLegal(v, ts[..n])
  {
    forall i | 0 <= i < n ensures Legal(Replay(v, ts[..n][..i]), ts[..n][i]) {
      assert ts[..n][..i] == ts[..i];
    }
  }

  lemma LegalAt(v: View, ts: seq<Transition>, i: nat)
    requires AllLegal(v, ts) && i < |ts|
    ensures Legal(Replay(v, ts[..i]), ts[i])
  {
  }

  lemma {:induction false} LegalConcat(v: View, xs: seq<Transition>, ys: seq<Transition>)
    requires AllLegal(v, xs) && AllLegal(Replay(v, xs), ys)
    ensures AllLegal(v, xs + ys)
  {
    hide AllLegal, Legal, Replay;
    if ys == [] {
      assert xs + ys == xs;
    } else {
      var n := |ys| - 1;
      LegalPrefix(Replay(v, xs), ys, n);
      LegalConcat(v, xs, ys[..n]);
      LegalAt(Replay(v, xs), ys, n);
      ReplayConcat(v, xs, ys[..n]);
      LegalAppend(v, xs + ys[..n], ys[n]);
      assert xs + ys == xs + ys[..n] + [ys[n]];
    }
  }

  predicate GoneFrom(id: string, before: seq<Finding>, after: map<string, Finding>) {
    id !in after && exists i :: 0 <= i < |before| && before[i].id == id
  }

  /** A view without what is gone. */
  function Without(v: View, before: seq<Finding>, after: map<string, Finding>): View {
    map id | id in v && !GoneFrom(id, before, after) :: v[id]
  }

  lemma WithoutStep(v: View, before: seq<Finding>, after: map<string, Finding>)
    requires before != [] && "" !in v
    ensures var head, f := Without(v, before[..|before| - 1], after), before[|before| - 1];
            Without(v, before, after) == if f.id == "" || f.id in after then head else head - {f.id}
  {
    var n := |before| - 1;
    assert forall i :: 0 <= i < n ==> before[..n][i] == before[i];
    assert forall id :: GoneFrom(id, before, after) <==>
      GoneFrom(id, before[..n], after) || (id == before[n].id && id !in after);
  }

  /** Resolving takes out what is no longer reported. */
  lemma {:induction false} DeparturesReplay(v: View, before: seq<Finding>, after: map<string, Finding>)
    requires "" !in v
    ensures Replay(v, Departures(before, after)) == Without(v, before, after)
  {
    if before == [] {
      assert Without(v, before, after) == v;
    } else {
      var n := |before| - 1;
      DeparturesReplay(v, before[..n], after);
      WithoutStep(v, before, after);
      var ts, t := Departures(before[..n], after), Transition(Resolved, before[n], Some(before[n]));
      assert (ts + [t])[..|ts|] == ts;
    }
  }

  /** With unique IDs each departure is reported once, of something known. */
  lemma {:induction false} DeparturesLegal(v: View, before: seq<Finding>, after: map<string, Finding>)
    requires DistinctIds(before) && forall i :: 0 <= i < |before| && before[i].id != "" ==> before[i].id in v
    requires "" !in v
    ensures AllLegal(v, Departures(before, after))
  {
    hide AllLegal, Replay;
    if before == [] {
      NothingLegal(v);
    } else {
      var n := |before| - 1;
      var head, f := before[..n], before[n];
      assert forall i :: 0 <= i < n ==> head[i] == before[i];
      DeparturesLegal(v, head, after);
      DeparturesReplay(v, head, after);
      if f.id != "" && f.id !in after {
        assert !GoneFrom(f.id, head, after);
        LegalAppend(v, Departures(head, after), Transition(Resolved, f, Some(f)));
      }
    }
  }

  lemma WithoutAllGone(before: seq<Finding>, after: seq<Finding>)
    ensures Without(ViewOf(before) + ViewOf(after), before, ById(after)) == ViewOf(after)
  {
    ByIdMembers(before);
    ByIdMembers(after);
  }

  lemma ViewMembers(before: seq<Finding>)
    ensures "" !in ViewOf(before)
    ensures forall i :: 0 <= i < |before| && before[i].id != "" ==> before[i].id in ViewOf(before)
  {
    ByIdMembers(before);
  }

  /** The diff, replayed over what an observer knew, gives exactly the new findings. */
  lemma DiffReplays(before: seq<Finding>, after: seq<Finding>)
    requires DistinctIds(before) && DistinctIds(after)
    ensures Replay(ViewOf(before), Diff(before, after)) == ViewOf(after)
    ensures AllLegal(ViewOf(before), Diff(before, after))
  {
    hide AllLegal, ViewOf, ById, Replay, Without;
    var v := ViewOf(before);
    AppearancesReplay(before, after);
    ViewMembers(before);
    ViewMembers(after);
    DeparturesReplay(v + ViewOf(after), before, ById(after));
    DeparturesLegal(v + ViewOf(after), before, ById(after));
    WithoutAllGone(before, after);
    ReplayConcat(v, Appearances(ById(before), after), Departures(before, ById(after)));
    LegalConcat(v, Appearances(ById(before), after), Departures(before, ById(after)));
  }

  /** What a transition between two lists says. */
  ghost predicate Tells(before: seq<Finding>, after: seq<Finding>, t: Transition) {
    match t.kind
    case Added =>
      t.finding in after && t.previous == None && forall f :: f in before ==> f.id != t.finding.id
    case Changed =>
      t.finding in after && t.previous.Some? && t.previous.value in before && t.previous.value.id == t.finding.id
      && (t.previous.value.severity != t.finding.severity || t.previous.value.confidence != t.finding.confidence)
    case Unchanged =>
      t.finding in after && t.previous.Some? && t.previous.value in before && t.previous.value.id == t.finding.id
      && t.previous.value.severity == t.finding.severity && t.previous.value.confidence == t.finding.confidence
    case Resolved =>
      t.finding in before && t.previous == Some(t.finding) && forall f :: f in after ==> f.id != t.finding.id
  }

  lemma {:induction false} AppearancesTell(before: seq<Finding>, after: seq<Finding>, t: Transition)
    ensures t in Appearances(ById(before), after) <==>
            exists f :: f in after && f.id != "" && t == Compare(ById(before), f)
  {
    if after != [] {
      var n := |after| - 1;
      AppearancesTell(before, after[..n], t);
      assert after == after[..n] + [after[n]];
    }
  }

  lemma {:induction false} DeparturesTell(before: seq<Finding>, after: map<string, Finding>, t: Transition)
    ensures t in Departures(before, after) <==>
            exists f :: f in before && f.id != "" && f.id !in after && t == Transition(Resolved, f, Some(f))
  {
    if before != [] {
      var n := |before| - 1;
      DeparturesTell(before[..n], after, t);
      assert before == before[..n] + [before[n]];
    }
  }

  /**
   * Every transition says what happened to a finding between the two lists, with the
   * finding it was before, and no finding with an ID goes without one.
   */
  lemma DiffTells(before: seq<Finding>, after: seq<Finding>)
    ensures forall t :: t in Diff(before, after) ==> Tells(before, after, t)
    ensures forall f :: f in after && f.id != "" ==>
              exists t :: t in Diff(before, after) && t.finding == f && t.kind != Resolved
    ensures forall f :: f in before && f.id != "" && (forall g :: g in after ==> g.id != f.id) ==>
              Transition(Resolved, f, Some(f)) in Diff(before, after)
  {
    hide ById, Appearances, Departures;
    ByIdMembers(before);
    ByIdMembers(after);
    forall t | t in Diff(before, after) ensures Tells(before, after, t) {
      AppearancesTell(before, after, t);
      DeparturesTell(before, ById(after), t);
      if t in Appearances(ById(before), after) {
        CompareTells(before, after, t.finding);
      } else {
        GoneFromAll(after, t.finding.id);
      }
    }
    forall f | f in after && f.id != ""
      ensures exists t :: t in Diff(before, after) && t.finding == f && t.kind != Resolved
    {
      AppearancesTell(before, after, Compare(ById(before), f));
      assert Compare(ById(before), f) in Diff(before, after);
    }
    forall f | f in before && f.id != "" && (forall g :: g in after ==> g.id != f.id)
      ensures Transition(Resolved, f, Some(f)) in Diff(before, after)
    {
      DeparturesTell(before, ById(after), Transition(Resolved, f, Some(f)));
    }
  }

  lemma CompareTells(before: seq<Finding>, after: seq<Finding>, f: Finding)
    requires f in after && f.id != ""
    ensures Tells(before, after, Compare(ById(before), f)) && Compare(ById(before), f).kind != Resolved
  {
    hide ById;
    ByIdMembers(before);
    GoneFromAll(before, f.id);
  }

  lemma GoneFromAll(fs: seq<Finding>, id: string)
    ensures id != "" && id !in ById(fs) ==> forall f :: f in fs ==> f.id != id
  {
    hide ById;
    ByIdMembers(fs);
  }

  /** Dropping the unchanged transitions keeps the events legal. */
  lemma {:induction false} PublishedLegal(v: View, ts: seq<Transition>)
    requires AllLegal(v, ts)
    ensures AllLegal(v, Published(ts))
  {
    if ts != [] {
      var n := |ts| - 1;
      LegalPrefix(v, ts, n);
      PublishedLegal(v, ts[..n]);
      PublishedReplays(v, ts[..n]);
      if ts[n].kind != Unchanged {
        assert Legal(Replay(v, ts[..n]), ts[n]);
        LegalAppend(v, Published(ts[..n]), ts[n]);
      }
    }
  }

  /** In a legal stream, a finding added twice was resolved in between. */
  lemma AddedAlternates(v: View, ts: seq<Transition>, i: nat, j: nat)
    requires AllLegal(v, ts) && i < j < |ts|
    requires ts[i].kind == Added && ts[j].kind == Added && ts[i].finding.id == ts[j].finding.id
    ensures exists k :: i < k < j && ts[k].kind == Resolved && ts[k].finding.id == ts[i].finding.id
  {
    assert ts[..i + 1][..i] == ts[..i];
    StaysPresent(v, ts, i + 1, j, ts[i].finding.id);
  }

  /** In a legal stream, a finding resolved twice was added in between. */
  lemma ResolvedAlternates(v: View, ts: seq<Transition>, i: nat, j: nat)
    requires AllLegal(v, ts) && i < j < |ts|
    requires ts[i].kind == Resolved && ts[j].kind == Resolved && ts[i].finding.id == ts[j].finding.id
    ensures exists k :: i < k < j && ts[k].kind == Added && ts[k].finding.id == ts[i].finding.id
  {
    assert ts[..i + 1][..i] == ts[..i];
    StaysAbsent(v, ts, i + 1, j, ts[i].finding.id);
  }

  lemma {:induction false} StaysPresent(v: View, ts: seq<Transition>, i: nat, j: nat, id: string)
    requires i <= j <= |ts| && id in Replay(v, ts[..i])
    ensures id in Replay(v, ts[..j]) || exists k :: i <= k < j && ts[k].kind == Resolved && ts[k].finding.id == id
  {
    if i < j {
      StaysPresent(v, ts, i, j - 1, id);
      assert ts[..j][..j - 1] == ts[..j - 1];
    }
  }

  lemma {:induction false} StaysAbsent(v: View, ts: seq<Transition>, i: nat, j: nat, id: string)
    requires AllLegal(v, ts) && i <= j <= |ts| && id !in Replay(v, ts[..i])
    ensures id !in Replay(v, ts[..j]) || exists k :: i <= k < j && ts[k].kind == Added && ts[k].finding.id == id
  {
    hide AllLegal;
    if i < j {
      StaysAbsent(v, ts, i, j - 1, id);
      assert ts[..j][..j - 1] == ts[..j - 1];
      LegalAt(v, ts, j - 1);
    }
  }

  // ------------------------------------------------------------------------
  // Repeated IDs

  /** Every entry of the ID has this level. */
  predicate Steady(fs: seq<Finding>, id: string, level: Level) {
    forall i :: 0 <= i < |fs| && fs[i].id == id ==> LevelOf(fs[i]) == level
  }

  /** How one reported finding changes what is seen: unless it is at its old level, it shows. */
  lemma AppearanceShows(seen: View, m: map<string, Finding>, f: Finding)
    ensures ApplyEvent(seen, Compare(m, f)) ==
            if f.id in m && LevelOf(m[f.id]) == LevelOf(f) then seen else seen[f.id := LevelOf(f)]
  {
  }

  lemma AppearancesStep(v: View, m: map<string, Finding>, after: seq<Finding>)
    requires after != []
    ensures var head, f := after[..|after| - 1], after[|after| - 1];
            var seen := Replay(v, Appearances(m, head));
            Replay(v, Appearances(m, after)) ==
            if f.id == "" || (f.id in m && LevelOf(m[f.id]) == LevelOf(f)) then seen else seen[f.id := LevelOf(f)]
  {
    var n := |after| - 1;
    var f, ts := after[n], Appearances(m, after[..n]);
    AppearanceShows(Replay(v, ts), m, f);
    hide Compare, ApplyEvent;
    assert (ts + [Compare(m, f)])[..|ts|] == ts;
  }

  /** What an observer holds about one ID after the appearances, whatever repeats. */
  lemma {:induction false} AppearanceAt(before: seq<Finding>, after: seq<Finding>, id: string)
    ensures var v, last := ViewOf(before), ViewOf(after);
            var seen := Replay(v, Appearances(ById(before), after));
            && (id in seen <==> id in v || id in last)
            && (id in last && id !in v ==> seen[id] == last[id])
            && (id in last && id in v && last[id] != v[id] ==> seen[id] == last[id])
            && (id in v ==> (seen[id] == v[id] <==> Steady(after, id, v[id])))
  {
    hide ById, Steady, Replay, Appearances;
    var v := ViewOf(before);
    if after == [] {
      NoAppearances(before, id);
    } else {
      var n := |after| - 1;
      AppearanceAt(before, after[..n], id);
      AppearancesStep(v, ById(before), after);
      ViewMembers(before);
      ViewStep(after);
      SteadyStep(after, id, if id in v then v[id] else LevelOf(after[n]));
    }
  }

  lemma NoAppearances(before: seq<Finding>, id: string)
    ensures Replay(ViewOf(before), Appearances(ById(before), [])) == ViewOf(before) && ViewOf([]) == map[]
    ensures id in ViewOf(before) ==> Steady([], id, ViewOf(before)[id])
  {
  }

  lemma SteadyStep(fs: seq<Finding>, id: string, level: Level)
    requires fs != []
    ensures var f := fs[|fs| - 1];
            Steady(fs, id, level) <==> Steady(fs[..|fs| - 1], id, level) && (f.id == id ==> LevelOf(f) == level)
  {
    var n := |fs| - 1;
    assert forall i :: 0 <= i < n ==> fs[..n][i] == fs[i];
  }

  /** An ID that ends where it was never left that level in between. */
  ghost predicate LevelsSettle(before: seq<Finding>, after: seq<Finding>) {
    forall id :: id in ViewOf(before) && id in ViewOf(after) && ViewOf(after)[id] == ViewOf(before)[id] ==>
      Steady(after, id, ViewOf(before)[id])
  }

  /**
   * For any two lists, with IDs repeated or not, the published events replay to the new
   * findings exactly when no ID that ends at its old level was also listed at another.
   * Unique IDs are enough for that.
   */
  lemma ReplayExactly(before: seq<Finding>, after: seq<Finding>)
    ensures Replay(ViewOf(before), Published(Diff(before, after))) == ViewOf(after) <==> LevelsSettle(before, after)
    ensures DistinctIds(after) ==> LevelsSettle(before, after)
  {
    hide Replay, Published, Steady, Appearances, Departures;
    var v, last := ViewOf(before), ViewOf(after);
    var seen := Replay(v, Appearances(ById(before), after));
    PublishedReplays(v, Diff(before, after));
    ReplayConcat(v, Appearances(ById(before), after), Departures(before, ById(after)));
    AppearanceAt(before, after, "");
    ViewMembers(before);
    ViewMembers(after);
    DeparturesReplay(seen, before, ById(after));
    forall id ensures id in Without(seen, before, ById(after)) <==> id in last {
      AppearanceAt(before, after, id);
      ByIdMembers(before);
    }
    forall id | id in last
      ensures seen[id] == last[id] <==> (id in v && last[id] == v[id] ==> Steady(after, id, v[id]))
    {
      AppearanceAt(before, after, id);
    }
    forall id | DistinctIds(after) && id in last ensures Steady(after, id, last[id]) {
      UniqueIsSteady(after, id);
    }
  }

  lemma UniqueIsSteady(fs: seq<Finding>, id: string)
    requires DistinctIds(fs) && id in ViewOf(fs)
    ensures Steady(fs, id, ViewOf(fs)[id])
  {
    ByIdMembers(fs);
  }

  /** An ID listed at a higher level and then again at its old one: the events miss the way back. */
  lemma RepeatedIdBreaksReplay(f: Finding)
    requires f.id != "" && f.severity == Info
    ensures var before, after := [f], [f.(severity := High), f];
            Replay(ViewOf(before), Published(Diff(before, after))) != ViewOf(after)
  {
    var before, after := [f], [f.(severity := High), f];
    ReplayExactly(before, after);
    ViewStep(before);
    ViewStep(after);
    assert LevelOf(after[0]) != ViewOf(before)[f.id];
  }
}
