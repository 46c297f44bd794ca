/** Which error of an inventory snapshot becomes the reason for not being ready. */
module SnapshotFailures {
  import opened Prelude
  import opened Findings
  import opened AuditStatus

  /** The known error classes, the one that counts most first; a class not listed counts least. */
  const LADDER: seq<string> :=
    ["InvalidInventoryScope", "TransientReadFailure", "EvidenceForbidden", "MalformedEvidence",
     "DependencyUnavailable", "StaleEvidence"]

  /** A piece of evidence carries the error; stale application evidence is an error of its own. */
  ghost predicate Raised(e: Evidence, dto: ErrorDto) {
    || (exists i :: 0 <= i < |e.applications| && e.applications[i].sourceError == Some(dto))
    || (dto == ErrorDto("StaleEvidence", "Application evidence is stale")
        && exists i :: 0 <= i < |e.applications| && e.applications[i].freshness == Stale)
    || (exists i :: 0 <= i < |e.protections| && e.protections[i].sourceError == Some(dto))
    || (exists i :: 0 <= i < |e.owners| && e.owners[i].sourceError == Some(dto))
  }

  lemma {:induction false} SourceErrorsAre(ms: seq<Metadata>, staleCounts: bool, dto: ErrorDto)
    ensures dto in SourceErrors(ms, staleCounts) <==>
            || (exists i :: 0 <= i < |ms| && ms[i].sourceError == Some(dto))
            || (staleCounts && dto == STALE && exists i :: 0 <= i < |ms| && ms[i].freshness == Stale)
  {
    if ms != [] {
      var n := |ms| - 1;
      SourceErrorsAre(ms[..n], staleCounts, dto);
      assert forall i :: 0 <= i < n ==> ms[..n][i] == ms[i];
      assert dto in SourceErrors(ms, staleCounts) <==>
             || dto in SourceErrors(ms[..n], staleCounts)
             || ms[n].sourceError == Some(dto) || (staleCounts && ms[n].freshness == Stale && dto == STALE);
    }
  }

  lemma CandidatesAreRaised(e: Evidence, dto: ErrorDto)
    ensures dto in Candidates(e) <==> Raised(e, dto)
  {
    SourceErrorsAre(e.applications, true, dto);
    SourceErrorsAre(e.protections, false, dto);
    SourceErrorsAre(e.owners, false, dto);
  }

  /** Nothing outranks a known class but one before it. */
  lemma LadderRanks(a: string, b: string, i: nat)
    requires i < |LADDER| && a == LADDER[i] && ErrorPriority(a) <= ErrorPriority(b)
    ensures exists k :: 0 <= k <= i && LADDER[k] == b
  {
    assert LADDER[0] == "InvalidInventoryScope" && LADDER[1] == "TransientReadFailure";
    assert LADDER[2] == "EvidenceForbidden" && LADDER[3] == "MalformedEvidence";
    assert LADDER[4] == "DependencyUnavailable" && LADDER[5] == "StaleEvidence";
  }

  /**
   * When the evidence can be searched, a scan without errors is ready; otherwise the reason
   * is one of the errors raised, and no error of a known class is passed over for one of a
   * class after it.
   */
  lemma WorstErrorDecides(scan: Scan)
    requires Searchable(scan)
    ensures var e := scan.snapshot.value;
            && ((forall dto :: !Raised(e, dto)) ==> IsReady(scan))
            && (forall dto :: Raised(e, dto) ==>
                  exists chosen :: Raised(e, chosen) && Failure(scan).0 == chosen.errorClass
                                   && Failure(scan).1 <= chosen.message)
            && (forall dto, i :: Raised(e, dto) && 0 <= i < |LADDER| && dto.errorClass == LADDER[i] ==>
                  !IsReady(scan) && exists k :: 0 <= k <= i && Failure(scan).0 == LADDER[k])
  {
    hide Raised, Candidates, Worst, ErrorPriority, FirstWorst;
    var e := scan.snapshot.value;
    var errors := Candidates(e);
    forall dto ensures dto in errors <==> Raised(e, dto) {
      CandidatesAreRaised(e, dto);
    }
    WorstIsFirstWorst(errors);
    if Worst(errors).Some? {
      var chosen := Worst(errors).value;
      OutranksAll(chosen, errors);
      assert Raised(e, chosen);
      forall dto, i | Raised(e, dto) && 0 <= i < |LADDER| && dto.errorClass == LADDER[i]
        ensures !IsReady(scan) && exists k :: 0 <= k <= i && Failure(scan).0 == LADDER[k]
      {
        LadderRanks(dto.errorClass, chosen.errorClass, i);
      }
    }
  }

  lemma OutranksAll(chosen: ErrorDto, errors: seq<ErrorDto>)
    requires FirstWorst(chosen, errors)
    ensures chosen in errors
    ensures forall dto :: dto in errors ==> ErrorPriority(dto.errorClass) <= ErrorPriority(chosen.errorClass)
  {
    hide ErrorPriority;
  }

  /** A collection error speaks for itself; without one, a missing snapshot counts as a failed read. */
  lemma UncollectedFails(scan: Scan)
    requires scan.overrideReason != "" || scan.snapshot.None?
    ensures !IsReady(scan)
    ensures scan.overrideReason != "" ==> Failure(scan) == (scan.overrideReason, scan.overrideMessage)
    ensures scan.overrideReason == "" ==> Failure(scan).0 == "TransientReadFailure"
  {
    hide Worst, Candidates;
  }

  /** A failed discovery reports the class of its error, or the one its state stands for. */
  lemma UndiscoveredFails(scan: Scan)
    requires scan.overrideReason == "" && scan.snapshot.Some?
    requires scan.snapshot.value.discovery !in {Available, NotRequired}
    ensures var e := scan.snapshot.value;
            Failure(scan).0 ==
            if e.discovery != InvalidState && e.discoveryError.Some? then e.discoveryError.value.errorClass
            else if e.discovery == Unavailable then "DependencyUnavailable"
            else if e.discovery == Forbidden then "EvidenceForbidden"
            else "TransientReadFailure"
  {
    hide Worst, Candidates;
  }

  // ------------------------------------------------------------------------
  // The loops

  /** One more candidate, kept only when it counts for more than the one selected so far. */
  function Better(selected: Option<ErrorDto>, candidate: ErrorDto): Option<ErrorDto> {
    if selected.None? || ErrorPriority(candidate.errorClass) > ErrorPriority(selected.value.errorClass)
    then Some(candidate)
    else selected
  }

  lemma WorstOfOneMore(errors: seq<ErrorDto>, e: ErrorDto)
    ensures Worst(errors + [e]) == Better(Worst(errors), e)
  {
    assert (errors + [e])[..|errors|] == errors;
  }

  /** Goes on selecting through one kind of evidence. */
  method SelectFrom(ghost earlier: seq<ErrorDto>, best: Option<ErrorDto>, ms: seq<Metadata>, staleCounts: bool)
    returns (selected: Option<ErrorDto>)
    requires best == Worst(earlier)
    ensures selected == Worst(earlier + SourceErrors(ms, staleCounts))
  {
    hide ErrorPriority, Better, Worst;
    selected := best;
    assert earlier + SourceErrors(ms[..0], staleCounts) == earlier;
    for i := 0 to |ms|
      invariant selected == Worst(earlier + SourceErrors(ms[..i], staleCounts))
    {
      assert ms[..i + 1][..i] == ms[..i];
      ghost var errors := earlier + SourceErrors(ms[..i], staleCounts);
      if ms[i].sourceError.Some? {
        WorstOfOneMore(errors, ms[i].sourceError.value);
        selected := Better(selected, ms[i].sourceError.value);
        errors := errors + [ms[i].sourceError.value];
      }
      if staleCounts && ms[i].freshness == Stale {
        WorstOfOneMore(errors, STALE);
        selected := Better(selected, STALE);
        errors := errors + [STALE];
      }
      assert errors == earlier + SourceErrors(ms[..i + 1], staleCounts);
    }
    assert ms[..|ms|] == ms;
  }

  /** The failure reason and message of a snapshot; an empty reason means none. */
  method SelectFailure(snapshot: Option<Evidence>) returns (reason: string, message: string)
    ensures (reason, message) == SnapshotFailure(snapshot)
  {
    hide Worst, SourceErrors, ErrorPriority;
    if snapshot.None? {
      return "TransientReadFailure", "inventory collector returned no snapshot";
    }
    var e := snapshot.value;
    match e.discovery {
      case Unavailable =>
        var r := ErrorReason(e.discoveryError, "DependencyUnavailable", "Argo Application API is unavailable");
        return r.0, r.1;
      case Forbidden =>
        var r := ErrorReason(e.discoveryError, "EvidenceForbidden", "Argo Application API discovery is forbidden");
        return r.0, r.1;
      case UnknownState =>
        var r :=
          ErrorReason(e.discoveryError, "TransientReadFailure", "Argo Application API discovery state is unknown");
        return r.0, r.1;
      case InvalidState =>
        return "TransientReadFailure", "Argo Application discovery state is empty or invalid";
      case _ =>
    }
    WorstIsFirstWorst([]);
    var selected := SelectFrom([], None, e.applications, true);
    assert [] + SourceErrors(e.applications, true) == SourceErrors(e.applications, true);
    selected := SelectFrom(SourceErrors(e.applications, true), selected, e.protections, false);
    selected := SelectFrom(SourceErrors(e.applications, true) + SourceErrors(e.protections, false), selected,
                           e.owners, false);
    if selected.Some? {
      return selected.value.errorClass, Truncate(selected.value.message, 512);
    }
    return "", "";
  }
}
