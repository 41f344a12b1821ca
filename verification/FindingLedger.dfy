/** The findings table of one run. */
module FindingLedgers {
  import opened Wrappers
  import opened Texts
  import opened Findings

  datatype LedgerError = InvalidFinding | FindingNotFound

  ghost predicate WellResolved(f: Finding) {
    f.status == Resolved ==> f.resolution.Some? && !Blank(f.resolution.value) && f.verifiedBy != []
  }

  class FindingLedger {
    var rows: seq<Finding>

    ghost predicate Valid()
      reads this
    {
      NumberedIds(rows) && forall i | 0 <= i < |rows| :: WellResolved(rows[i])
    }

    constructor ()
      ensures Valid() && rows == []
    {
      rows := [];
    }

    method RaiseFinding(milestone: string, role: Role, severity: Severity, diff: Diff, problem: string)
      returns (r: Result<Finding, LedgerError>)
      requires Valid()
      modifies this
      ensures Valid()
      ensures r.Ok? <==> ValidMilestone(milestone) && !Blank(problem)
      ensures r.Err? ==> rows == old(rows)
      ensures r.Ok? ==>
        && rows == old(rows) + [r.value]
        && r.value == Finding(FindingId(milestone, role, Points(old(rows), milestone, role) + 1),
                              milestone, role, severity, diff, problem, Open, None, [])
        && forall i | 0 <= i < |old(rows)| :: old(rows)[i].id != r.value.id
    {
      if !ValidMilestone(milestone) || Blank(problem) {
        return Err(InvalidFinding);
      }
      hide FindingId, ValidMilestone, Points, Padded;
      var existing := Points(rows, milestone, role);
      var finding := Finding(FindingId(milestone, role, existing + 1), milestone, role, severity, diff, problem, Open,
                             None, []);
      RaisingKeepsIds(rows, finding);
      forall i | 0 <= i < |rows| ensures rows[i].id != finding.id {
        IdsNeverCollide(rows + [finding], i, |rows|);
      }
      if exists i :: 0 <= i < |rows| && rows[i].id == finding.id {
        assert false; // the insertion never meets its own primary key
      }
      rows := rows + [finding];
      return Ok(finding);
    }

    /** The row with this id, by the primary key. */
    method Find(id: string) returns (r: Option<nat>)
      ensures r.None? <==> forall i | 0 <= i < |rows| :: rows[i].id != id
      ensures r.Some? ==> r.value < |rows| && rows[r.value].id == id
    {
      for i := 0 to |rows|
        invariant forall j | 0 <= j < i :: rows[j].id != id
      {
        if rows[i].id == id {
          return Some(i);
        }
      }
      return None;
    }

    /** `resolve_finding`: it binds the finding to the diff the resolution was verified against. */
    method ResolveFinding(id: string, resolution: string, verifiedBy: seq<Role>, diff: Diff)
      returns (r: Result<(), LedgerError>)
      requires Valid()
      modifies this
      ensures Valid()
      ensures r == Err(FindingNotFound) <==> forall i | 0 <= i < |old(rows)| :: old(rows)[i].id != id
      ensures r.Ok? <==>
        !Blank(resolution) && verifiedBy != [] && exists i :: 0 <= i < |old(rows)| && old(rows)[i].id == id
      ensures r.Err? ==> rows == old(rows)
      ensures r.Ok? ==> forall i | 0 <= i < |old(rows)| && old(rows)[i].id == id ::
        rows == old(rows)[i := old(rows)[i].(status := Resolved, resolution := Some(resolution),
                                             verifiedBy := verifiedBy, diff := diff)]
    {
      hide FindingId, ValidMilestone, Points;
      var found := Find(id);
      if found.None? {
        return Err(FindingNotFound);
      }
      if Blank(resolution) || verifiedBy == [] {
        return Err(InvalidFinding);
      }
      var at := found.value;
      var updated := rows[at := ResolvedAs(rows[at], resolution, verifiedBy, diff)];
      forall i | 0 <= i < |rows| && rows[i].id == id ensures i == at {
        if i < at { IdsNeverCollide(rows, i, at); }
        if at < i { IdsNeverCollide(rows, at, i); }
      }
      UpdatesKeepIds(rows, updated);
      rows := updated;
      return Ok(());
    }

    /** `invalidate_stale`: every live finding of the milestone bound to another diff, and nothing else. */
    method InvalidateStale(milestone: string, diff: Diff) returns (invalidated: seq<string>)
      requires Valid()
      modifies this
      ensures Valid() && |rows| == |old(rows)|
      ensures forall i | 0 <= i < |rows| :: var f := old(rows)[i];
        rows[i] ==
          if f.milestone == milestone && f.status != Invalidated && f.diff != diff
          then f.(status := Invalidated) else f
      ensures forall id :: id in invalidated <==>
        exists i ::
          0 <= i < |rows| && old(rows)[i].id == id
          && old(rows)[i].status != Invalidated && rows[i].status == Invalidated
    {
      hide FindingId, ValidMilestone, Points;
      invalidated := [];
      ghost var before := rows;
      for i := 0 to |rows|
        invariant |rows| == |before|
        invariant forall j | 0 <= j < i :: rows[j] == Invalidate(before[j], milestone, diff)
        invariant forall j | i <= j < |rows| :: rows[j] == before[j]
        invariant forall id :: id in invalidated <==>
          exists j :: 0 <= j < i && before[j].id == id && before[j].status != Invalidated
                      && rows[j].status == Invalidated
      {
        if IsStale(rows[i], milestone, diff) {
          invalidated := invalidated + [rows[i].id];
          rows := rows[i := rows[i].(status := Invalidated)];
        }
      }
      UpdatesKeepIds(before, rows);
    }
  }

  function ResolvedAs(f: Finding, resolution: string, verifiedBy: seq<Role>, diff: Diff): Finding {
    f.(status := Resolved, resolution := Some(resolution), verifiedBy := verifiedBy, diff := diff)
  }
}
