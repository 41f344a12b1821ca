/** The continuous project runner: milestones in order until one of them is not ready for review. */
module ProjectRunners {
  import opened Wrappers
  import opened MilestoneGraphs
  import opened MilestoneOrders

  datatype ProjectStatus = Created | Running | Blocked | ReadyForHumanRelease

  datatype MilestoneStatus = Pending | InProgress | Accepted | MilestoneBlocked | MilestoneFailed

  datatype MilestoneRow = MilestoneRow(status: MilestoneStatus, runId: Option<nat>)

  /** How the orchestrator leaves a milestone's run; quota pauses have been waited out. */
  datatype Outcome = Ready | RunFailed | StoppedElsewhere | Raises

  predicate IsAccepted(rows: map<string, MilestoneRow>, id: string) {
    id in rows && rows[id].status == Accepted
  }

  /** An accepted milestone's dependencies are accepted. */
  ghost predicate DownClosed(ms: seq<Milestone>, rows: map<string, MilestoneRow>) {
    forall m, d | m in ms && d in m.dependencies && IsAccepted(rows, m.id) :: IsAccepted(rows, d)
  }

  /** The milestone has a run now: the one it had, if any. */
  ghost predicate Driven(before: map<string, MilestoneRow>, after: map<string, MilestoneRow>, id: string) {
    && id in before && id in after && after[id].runId.Some?
    && (before[id].runId.Some? ==> after[id].runId == before[id].runId)
  }

  /** The milestones before position `k` are accepted, earlier or now, and those from `k` on untouched. */
  ghost predicate AcceptedUpTo(order: seq<Milestone>, k: nat, outcome: string -> Outcome,
                               before: map<string, MilestoneRow>, after: map<string, MilestoneRow>)
    requires k <= |order|
  {
    && after.Keys == before.Keys
    && (forall i | 0 <= i < k ::
          && IsAccepted(after, order[i].id)
          && (if IsAccepted(before, order[i].id) then after[order[i].id] == before[order[i].id]
              else outcome(order[i].id) == Ready && Driven(before, after, order[i].id)))
    && (forall i | k <= i < |order| && order[i].id in before ::
        order[i].id in after && after[order[i].id] == before[order[i].id])
  }

  /** The run ended at position `k`: everything before is accepted, `k` itself is not, the rest was not started. */
  ghost predicate StoppedAt(order: seq<Milestone>, k: nat, outcome: string -> Outcome,
                            before: map<string, MilestoneRow>, after: map<string, MilestoneRow>)
    requires k < |order|
  {
    var id := order[k].id;
    && id in before && id in after && !IsAccepted(before, id) && outcome(id) != Ready
    && Driven(before, after, id)
    && (outcome(id) == RunFailed ==> after[id].status == MilestoneFailed)
    && (outcome(id) == StoppedElsewhere ==> after[id].status == MilestoneBlocked)
    && (outcome(id) == Raises ==>
          after[id].status == if before[id].runId.None? then InProgress else before[id].status)
    && (forall d | d in order[k].dependencies :: IsAccepted(after, d))
    && AcceptedUpTo(order, k, outcome, before, after[id := before[id]])
  }

  /** Runs are numbered below `nextRun`, and no two milestones share one. */
  ghost predicate OwnRuns(rows: map<string, MilestoneRow>, nextRun: nat) {
    && (forall id | id in rows && rows[id].runId.Some? :: rows[id].runId.value < nextRun)
    && (forall a, b | a in rows && b in rows && a != b && rows[a].runId.Some? :: rows[a].runId != rows[b].runId)
  }

  lemma OneRunMore(rows: map<string, MilestoneRow>, nextRun: nat, id: string, row: MilestoneRow)
    requires OwnRuns(rows, nextRun) && id in rows && row.runId == Some(nextRun)
    ensures OwnRuns(rows[id := row], nextRun + 1)
  {
  }

  lemma SameRun(rows: map<string, MilestoneRow>, nextRun: nat, id: string, row: MilestoneRow)
    requires OwnRuns(rows, nextRun) && id in rows && row.runId == rows[id].runId
    ensures OwnRuns(rows[id := row], nextRun)
  {
  }

  class ContinuousProjectRunner {
    const milestones: seq<Milestone>
    var status: ProjectStatus
    var rows: map<string, MilestoneRow>
    var nextRun: nat

    ghost predicate Valid()
      reads this
    {
      && Acceptable(milestones) && (forall m | m in milestones :: m.id in rows)
      && OwnRuns(rows, nextRun)
    }

    constructor (milestones: seq<Milestone>)
      requires Acceptable(milestones)
      ensures Valid() && this.milestones == milestones && status == Created
      ensures forall id | id in rows :: rows[id] == MilestoneRow(Pending, None)
    {
      this.milestones, status, nextRun := milestones, Created, 0;
      rows := map id | id in Ids(milestones) :: MilestoneRow(Pending, None);
    }

    /** Create the milestone's run, unless an earlier call of `run` did, drive it and record how it ended. */
    method Drive(id: string, outcome: string -> Outcome) returns (o: Outcome)
      requires Valid() && id in rows
      modifies `rows, `nextRun
      ensures Valid() && o == outcome(id)
      ensures id in rows && rows == old(rows)[id := rows[id]]
      ensures old(rows)[id].runId.Some? ==> rows[id].runId == old(rows)[id].runId && nextRun == old(nextRun)
      ensures old(rows)[id].runId.None? ==> rows[id].runId == Some(old(nextRun)) && nextRun == old(nextRun) + 1
      ensures
        match o
        case Ready => rows[id].status == Accepted
        case RunFailed => rows[id].status == MilestoneFailed
        case StoppedElsewhere => rows[id].status == MilestoneBlocked
        case Raises => rows[id].status == if old(rows)[id].runId.None? then InProgress else old(rows)[id].status
    {
      hide Acceptable, OwnRuns;
      var row := rows[id];
      if row.runId.None? {
        row := MilestoneRow(InProgress, Some(nextRun));
        OneRunMore(rows, nextRun, id, row);
        rows, nextRun := rows[id := row], nextRun + 1;
      }
      o := outcome(id);
      if !o.Raises? {
        row := row.(status := if o == Ready then Accepted else if o == RunFailed then MilestoneFailed
                              else MilestoneBlocked);
        SameRun(rows, nextRun, id, row);
        rows := rows[id := row];
      }
    }

    /**
     `run`: the milestones are driven in order, each only when its dependencies are accepted,
     up to the first that does not become ready for review.  The project is ready for
     release exactly when every milestone is accepted.
     */
    method Run(outcome: string -> Outcome) returns (raised: bool, ghost order: seq<Milestone>, ghost k: nat)
      requires Valid()
      modifies this
      ensures Valid()
      ensures |order| == |milestones| && (forall m :: m in order <==> m in milestones) && UniqueIds(order)
      ensures DependenciesFirst(order) && Ordered(GraphOf(milestones), order)
      ensures k <= |order| && raised == (k < |order| && outcome(order[k].id).Raises?)
      ensures status == if k == |order| then ReadyForHumanRelease else if raised then Running else Blocked
      ensures k == |order| ==> AcceptedUpTo(order, k, outcome, old(rows), rows)
      ensures k < |order| ==> StoppedAt(order, k, outcome, old(rows), rows)
      ensures status == ReadyForHumanRelease <==> forall m | m in milestones :: IsAccepted(rows, m.id)
      ensures DownClosed(milestones, old(rows)) ==> DownClosed(milestones, rows)
    {
      hide Acceptable, Ordered, GraphOf, DownClosed, DependenciesFirst, OwnRuns;
      status := Running;
      var todo := OrderedMilestones(milestones);
      order, k := todo, |todo|;
      for i := 0 to |todo|
        invariant Valid() && status == Running && AcceptedUpTo(todo, i, outcome, old(rows), rows)
      {
        var m := todo[i];
        assert m in todo;
        AcceptedEarlier(todo, i, outcome, old(rows), rows);
        if rows[m.id].status == Accepted {
          continue;
        }
        if exists d :: d in m.dependencies && !IsAccepted(rows, d) {
          assert false; // "one or more dependencies are not accepted" is never reported
        }
        ghost var before := rows;
        var o := Drive(m.id, outcome);
        if o != Ready {
          k, raised := i, o.Raises?;
          assert rows[m.id := before[m.id]] == before;
          assert old(rows)[m.id] == before[m.id];
          if DownClosed(milestones, old(rows)) {
            StopKeepsClosed(milestones, todo, i, outcome, old(rows), rows);
          }
          if !raised {
            status := Blocked;
          }
          return;
        }
      }
      status, raised := ReadyForHumanRelease, false;
      AllAccepted(milestones, todo, outcome, old(rows), rows);
    }
  }

  /** The dependencies of the next milestone all stand before it, so they are accepted. */
  lemma AcceptedEarlier(order: seq<Milestone>, k: nat, outcome: string -> Outcome,
                        before: map<string, MilestoneRow>, after: map<string, MilestoneRow>)
    requires k < |order| && DependenciesFirst(order) && AcceptedUpTo(order, k, outcome, before, after)
    ensures forall d | d in order[k].dependencies :: IsAccepted(after, d)
  {
    forall d | d in order[k].dependencies ensures IsAccepted(after, d) {
      assert HasId(order[..k], d);
      var i :| 0 <= i < k && order[..k][i].id == d;
      assert order[i].id == d;
    }
  }

  lemma DependencyStands(order: seq<Milestone>, i: nat, d: string) returns (j: nat)
    requires DependenciesFirst(order) && i < |order| && d in order[i].dependencies
    ensures j < i && order[j].id == d
  {
    assert HasId(order[..i], d);
    j :| 0 <= j < i && order[..i][j].id == d;
  }

  /** Accepted milestones keep accepted dependencies, also across repeated runs. */
  lemma StopKeepsClosed(ms: seq<Milestone>, order: seq<Milestone>, k: nat, outcome: string -> Outcome,
                        before: map<string, MilestoneRow>, after: map<string, MilestoneRow>)
    requires (forall m :: m in order <==> m in ms) && (forall m | m in ms :: m.id in before) && UniqueIds(order)
    requires DependenciesFirst(order) && k < |order| && StoppedAt(order, k, outcome, before, after)
    requires DownClosed(ms, before)
    ensures DownClosed(ms, after)
  {
    var at := order[k].id;
    var upTo := after[at := before[at]];
    forall m, d | m in ms && d in m.dependencies && IsAccepted(after, m.id) ensures IsAccepted(after, d) {
      var i :| 0 <= i < |order| && order[i] == m;
      var j := DependencyStands(order, i, d);
      assert order[j] in ms;
      if i > k {
        assert upTo[m.id] == before[m.id] && IsAccepted(before, d);
        if j > k { assert upTo[d] == before[d]; } else { assert j < k; }
      }
      if j < k { assert IsAccepted(upTo, d); }
    }
  }

  lemma AllAccepted(ms: seq<Milestone>, order: seq<Milestone>, outcome: string -> Outcome,
                    before: map<string, MilestoneRow>, after: map<string, MilestoneRow>)
    requires AcceptedUpTo(order, |order|, outcome, before, after) && DependenciesFirst(order)
    requires forall m :: m in order <==> m in ms
    ensures (forall m | m in ms :: IsAccepted(after, m.id)) && DownClosed(ms, after)
  {
    forall m | m in ms ensures IsAccepted(after, m.id) {
      var i :| 0 <= i < |order| && order[i] == m;
    }
    forall m, d | m in ms && d in m.dependencies ensures IsAccepted(after, d) {
      var i :| 0 <= i < |order| && order[i] == m;
      var j := DependencyStands(order, i, d);
    }
  }
}
