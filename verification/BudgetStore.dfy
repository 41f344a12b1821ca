/** The budget store's transactions, and the provider wrapper that reserves, claims, runs and settles. */
module BudgetStores {
  import opened Wrappers
  import opened Budgets

  /** A transaction another process may commit between two of ours. */
  datatype Transaction =
    | Configuring(config: BudgetConfig)
    | Reserving(config: BudgetConfig, callId: string, estimate: int)
    | Claiming(callId: string)
    | Settling(callId: string, actual: Option<int>)

  predicate HasId(rows: seq<Reservation>, callId: string) {
    exists i :: 0 <= i < |rows| && rows[i].callId == callId
  }

  predicate Began(rows: seq<Reservation>, callId: string) {
    exists i :: 0 <= i < |rows| && rows[i].callId == callId && rows[i].status != Pending
  }

  /** Exactly the ids whose execution was claimed were started, each once. */
  ghost predicate StartedOnce(rows: seq<Reservation>, started: seq<string>) {
    && (forall i, j | 0 <= i < j < |started| :: started[i] != started[j])
    && (forall id | id in started :: Began(rows, id))
    && (forall i | 0 <= i < |rows| && rows[i].status == Executing :: rows[i].callId in started)
  }

  class BudgetStore {
    var configs: map<Place, Limits>
    var rows: seq<Reservation>
    ghost var started: seq<string>

    ghost function State(): Ledger
      reads this
    {
      Ledger(configs, rows)
    }

    ghost predicate Valid()
      reads this
    {
      Inv(State()) && StartedOnce(rows, started)
    }

    constructor ()
      ensures Valid() && configs == map[] && rows == [] && started == []
    {
      configs, rows, started := map[], [], [];
    }

    /** The row with this id: `WHERE call_id=?` on the primary key. */
    method Find(callId: string) returns (r: Option<nat>)
      ensures r.None? <==> !HasId(rows, callId)
      ensures r.Some? ==> r.value < |rows| && rows[r.value].callId == callId
    {
      for i := 0 to |rows|
        invariant forall j | 0 <= j < i :: rows[j].callId != callId
      {
        if rows[i].callId == callId {
          return Some(i);
        }
      }
      return None;
    }

    /** `_configure_tx`: comparing with any one row of the project settles agreement with all of them. */
    method ConfigureTx(c: BudgetConfig) returns (r: Result<(), BudgetError>)
      requires Valid() && ValidConfig(c)
      modifies `configs
      ensures Valid() && Later(old(State()), State())
      ensures r.Ok? <==> Compatible(old(configs), c)
      ensures configs == if r.Ok? then old(configs)[c.place := c.limits] else old(configs)
      ensures r.Err? ==> r.error == ValueError
    {
      hide Inv;
      var ofProject := set p | p in configs && p.project == c.place.project;
      assert forall p | p in configs && p.project == c.place.project :: p in ofProject;
      if ofProject != {} {
        var any :| any in ofProject;
        AnyRowDecides(State(), configs, any, c);
        if !SameProjectLimits(configs[any], c.limits) {
          return Err(ValueError);
        }
      }
      if c.place in configs {
        if configs[c.place] != c.limits {
          return Err(ValueError);
        }
        assert configs[c.place := c.limits] == configs && Compatible(configs, c);
      } else {
        ConfigureKeeps(State(), c);
        configs := configs[c.place := c.limits];
      }
      return Ok(());
    }

    method Configure(c: BudgetConfig) returns (r: Result<(), BudgetError>)
      requires Valid()
      modifies `configs
      ensures Valid() && Later(old(State()), State())
      ensures r.Ok? <==>
        && c.place.project != "" && c.place.milestone != "" && c.limits.maxCalls >= 1
        && (forall cap | cap in [c.limits.maxMicroUsd, c.limits.projectMaxCalls, c.limits.projectMaxMicroUsd] ::
              cap.Some? ==> cap.value >= 0)
        && (forall p | p in old(configs) && p.project == c.place.project ::
              && old(configs)[p].projectMaxCalls == c.limits.projectMaxCalls
              && old(configs)[p].projectMaxMicroUsd == c.limits.projectMaxMicroUsd)
        && (c.place in old(configs) ==> old(configs)[c.place] == c.limits)
      ensures configs == if r.Ok? then old(configs)[c.place := c.limits] else old(configs)
      ensures r.Err? ==> r.error == ValueError
    {
      if !ValidConfig(c) {
        return Err(ValueError);
      }
      r := ConfigureTx(c);
    }

    /**
     `reserve`.  A known id is idempotent; a new one is admitted exactly when the table with
     it in breaks no cap; every refusal leaves the tables as they were.
     */
    method Reserve(c: BudgetConfig, callId: string, estimate: int) returns (r: Result<string, BudgetError>)
      requires Valid()
      modifies `configs, `rows
      ensures Valid() && Later(old(State()), State())
      ensures r.Err? ==> State() == old(State())
      ensures r.Ok? ==> r.value == callId && ValidConfig(c) && estimate >= 0 && Compatible(old(configs), c)
      ensures r.Ok? && HasId(old(rows), callId) ==>
        && State() == old(State())
        && exists i ::
          0 <= i < |rows| && rows[i].callId == callId && rows[i].place == c.place && rows[i].estimate == estimate
      ensures r.Ok? && !HasId(old(rows), callId) ==>
        && configs == old(configs)[c.place := c.limits]
        && rows == old(rows) + [Reservation(callId, c.place, estimate, None, Pending)]
        && (HasMonetaryCap(c.limits) ==> estimate > 0)
      ensures var l, rows0 := c.limits, old(rows);
        var calls := |set i | 0 <= i < |rows0| && rows0[i].place == c.place|;
        var projectCalls := |set i | 0 <= i < |rows0| && rows0[i].place.project == c.place.project|;
        var cost := Total(Cost, OfMilestone(c.place), rows0);
        var projectCost := Total(Cost, OfProject(c.place.project), rows0);
        var exhausted :=
          || calls >= l.maxCalls
          || (l.projectMaxCalls.Some? && projectCalls >= l.projectMaxCalls.value)
          || (l.maxMicroUsd.Some? && cost + estimate > l.maxMicroUsd.value)
          || (l.projectMaxMicroUsd.Some? && projectCost + estimate > l.projectMaxMicroUsd.value);
        && (r.Ok? && !HasId(rows0, callId) ==> !exhausted)
        && (r == Err(BudgetExceeded) ==>
              || (estimate == 0 && (l.maxMicroUsd.Some? || l.projectMaxMicroUsd.Some?))
              || (!HasId(rows0, callId) && exhausted))
      ensures r == Err(BudgetExceeded) ==> ValidConfig(c) && estimate >= 0
      ensures r == Err(BudgetExceeded) && !(HasMonetaryCap(c.limits) && estimate == 0) ==>
        && !HasId(old(rows), callId)
        && !Fits(old(rows) + [Reservation(callId, c.place, estimate, None, Pending)], c.place, c.limits)
      ensures r.Err? && r.error != BudgetExceeded ==> r.error == ValueError
      ensures r == Err(ValueError) ==>
        || !ValidConfig(c) || estimate < 0 || !Compatible(old(configs), c)
        || exists i :: 0 <= i < |rows| && rows[i].callId == callId
                       && (rows[i].place != c.place || rows[i].estimate != estimate)
    {
      hide Inv, Total;
      if !ValidConfig(c) || estimate < 0 {
        return Err(ValueError);
      }
      if HasMonetaryCap(c.limits) && estimate == 0 {
        return Err(BudgetExceeded);
      }
      ghost var before := State();
      var saved := configs;
      var _ :- ConfigureTx(c);
      ghost var configured := State();
      var prior := Find(callId);
      if prior.Some? {
        var row := rows[prior.value];
        KnownPlace(before, prior.value);
        if row.place != c.place || row.estimate != estimate {
          configs := saved;
          return Err(ValueError);
        }
        assert configs == saved;
        return Ok(callId);
      }
      var limits := configs[c.place];
      var usedCalls := Total(Calls, OfMilestone(c.place), rows);
      var projectCalls := Total(Calls, OfProject(c.place.project), rows);
      var usedCost := Total(Cost, OfMilestone(c.place), rows);
      var projectCost := Total(Cost, OfProject(c.place.project), rows);
      var row := Reservation(callId, c.place, estimate, None, Pending);
      FitsIff(rows, row, limits);
      CallsCounted(rows, c.place);
      if || usedCalls >= limits.maxCalls
         || (limits.projectMaxCalls.Some? && projectCalls >= limits.projectMaxCalls.value)
         || (limits.maxMicroUsd.Some? && usedCost + estimate > limits.maxMicroUsd.value)
         || (limits.projectMaxMicroUsd.Some? && projectCost + estimate > limits.projectMaxMicroUsd.value)
      {
        configs := saved;
        return Err(BudgetExceeded);
      }
      RowAdded(State(), started, row);
      rows := rows + [row];
      LaterTransitive(old(State()), configured, State());
      return Ok(callId);
    }

    /** `claim_execution`: succeeds only for a pending reservation, which is pending no more. */
    method ClaimExecution(callId: string) returns (r: Result<(), BudgetError>)
      requires Valid()
      modifies `rows, `started
      ensures Valid() && Later(old(State()), State())
      ensures r.Ok? ==> callId !in old(started) && started == old(started) + [callId]
      ensures r.Ok? ==>
        exists i :: 0 <= i < |old(rows)| && old(rows)[i].callId == callId && old(rows)[i].status == Pending
                    && rows == old(rows)[i := old(rows)[i].(status := Executing)]
      ensures r.Err? ==> State() == old(State()) && started == old(started)
      ensures r.Ok? <==>
        exists i :: 0 <= i < |old(rows)| && old(rows)[i].callId == callId && old(rows)[i].status == Pending
      ensures r == Err(KeyError) <==> !HasId(old(rows), callId)
      ensures r.Err? && r.error != KeyError ==> r.error == AlreadyClaimed && Began(rows, callId)
    {
      hide Inv;
      var found := Find(callId);
      if found.None? {
        return Err(KeyError);
      }
      var i := found.value;
      IdsUnique(State());
      if rows[i].status != Pending {
        return Err(AlreadyClaimed);
      }
      ClaimKeeps(State(), started, i);
      rows, started := rows[i := rows[i].(status := Executing)], started + [callId];
      return Ok(());
    }

    /**
     `settle`.  A measured overrun is recorded and raised; the totals compared with the caps
     are those of the table it leaves behind; a settled row is not rewritten.
     */
    method Settle(callId: string, actual: Option<int>) returns (r: Result<(), BudgetError>)
      requires Valid()
      modifies `rows
      ensures Valid() && Later(old(State()), State())
      ensures r == Err(ValueError) <==>
        || (actual.Some? && actual.value < 0)
        || exists i :: 0 <= i < |old(rows)| && old(rows)[i].callId == callId && old(rows)[i].status == Settled
                       && old(rows)[i].actual != actual
      ensures r == Err(KeyError) <==> !HasId(rows, callId) && (actual.Some? ==> actual.value >= 0)
      ensures (r.Err? && r.error in {ValueError, KeyError}) ==> rows == old(rows)
      ensures r.Ok? || r.error in {ValueError, KeyError, BudgetExceeded}
      ensures r.Ok? || r.error == BudgetExceeded ==>
        exists i :: 0 <= i < |rows| && |rows| == |old(rows)| && old(rows)[i].callId == callId
                    && rows == old(rows)[i := old(rows)[i].(actual := actual, status := Settled)]
                    && (r.Err? ==> old(rows)[i].status != Settled)
                    && (old(rows)[i].status != Settled ==> (r.Ok? <==> CostFits(rows, rows[i].place)))
    {
      hide Inv, Total;
      if actual.Some? && actual.value < 0 {
        return Err(ValueError);
      }
      var found := Find(callId);
      if found.None? {
        return Err(KeyError);
      }
      var i := found.value;
      var row := rows[i];
      IdsUnique(State());
      if row.status == Settled {
        if row.actual != actual {
          return Err(ValueError);
        }
        assert rows == rows[i := Budgets.Settling(row, actual)];
        return Ok(());
      }
      KnownPlace(State(), i);
      var limits := configs[row.place];
      var cost := if actual.Some? then actual.value else row.estimate;
      var milestoneTotal := Total(Cost, OfMilestone(row.place), rows) - row.estimate + cost;
      var projectTotal := Total(Cost, OfProject(row.place.project), rows) - row.estimate + cost;
      IncrementalTotal(State(), i, actual, OfMilestone(row.place));
      IncrementalTotal(State(), i, actual, OfProject(row.place.project));
      SettleKeeps(State(), started, i, actual);
      rows := rows[i := Budgets.Settling(row, actual)];
      if || (limits.maxMicroUsd.Some? && milestoneTotal > limits.maxMicroUsd.value)
         || (limits.projectMaxMicroUsd.Some? && projectTotal > limits.projectMaxMicroUsd.value)
      {
        return Err(BudgetExceeded);
      }
      return Ok(());
    }

    /** The recomputed costs of this place and its project are within their caps. */
    ghost predicate CostFits(rows: seq<Reservation>, place: Place)
      reads this
    {
      place in configs
      && AtMost(Total(Cost, OfMilestone(place), rows), configs[place].maxMicroUsd, 0)
      && AtMost(Total(Cost, OfProject(place.project), rows), configs[place].projectMaxMicroUsd, 0)
    }

    /** Any transactions of other processes, in any number and order. */
    method Interleave()
      requires Valid()
      modifies this
      ensures Valid() && Later(old(State()), State()) && old(started) <= started
    {
      var n: nat := *;
      while n > 0
        invariant Valid() && Later(old(State()), State()) && old(started) <= started
      {
        ghost var before := State();
        var t: Transaction := *;
        match t {
          case Configuring(c) => var _ := Configure(c);
          case Reserving(c, id, estimate) => var _ := Reserve(c, id, estimate);
          case Claiming(id) => var _ := ClaimExecution(id);
          case Settling(id, actual) => var _ := Settle(id, actual);
        }
        LaterTransitive(old(State()), before, State());
        n := n - 1;
      }
    }
  }

  lemma KnownPlace(l: Ledger, i: nat)
    requires Inv(l) && i < |l.rows|
    ensures l.rows[i].place in l.configs && (l.rows[i].actual.Some? ==> l.rows[i].status == Settled)
  {
    assert RowKnown(l.configs, l.rows[i]);
  }

  lemma FitsIff(rows: seq<Reservation>, r: Reservation, limits: Limits)
    requires r.actual.None?
    ensures Fits(rows + [r], r.place, limits) <==>
      && Total(Calls, OfMilestone(r.place), rows) < limits.maxCalls
      && (limits.projectMaxCalls.Some? ==>
          Total(Calls, OfProject(r.place.project), rows) < limits.projectMaxCalls.value)
      && (limits.maxMicroUsd.Some? ==> Total(Cost, OfMilestone(r.place), rows) + r.estimate <= limits.maxMicroUsd.value)
      && (limits.projectMaxMicroUsd.Some? ==>
          Total(Cost, OfProject(r.place.project), rows) + r.estimate <= limits.projectMaxMicroUsd.value)
  {
    TotalAdd(Calls, OfMilestone(r.place), rows, r);
    TotalAdd(Calls, OfProject(r.place.project), rows, r);
    TotalAdd(Cost, OfMilestone(r.place), rows, r);
    TotalAdd(Cost, OfProject(r.place.project), rows, r);
  }

  /** All rows of a project agree on its limits, so any one of them decides. */
  lemma AnyRowDecides(l: Ledger, configs: map<Place, Limits>, any: Place, c: BudgetConfig)
    requires Inv(l) && l.configs == configs && any in configs && any.project == c.place.project
    ensures SameProjectLimits(configs[any], c.limits) <==>
      forall p | p in configs && p.project == c.place.project :: SameProjectLimits(configs[p], c.limits)
  {
  }

  lemma RowAdded(l: Ledger, started: seq<string>, r: Reservation)
    requires Inv(l) && StartedOnce(l.rows, started) && !HasId(l.rows, r.callId)
    requires RowKnown(l.configs, r) && r.actual.None? && r.status == Pending
    requires Fits(l.rows + [r], r.place, l.configs[r.place])
    ensures Inv(l.(rows := l.rows + [r])) && StartedOnce(l.rows + [r], started) && Later(l, l.(rows := l.rows + [r]))
  {
    ReserveKeeps(l, r);
    hide Inv;
    forall other | other in started ensures Began(l.rows + [r], other) {
      var j :| 0 <= j < |l.rows| && l.rows[j].callId == other && l.rows[j].status != Pending;
      assert (l.rows + [r])[j] == l.rows[j];
    }
  }

  lemma StatusAdvances(rows: seq<Reservation>, started: seq<string>, i: nat, r: Reservation)
    requires StartedOnce(rows, started) && i < |rows| && r.callId == rows[i].callId && r.status != Pending
    ensures forall other | other in started :: Began(rows[i := r], other)
  {
    forall other | other in started ensures Began(rows[i := r], other) {
      var j :| 0 <= j < |rows| && rows[j].callId == other && rows[j].status != Pending;
      assert rows[i := r][j].callId == other && rows[i := r][j].status != Pending;
    }
  }

  lemma ClaimKeeps(l: Ledger, started: seq<string>, i: nat)
    requires Inv(l) && StartedOnce(l.rows, started) && i < |l.rows| && l.rows[i].status == Pending
    ensures var rows := l.rows[i := l.rows[i].(status := Executing)];
      && l.rows[i].callId !in started
      && Inv(l.(rows := rows)) && StartedOnce(rows, started + [l.rows[i].callId]) && Later(l, l.(rows := rows))
  {
    hide Inv;
    var id, r := l.rows[i].callId, l.rows[i].(status := Executing);
    var rows := l.rows[i := r];
    KnownPlace(l, i);
    UpdateKeeps(l, i, r);
    IdsUnique(l);
    StatusAdvances(l.rows, started, i, r);
    assert rows[i].callId == id && rows[i].status != Pending;
  }

  lemma IdsUnique(l: Ledger)
    requires Inv(l)
    ensures UniqueIds(l.rows)
  {
  }

  lemma SettleKeeps(l: Ledger, started: seq<string>, i: nat, actual: Option<nat>)
    requires Inv(l) && StartedOnce(l.rows, started) && i < |l.rows| && l.rows[i].status != Settled
    ensures var rows := l.rows[i := Budgets.Settling(l.rows[i], actual)];
      Inv(l.(rows := rows)) && StartedOnce(rows, started) && Later(l, l.(rows := rows))
  {
    hide Inv;
    KnownPlace(l, i);
    UpdateKeeps(l, i, Budgets.Settling(l.rows[i], actual));
    StatusAdvances(l.rows, started, i, Budgets.Settling(l.rows[i], actual));
  }
}
