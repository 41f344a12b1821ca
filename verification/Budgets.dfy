/**
 The call and cost budget as a ledger of values: nested milestone and project caps, and
 measured costs that may overrun them.  `BudgetStore` works on these tables.
 */
module Budgets {
  import opened Wrappers

  datatype Place = Place(project: string, milestone: string)

  datatype Limits = Limits(maxCalls: int, maxMicroUsd: Option<int>, projectMaxCalls: Option<int>,
                           projectMaxMicroUsd: Option<int>)

  datatype BudgetConfig = BudgetConfig(place: Place, limits: Limits)

  datatype Status = Pending | Executing | Settled

  datatype Reservation = Reservation(callId: string, place: Place, estimate: nat, actual: Option<nat>, status: Status)

  datatype Ledger = Ledger(configs: map<Place, Limits>, rows: seq<Reservation>)

  datatype BudgetError = ValueError | BudgetExceeded | KeyError | AlreadyClaimed

  datatype Scope = OfMilestone(place: Place) | OfProject(project: string)

  predicate In(scope: Scope, r: Reservation) {
    match scope
    case OfMilestone(place) => r.place == place
    case OfProject(project) => r.place.project == project
  }

  /** What a row contributes: one call, its cost (the estimate until it is measured), its overrun. */
  datatype Measure = Calls | Cost | Overrun

  function Weight(what: Measure, r: Reservation): nat {
    match what
    case Calls => 1
    case Cost => if r.actual.Some? then r.actual.value else r.estimate
    case Overrun => if r.actual.Some? && r.actual.value > r.estimate then r.actual.value - r.estimate else 0
  }

  function Part(what: Measure, scope: Scope, r: Reservation): nat {
    if In(scope, r) then Weight(what, r) else 0
  }

  /** `SELECT count(*)` or `sum(...)` over the rows of a scope. */
  function Total(what: Measure, scope: Scope, rows: seq<Reservation>): nat {
    if rows == [] then 0
    else Total(what, scope, rows[..|rows| - 1]) + Part(what, scope, rows[|rows| - 1])
  }

  predicate ValidLimits(l: Limits) {
    && l.maxCalls >= 1
    && (l.maxMicroUsd.Some? ==> l.maxMicroUsd.value >= 0)
    && (l.projectMaxCalls.Some? ==> l.projectMaxCalls.value >= 0)
    && (l.projectMaxMicroUsd.Some? ==> l.projectMaxMicroUsd.value >= 0)
  }

  predicate ValidConfig(c: BudgetConfig) {
    c.place.project != "" && c.place.milestone != "" && ValidLimits(c.limits)
  }

  predicate SameProjectLimits(a: Limits, b: Limits) {
    a.projectMaxCalls == b.projectMaxCalls && a.projectMaxMicroUsd == b.projectMaxMicroUsd
  }

  predicate HasMonetaryCap(l: Limits) {
    l.maxMicroUsd.Some? || l.projectMaxMicroUsd.Some?
  }

  predicate AtMost(total: int, cap: Option<int>, slack: int) {
    cap.Some? ==> total <= cap.value + slack
  }

  /** Calls within their caps, and cost within its caps but for `slack` and `projectSlack`. */
  predicate Within(rows: seq<Reservation>, place: Place, l: Limits, slack: int, projectSlack: int) {
    && Total(Calls, OfMilestone(place), rows) <= l.maxCalls
    && AtMost(Total(Calls, OfProject(place.project), rows), l.projectMaxCalls, 0)
    && AtMost(Total(Cost, OfMilestone(place), rows), l.maxMicroUsd, slack)
    && AtMost(Total(Cost, OfProject(place.project), rows), l.projectMaxMicroUsd, projectSlack)
  }

  /** No cap is exceeded at all. */
  predicate Fits(rows: seq<Reservation>, place: Place, l: Limits) {
    Within(rows, place, l, 0, 0)
  }

  predicate Compatible(configs: map<Place, Limits>, c: BudgetConfig) {
    && (forall p | p in configs && p.project == c.place.project :: SameProjectLimits(configs[p], c.limits))
    && (c.place in configs ==> configs[c.place] == c.limits)
  }

  // ---------- The invariant ----------

  ghost predicate UniqueIds(rows: seq<Reservation>) {
    forall i, j | 0 <= i < j < |rows| :: rows[i].callId != rows[j].callId
  }

  ghost predicate RowKnown(configs: map<Place, Limits>, r: Reservation) {
    && r.place in configs
    && (r.actual.Some? ==> r.status == Settled)
    && (HasMonetaryCap(configs[r.place]) ==> r.estimate > 0)
  }

  ghost predicate ConfigsAgree(configs: map<Place, Limits>) {
    && (forall p | p in configs :: ValidLimits(configs[p]))
    && (forall p, q | p in configs && q in configs && p.project == q.project ::
        SameProjectLimits(configs[p], configs[q]))
  }

  /** Every measured overrun is allowed for, and nothing more. */
  ghost predicate Capped(l: Ledger, place: Place)
    requires place in l.configs
  {
    Within(l.rows, place, l.configs[place],
           Total(Overrun, OfMilestone(place), l.rows), Total(Overrun, OfProject(place.project), l.rows))
  }

  ghost predicate Inv(l: Ledger) {
    && UniqueIds(l.rows)
    && ConfigsAgree(l.configs)
    && (forall i | 0 <= i < |l.rows| :: RowKnown(l.configs, l.rows[i]))
    && (forall p | p in l.configs :: Capped(l, p))
  }

  // ---------- Totals ----------

  lemma TotalAdd(what: Measure, scope: Scope, rows: seq<Reservation>, r: Reservation)
    ensures Total(what, scope, rows + [r]) == Total(what, scope, rows) + Part(what, scope, r)
  {
    assert (rows + [r])[..|rows|] == rows;
  }

  lemma {:induction false} TotalUpdate(what: Measure, scope: Scope, rows: seq<Reservation>, i: nat, r: Reservation)
    requires i < |rows|
    ensures Total(what, scope, rows[i := r]) + Part(what, scope, rows[i]) ==
      Total(what, scope, rows) + Part(what, scope, r)
    decreases |rows|
  {
    var n := |rows| - 1;
    if i < n {
      TotalUpdate(what, scope, rows[..n], i, r);
      assert rows[i := r][..n] == rows[..n][i := r];
    } else {
      assert rows[i := r][..n] == rows[..n];
    }
  }

  lemma {:induction false} NoRowsNoTotal(what: Measure, scope: Scope, rows: seq<Reservation>)
    requires forall i | 0 <= i < |rows| :: !In(scope, rows[i])
    ensures Total(what, scope, rows) == 0
  {
    if rows != [] { NoRowsNoTotal(what, scope, rows[..|rows| - 1]); }
  }

  ghost function RowsIn(rows: seq<Reservation>, scope: Scope): set<int> {
    set i | 0 <= i < |rows| && In(scope, rows[i])
  }

  lemma RowsInNext(rows: seq<Reservation>, r: Reservation, scope: Scope)
    ensures RowsIn(rows + [r], scope) == RowsIn(rows, scope) + if In(scope, r) then {|rows|} else {}
    ensures |rows| !in RowsIn(rows, scope)
  {
    hide In;
  }

  lemma {:induction false} RowsCounted(rows: seq<Reservation>, scope: Scope)
    ensures Total(Calls, scope, rows) == |RowsIn(rows, scope)|
  {
    if rows != [] {
      var before, last := rows[..|rows| - 1], rows[|rows| - 1];
      RowsCounted(before, scope);
      RowsInNext(before, last, scope);
      assert before + [last] == rows;
      hide RowsIn, In;
    }
  }

  /** `count(*)` counts rows, whatever became of them. */
  lemma CallsCounted(rows: seq<Reservation>, place: Place)
    ensures Total(Calls, OfMilestone(place), rows) == |set i | 0 <= i < |rows| && rows[i].place == place|
    ensures Total(Calls, OfProject(place.project), rows) ==
      |set i | 0 <= i < |rows| && rows[i].place.project == place.project|
  {
    RowsCounted(rows, OfMilestone(place));
    RowsCounted(rows, OfProject(place.project));
    assert RowsIn(rows, OfMilestone(place)) ==
      set i | 0 <= i < |rows| && rows[i].place == place;
    assert RowsIn(rows, OfProject(place.project)) ==
      set i | 0 <= i < |rows| && rows[i].place.project == place.project;
  }

  /** `sum(coalesce(actual, estimate))` is a sum over the rows of the place, and of the project. */
  lemma {:induction false} CostSums(a: seq<Reservation>, b: seq<Reservation>, r: Reservation, place: Place)
    ensures var cost := if r.actual.Some? then r.actual.value else r.estimate;
      && Total(Cost, OfMilestone(place), [r]) == (if r.place == place then cost else 0)
      && Total(Cost, OfProject(place.project), [r]) == (if r.place.project == place.project then cost else 0)
    ensures forall scope :: Total(Cost, scope, a + b) == Total(Cost, scope, a) + Total(Cost, scope, b)
    decreases |b|
  {
    assert [r][..0] == [];
    if b == [] {
      assert a + b == a;
    } else {
      CostSums(a, b[..|b| - 1], r, place);
      assert (a + b)[..|a + b| - 1] == a + b[..|b| - 1];
    }
  }

  /** `b` is `a` with every measured cost above its estimate cut down to the estimate. */
  ghost predicate Clipped(a: seq<Reservation>, b: seq<Reservation>) {
    |a| == |b| && forall i | 0 <= i < |a| ::
      b[i] == if a[i].actual.Some? && a[i].actual.value > a[i].estimate
              then a[i].(actual := Some(a[i].estimate)) else a[i]
  }

  lemma {:induction false} OverrunsClipped(rows: seq<Reservation>, clipped: seq<Reservation>, scope: Scope)
    requires Clipped(rows, clipped)
    ensures Total(Cost, scope, clipped) + Total(Overrun, scope, rows) == Total(Cost, scope, rows)
  {
    if rows != [] { OverrunsClipped(rows[..|rows| - 1], clipped[..|rows| - 1], scope); }
  }

  /**
   What the caps are for: never more calls than allowed, and never more cost than allowed
   but for what measured costs exceed their own estimates by.
   */
  lemma OnlyOverrunsExceed(l: Ledger, place: Place, clipped: seq<Reservation>)
    requires Inv(l) && place in l.configs && Clipped(l.rows, clipped)
    ensures var limits := l.configs[place];
      && |set i | 0 <= i < |l.rows| && l.rows[i].place == place| <= limits.maxCalls
      && (limits.projectMaxCalls.Some? ==>
            |set i | 0 <= i < |l.rows| && l.rows[i].place.project == place.project| <= limits.projectMaxCalls.value)
      && (limits.maxMicroUsd.Some? ==> Total(Cost, OfMilestone(place), clipped) <= limits.maxMicroUsd.value)
      && (limits.projectMaxMicroUsd.Some? ==>
            Total(Cost, OfProject(place.project), clipped) <= limits.projectMaxMicroUsd.value)
  {
    CallsCounted(l.rows, place);
    OverrunsClipped(l.rows, clipped, OfMilestone(place));
    OverrunsClipped(l.rows, clipped, OfProject(place.project));
    assert Capped(l, place);
  }

  // ---------- The steps keep the invariant ----------

  lemma ConfigureKeeps(l: Ledger, c: BudgetConfig)
    requires Inv(l) && ValidConfig(c) && Compatible(l.configs, c)
    ensures Inv(l.(configs := l.configs[c.place := c.limits]))
  {
    var l' := l.(configs := l.configs[c.place := c.limits]);
    if c.place in l.configs {
      assert l' == l;
    } else {
      forall p | p in l'.configs ensures Capped(l', p) {
        if p == c.place { NewPlaceCapped(l, c); } else { assert Capped(l, p); }
      }
      AgreeKept(l.configs, c);
      hide Capped, ConfigsAgree;
      forall i | 0 <= i < |l.rows| ensures RowKnown(l'.configs, l.rows[i]) {
        assert RowKnown(l.configs, l.rows[i]);
      }
    }
  }

  lemma AgreeKept(configs: map<Place, Limits>, c: BudgetConfig)
    requires ConfigsAgree(configs) && ValidConfig(c) && Compatible(configs, c)
    ensures ConfigsAgree(configs[c.place := c.limits])
  {
  }

  lemma NewPlaceCapped(l: Ledger, c: BudgetConfig)
    requires Inv(l) && ValidConfig(c) && Compatible(l.configs, c) && c.place !in l.configs
    ensures Capped(l.(configs := l.configs[c.place := c.limits]), c.place)
  {
    forall what ensures Total(what, OfMilestone(c.place), l.rows) == 0 {
      NoRowsNoTotal(what, OfMilestone(c.place), l.rows);
    }
    if p :| p in l.configs && p.project == c.place.project {
      assert Capped(l, p) && SameProjectLimits(l.configs[p], c.limits);
    } else {
      forall what ensures Total(what, OfProject(c.place.project), l.rows) == 0 {
        NoRowsNoTotal(what, OfProject(c.place.project), l.rows);
      }
    }
  }

  /** One more row that fits keeps every cap, also those of the project's other milestones. */
  lemma ReserveKeeps(l: Ledger, r: Reservation)
    requires Inv(l) && RowKnown(l.configs, r) && r.actual.None?
    requires forall i | 0 <= i < |l.rows| :: l.rows[i].callId != r.callId
    requires Fits(l.rows + [r], r.place, l.configs[r.place])
    ensures Inv(l.(rows := l.rows + [r]))
  {
    var l' := l.(rows := l.rows + [r]);
    forall p | p in l.configs ensures Capped(l', p) {
      assert Capped(l, p);
      forall what, scope ensures Total(what, scope, l'.rows) == Total(what, scope, l.rows) + Part(what, scope, r) {
        TotalAdd(what, scope, l.rows, r);
      }
      if p.project == r.place.project {
        assert SameProjectLimits(l.configs[p], l.configs[r.place]);
      }
    }
  }

  function Settling(r: Reservation, actual: Option<nat>): Reservation {
    r.(actual := actual, status := Settled)
  }

  /** The total `settle` computes incrementally is the sum over the table it leaves behind. */
  lemma IncrementalTotal(l: Ledger, i: nat, actual: Option<nat>, scope: Scope)
    requires Inv(l) && i < |l.rows| && l.rows[i].status != Settled && In(scope, l.rows[i])
    ensures Total(Cost, scope, l.rows[i := Settling(l.rows[i], actual)]) ==
      Total(Cost, scope, l.rows) - l.rows[i].estimate + (if actual.Some? then actual.value else l.rows[i].estimate)
  {
    assert RowKnown(l.configs, l.rows[i]);
    TotalUpdate(Cost, scope, l.rows, i, Settling(l.rows[i], actual));
  }

  lemma UpdateCapped(l: Ledger, i: nat, r: Reservation, p: Place)
    requires p in l.configs && Capped(l, p) && i < |l.rows| && l.rows[i].actual.None?
    requires r.place == l.rows[i].place && r.estimate == l.rows[i].estimate
    ensures Capped(l.(rows := l.rows[i := r]), p)
  {
    forall what, scope
      ensures Total(what, scope, l.rows[i := r]) + Part(what, scope, l.rows[i]) ==
        Total(what, scope, l.rows) + Part(what, scope, r)
    {
      TotalUpdate(what, scope, l.rows, i, r);
    }
  }

  lemma UpdateKeeps(l: Ledger, i: nat, r: Reservation)
    requires Inv(l) && i < |l.rows| && l.rows[i].actual.None?
    requires r.callId == l.rows[i].callId && r.place == l.rows[i].place && r.estimate == l.rows[i].estimate
    requires r.actual.Some? ==> r.status == Settled
    ensures Inv(l.(rows := l.rows[i := r]))
  {
    var l' := l.(rows := l.rows[i := r]);
    assert RowKnown(l.configs, l.rows[i]);
    forall p | p in l.configs ensures Capped(l', p) {
      UpdateCapped(l, i, r, p);
    }
    hide Capped;
    forall j | 0 <= j < |l'.rows| ensures RowKnown(l.configs, l'.rows[j]) {
      assert RowKnown(l.configs, l.rows[j]);
    }
  }

  /** Once spending has reached a monetary cap, no new reservation fits. */
  lemma SpentOutRefuses(l: Ledger, r: Reservation)
    requires Inv(l) && RowKnown(l.configs, r)
    requires var limits := l.configs[r.place];
      || (limits.maxMicroUsd.Some? && Total(Cost, OfMilestone(r.place), l.rows) >= limits.maxMicroUsd.value)
      || (limits.projectMaxMicroUsd.Some?
          && Total(Cost, OfProject(r.place.project), l.rows) >= limits.projectMaxMicroUsd.value)
    requires r.actual.None?
    ensures !Fits(l.rows + [r], r.place, l.configs[r.place])
  {
    TotalAdd(Cost, OfMilestone(r.place), l.rows, r);
    TotalAdd(Cost, OfProject(r.place.project), l.rows, r);
  }

  // ---------- How a ledger may develop ----------

  function Rank(s: Status): nat {
    match s
    case Pending => 0
    case Executing => 1
    case Settled => 2
  }

  ghost predicate RowLater(a: Reservation, b: Reservation) {
    && a.callId == b.callId && a.place == b.place && a.estimate == b.estimate
    && Rank(a.status) <= Rank(b.status)
    && (a.status == Settled ==> b == a)
  }

  /** Configurations and rows are never removed, statuses only move forward, settled rows are final. */
  ghost predicate Later(a: Ledger, b: Ledger) {
    && (forall p | p in a.configs :: p in b.configs && b.configs[p] == a.configs[p])
    && |a.rows| <= |b.rows|
    && (forall i | 0 <= i < |a.rows| :: RowLater(a.rows[i], b.rows[i]))
  }

  lemma LaterTransitive(a: Ledger, b: Ledger, c: Ledger)
    requires Later(a, b) && Later(b, c)
    ensures Later(a, c)
  {
    forall i | 0 <= i < |a.rows| ensures RowLater(a.rows[i], c.rows[i]) {
      assert RowLater(a.rows[i], b.rows[i]) && RowLater(b.rows[i], c.rows[i]);
    }
  }
}
