/** The budgeted provider wrapper: reserve, claim, run the adapter, settle. */
module Providers {
  import opened Wrappers
  import opened Budgets
  import opened BudgetStores
  import opened CallIds

  datatype ProviderError = NoInvocation | Refused(error: BudgetError) | AdapterFailed

  /** What the wrapped adapter does: it answers, perhaps with a measured cost, or raises. */
  datatype Answer = Answers(usage: Option<int>) | Raises

  /** The measured cost of this call is on record, for good. */
  predicate Recorded(rows: seq<Reservation>, callId: string, usage: Option<int>) {
    exists i :: 0 <= i < |rows| && rows[i].callId == callId && rows[i].status == Settled && rows[i].actual == usage
  }

  /** The reported cost is no cost, or the call was settled with another one. */
  predicate Unsettleable(rows: seq<Reservation>, callId: string, usage: Option<int>) {
    || (usage.Some? && usage.value < 0)
    || exists i :: 0 <= i < |rows| && rows[i].callId == callId && rows[i].status == Settled && rows[i].actual != usage
  }

  lemma IdStays(a: Ledger, b: Ledger, callId: string)
    requires Later(a, b)
    ensures HasId(a.rows, callId) ==> HasId(b.rows, callId)
  {
    if i :| 0 <= i < |a.rows| && a.rows[i].callId == callId {
      assert RowLater(a.rows[i], b.rows[i]);
    }
  }

  lemma ReservedHasId(before: seq<Reservation>, after: seq<Reservation>, callId: string)
    requires HasId(before, callId) ==> after == before
    requires !HasId(before, callId) ==> after != [] && after[|after| - 1].callId == callId
    ensures HasId(after, callId)
  {
  }

  class BudgetedAgentAdapter {
    const budget: BudgetStore
    const config: BudgetConfig
    const provider: string
    const estimate: int
    /** The call ids the wrapped adapter was run for. */
    ghost var runs: seq<string>

    constructor (budget: BudgetStore, config: BudgetConfig, provider: string, estimate: int)
      ensures this.budget == budget && this.config == config && this.provider == provider && this.estimate == estimate
      ensures runs == []
    {
      this.budget, this.config, this.provider, this.estimate, runs := budget, config, provider, estimate, [];
    }

    /** Why `reserve` refuses this call in these tables. */
    ghost predicate Unreservable(l: Ledger, id: string, error: BudgetError) {
      match error
      case ValueError =>
        || !ValidConfig(config) || estimate < 0 || !Compatible(l.configs, config)
        || exists i :: 0 <= i < |l.rows| && l.rows[i].callId == id
                       && (l.rows[i].place != config.place || l.rows[i].estimate != estimate)
      case BudgetExceeded =>
        || (HasMonetaryCap(config.limits) && estimate == 0)
        || (!HasId(l.rows, id) && estimate >= 0
            && !Fits(l.rows + [Reservation(id, config.place, estimate, None, Pending)], config.place, config.limits))
      case _ => false
    }

    /** Reserve, then claim: success starts an id that nobody had started. */
    method Admit(id: string) returns (r: Result<(), BudgetError>)
      requires budget.Valid()
      modifies budget
      ensures budget.Valid() && Later(old(budget.State()), budget.State()) && old(budget.started) <= budget.started
      ensures r.Ok? ==> id !in old(budget.started) && id in budget.started && HasId(budget.rows, id)
      ensures r == Err(AlreadyClaimed) ==> Began(budget.rows, id)
      ensures r.Err? && r.error != AlreadyClaimed ==>
        Unreservable(old(budget.State()), id, r.error) && budget.State() == old(budget.State())
    {
      hide Inv, Later, StartedOnce, Fits, Compatible, HasId, ValidConfig, HasMonetaryCap;
      ghost var l0 := budget.State();
      var _ :- budget.Reserve(config, id, estimate);
      ghost var l1 := budget.State();
      assert HasId(l1.rows, id) by { ReservedHasId(l0.rows, l1.rows, id); }
      budget.Interleave();
      ghost var l2 := budget.State();
      LaterTransitive(l0, l1, l2);
      IdStays(l1, l2, id);
      r := budget.ClaimExecution(id);
      IdStays(l2, budget.State(), id);
      LaterTransitive(l0, l2, budget.State());
    }

    /** Run the adapter, then settle; a failing adapter leaves the row executing for good. */
    method RunAndSettle(id: string) returns (r: Result<Option<int>, ProviderError>, ghost answer: Answer)
      requires budget.Valid()
      modifies this, budget
      ensures budget.Valid() && Later(old(budget.State()), budget.State()) && old(budget.started) <= budget.started
      ensures runs == old(runs) + [id]
      ensures r.Ok? ==> Recorded(budget.rows, id, r.value)
      ensures r.Err? ==> r.error != NoInvocation
      ensures r == Err(Refused(BudgetExceeded)) ==> answer.Answers? && Recorded(budget.rows, id, answer.usage)
      ensures r == Err(Refused(ValueError)) ==> answer.Answers? && Unsettleable(budget.rows, id, answer.usage)
      ensures r.Err? && HasId(old(budget.rows), id) ==>
        r.error in {AdapterFailed, Refused(BudgetExceeded), Refused(ValueError)}
      ensures answer.Raises? <==> r == Err(AdapterFailed)
      ensures r.Ok? ==> answer == Answers(r.value)
    {
      hide Inv, Later, StartedOnce, HasId;
      budget.Interleave();
      ghost var l := budget.State();
      IdStays(old(budget.State()), l, id);
      runs := runs + [id];
      var given: Answer := *;
      answer := given;
      match given {
        case Raises =>
          r := Err(AdapterFailed);
        case Answers(usage) =>
          var settled := budget.Settle(id, usage);
          LaterTransitive(old(budget.State()), l, budget.State());
          r := if settled.Err? then Err(Refused(settled.error)) else Ok(usage);
      }
    }

    /**
     `execute`, with other processes' transactions between any two of its own.  The adapter
     runs at most once, and only for a call id nobody has started before; afterwards nobody
     will start it again.
     */
    method Execute(invocation: Option<string>, task: string)
      returns (r: Result<Option<int>, ProviderError>, ghost answer: Option<Answer>)
      requires budget.Valid()
      modifies this, budget
      ensures budget.Valid() && Later(old(budget.State()), budget.State()) && old(budget.started) <= budget.started
      ensures r == Err(NoInvocation) <==> invocation.None? || invocation.value == ""
      ensures r == Err(NoInvocation) ==> budget.State() == old(budget.State()) && runs == old(runs)
      ensures invocation.Some? ==>
        var id := CallId(Request(config.place, provider, invocation.value, task));
        && (runs == old(runs) || runs == old(runs) + [id])
        && (runs != old(runs) ==> id !in old(budget.started) && id in budget.started)
        && (runs == old(runs) ==> r.Err? && r.error != AdapterFailed)
        && (answer.Some? <==> runs != old(runs))
        && (r.Ok? ==> answer == Some(Answers(r.value)) && Recorded(budget.rows, id, r.value))
        && (r == Err(AdapterFailed) <==> answer == Some(Raises))
        && (r.Err? && answer.None? && invocation.value != "" ==>
              && r.error.Refused?
              && if r.error.error == AlreadyClaimed then Began(budget.rows, id)
                 else Unreservable(old(budget.State()), id, r.error.error) && budget.State() == old(budget.State()))
        && (r.Err? && answer.Some? && answer.value.Answers? ==>
              || (r.error == Refused(BudgetExceeded) && Recorded(budget.rows, id, answer.value.usage))
              || (r.error == Refused(ValueError) && Unsettleable(budget.rows, id, answer.value.usage)))
    {
      if invocation.None? || invocation.value == "" {
        return Err(NoInvocation), None;
      }
      var id := CallId(Request(config.place, provider, invocation.value, task));
      hide Inv, CallId, Later, StartedOnce, Recorded, Unreservable, Unsettleable, HasId, Began;
      var admitted := Admit(id);
      if admitted.Err? {
        return Err(Refused(admitted.error)), None;
      }
      ghost var admittedState := budget.State();
      ghost var given;
      r, given := RunAndSettle(id);
      answer := Some(given);
      LaterTransitive(old(budget.State()), admittedState, budget.State());
    }
  }
}
