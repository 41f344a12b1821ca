/** The execution order of an accepted charter: batches of milestones whose dependencies are done. */
module MilestoneOrders {
  import opened Wrappers
  import opened TextOrder
  import opened MilestoneGraphs

  /** `a` is executed before `b`: fewer chained dependencies, or as many and a smaller id. */
  ghost predicate Before(g: Graph, a: string, b: string) {
    && (forall k: nat | Chain(g, a, k) :: Chain(g, b, k))
    && ((forall k: nat | Chain(g, b, k) :: Chain(g, a, k)) ==> Less(a, b))
  }

  /** The order determines itself: no two milestones can change places. */
  lemma BeforeAsymmetric(g: Graph, a: string, b: string)
    requires Before(g, a, b)
    ensures !Before(g, b, a)
  {
    if Before(g, b, a) {
      LessTransitive(a, b, a);
      LessIrreflexive(a);
    }
  }

  ghost predicate Ordered(g: Graph, ms: seq<Milestone>) {
    forall i, j | 0 <= i < j < |ms| :: Before(g, ms[i].id, ms[j].id)
  }

  ghost predicate DependenciesFirst(ms: seq<Milestone>) {
    forall i, d | 0 <= i < |ms| && d in ms[i].dependencies :: HasId(ms[..i], d)
  }

  /** There is only one such order of the same milestones. */
  lemma {:induction false} OrderUnique(g: Graph, a: seq<Milestone>, b: seq<Milestone>)
    requires Ordered(g, a) && Ordered(g, b) && UniqueIds(a) && UniqueIds(b)
    requires |a| == |b| && forall m :: m in a <==> m in b
    ensures a == b
  {
    if a != [] {
      SameFirst(g, a, b);
      var restA, restB := a[1..], b[1..];
      assert a == [a[0]] + restA && b == [b[0]] + restB;
      assert forall i | 0 <= i < |restA| :: restA[i] == a[i + 1] && restA[i].id != a[0].id;
      assert forall i | 0 <= i < |restB| :: restB[i] == b[i + 1] && restB[i].id != b[0].id;
      forall m ensures m in restA <==> m in restB {
        assert m in a <==> m in b;
      }
      OrderUnique(g, restA, restB);
    }
  }

  lemma SameFirst(g: Graph, a: seq<Milestone>, b: seq<Milestone>)
    requires Ordered(g, a) && Ordered(g, b) && a != [] && b != []
    requires forall m :: m in a <==> m in b
    ensures a[0] == b[0]
  {
    assert a[0] in a && b[0] in b;
    var i :| 0 <= i < |a| && a[i] == b[0];
    var j :| 0 <= j < |b| && b[j] == a[0];
    if i > 0 && j > 0 {
      BeforeAsymmetric(g, a[0].id, b[0].id);
    }
  }

  /** After `k` batches: those left are the ones with a chain of `k` dependencies. */
  ghost predicate AfterBatches(ms: seq<Milestone>, k: nat, result: seq<Milestone>, remaining: map<string, Milestone>) {
    var g := GraphOf(ms);
    && (forall id :: id in remaining <==> Chain(g, id, k))
    && (forall id :: HasId(result, id) <==> id in g && id !in remaining)
    && (forall id | id in remaining :: remaining[id] in ms && remaining[id].id == id)
    && (forall m | m in result :: m in ms)
    && DependenciesFirst(result) && Ordered(g, result) && UniqueIds(result)
  }

  /** The milestones whose dependencies are all accepted, by id. */
  method Ready(remaining: map<string, Milestone>, accepted: set<string>) returns (ready: seq<Milestone>)
    requires forall id | id in remaining :: remaining[id].id == id
    ensures forall id :: HasId(ready, id) <==>
      id in remaining && forall d | d in remaining[id].dependencies :: d in accepted
    ensures forall m | m in ready :: m.id in remaining && m == remaining[m.id]
    ensures forall i, j | 0 <= i < j < |ready| :: Less(ready[i].id, ready[j].id)
  {
    var pool := set id | id in remaining && (forall d | d in remaining[id].dependencies :: d in accepted);
    ghost var all := pool;
    ready := [];
    while pool != {}
      invariant pool <= all && forall id :: HasId(ready, id) <==> id in all && id !in pool
      invariant forall m | m in ready :: m.id in remaining && m == remaining[m.id]
      invariant forall i, j | 0 <= i < j < |ready| :: Less(ready[i].id, ready[j].id)
      invariant forall i, id | 0 <= i < |ready| && id in pool :: Less(ready[i].id, id)
      decreases pool
    {
      ghost var least := LeastExists(pool);
      var id :| id in pool && forall other | other in pool :: other == id || Less(id, other);
      HasIdAppend(ready, remaining[id]);
      ready := ready + [remaining[id]];
      pool := pool - {id};
    }
  }

  lemma HasIdAppend(ms: seq<Milestone>, m: Milestone)
    ensures forall id :: HasId(ms + [m], id) <==> HasId(ms, id) || id == m.id
  {
    forall id ensures HasId(ms + [m], id) <==> HasId(ms, id) || id == m.id {
      if HasId(ms, id) {
        var i :| 0 <= i < |ms| && ms[i].id == id;
        assert (ms + [m])[i].id == id;
      }
      assert (ms + [m])[|ms|] == m;
    }
  }

  lemma HasIdConcat(a: seq<Milestone>, b: seq<Milestone>)
    ensures forall id :: HasId(a + b, id) <==> HasId(a, id) || HasId(b, id)
  {
    forall id ensures HasId(a + b, id) <==> HasId(a, id) || HasId(b, id) {
      if HasId(a, id) {
        var i :| 0 <= i < |a| && a[i].id == id;
        assert (a + b)[i].id == id;
      }
      if HasId(b, id) {
        var i :| 0 <= i < |b| && b[i].id == id;
        assert (a + b)[|a| + i].id == id;
      }
    }
  }

  /** A milestone is ready for batch `k` exactly when no chain of `k + 1` dependencies starts at it. */
  lemma ReadyIff(ms: seq<Milestone>, k: nat, result: seq<Milestone>, remaining: map<string, Milestone>, id: string)
    requires Acceptable(ms) && AfterBatches(ms, k, result, remaining) && id in remaining
    ensures (forall d | d in remaining[id].dependencies :: HasId(result, d)) <==> !Chain(GraphOf(ms), id, k + 1)
  {
    GraphHolds(ms);
    GraphClosed(ms);
    var g := GraphOf(ms);
    assert g[id] == remaining[id].dependencies;
    forall d | d in g[id] ensures HasId(result, d) <==> !Chain(g, d, k) {
    }
  }

  lemma BatchOrdered(g: Graph, k: nat, a: string, b: string)
    requires Chain(g, a, k) && !Chain(g, a, k + 1) && Chain(g, b, k)
    requires Chain(g, b, k + 1) || Less(a, b)
    ensures Before(g, a, b)
  {
    forall j: nat | Chain(g, a, j) ensures Chain(g, b, j) {
      if j > k { ChainDown(g, a, k + 1, j); }
      ChainDown(g, b, j, k);
    }
  }

  lemma EarlierBatch(g: Graph, k: nat, a: string, b: string)
    requires a in g && !Chain(g, a, k) && Chain(g, b, k)
    ensures Before(g, a, b)
  {
    forall j: nat | Chain(g, a, j) ensures Chain(g, b, j) {
      if j >= k { ChainDown(g, a, k, j); }
      ChainDown(g, b, j, k);
    }
  }

  /** Appending a batch in id order. */
  lemma BatchStep(ms: seq<Milestone>, k: nat, result: seq<Milestone>, remaining: map<string, Milestone>,
                  ready: seq<Milestone>)
    requires Acceptable(ms) && AfterBatches(ms, k, result, remaining)
    requires forall id :: HasId(ready, id) <==> id in remaining && !Chain(GraphOf(ms), id, k + 1)
    requires forall m | m in ready :: m.id in remaining && m == remaining[m.id]
    requires forall i, j | 0 <= i < j < |ready| :: Less(ready[i].id, ready[j].id)
    ensures AfterBatches(ms, k + 1, result + ready, remaining - Ids(ready))
  {
    var g, left := GraphOf(ms), remaining - Ids(ready);
    var longer := result + ready;
    forall id ensures id in left <==> Chain(g, id, k + 1) {
      if Chain(g, id, k + 1) { ChainShortens(g, id, k); }
      InIds(ready, id);
    }
    forall m | m in ready ensures HasId(ready, m.id) {
      InIds(ready, m.id);
    }
    HasIdConcat(result, ready);
    BatchInOrder(ms, k, result, remaining, ready);
    BatchDependencies(ms, k, result, remaining, ready);
  }

  lemma BatchInOrder(ms: seq<Milestone>, k: nat, result: seq<Milestone>, remaining: map<string, Milestone>,
                     ready: seq<Milestone>)
    requires Acceptable(ms) && AfterBatches(ms, k, result, remaining)
    requires forall m | m in ready :: m.id in remaining && HasId(ready, m.id) && !Chain(GraphOf(ms), m.id, k + 1)
    requires forall i, j | 0 <= i < j < |ready| :: Less(ready[i].id, ready[j].id)
    ensures Ordered(GraphOf(ms), result + ready) && UniqueIds(result + ready)
  {
    var g, longer := GraphOf(ms), result + ready;
    forall i, j | 0 <= i < j < |longer| ensures Before(g, longer[i].id, longer[j].id) && longer[i].id != longer[j].id {
      var a, b := longer[i].id, longer[j].id;
      if j < |result| {
        assert Before(g, result[i].id, result[j].id);
      } else {
        assert longer[j] == ready[j - |result|] && ready[j - |result|] in ready;
        if i < |result| {
          assert HasId(result, a);
          EarlierBatch(g, k, a, b);
        } else {
          assert longer[i] == ready[i - |result|] && ready[i - |result|] in ready;
          BatchOrdered(g, k, a, b);
          LessIrreflexive(a);
        }
      }
    }
  }

  lemma BatchDependencies(ms: seq<Milestone>, k: nat, result: seq<Milestone>, remaining: map<string, Milestone>,
                          ready: seq<Milestone>)
    requires Acceptable(ms) && AfterBatches(ms, k, result, remaining)
    requires forall m | m in ready :: m.id in remaining && m == remaining[m.id] && !Chain(GraphOf(ms), m.id, k + 1)
    ensures DependenciesFirst(result + ready)
  {
    var longer := result + ready;
    forall i, d | 0 <= i < |longer| && d in longer[i].dependencies ensures HasId(longer[..i], d) {
      if i < |result| {
        assert longer[..i] == result[..i];
      } else {
        assert longer[i] == ready[i - |result|] && ready[i - |result|] in ready;
        ReadyIff(ms, k, result, remaining, longer[i].id);
        HasIdConcat(result, ready[..i - |result|]);
        assert longer[..i] == result + ready[..i - |result|];
      }
    }
  }

  function Ids(ms: seq<Milestone>): set<string> {
    set m | m in ms :: m.id
  }

  lemma IdsAppend(ms: seq<Milestone>, m: Milestone)
    ensures Ids(ms + [m]) == Ids(ms) + {m.id}
  {
    assert forall x :: x in ms + [m] <==> x in ms || x == m;
  }

  lemma InIds(ms: seq<Milestone>, id: string)
    ensures id in Ids(ms) <==> HasId(ms, id)
  {
    if HasId(ms, id) {
      var i :| 0 <= i < |ms| && ms[i].id == id;
      assert ms[i] in ms;
    }
  }

  lemma {:induction false} UniqueSize(ms: seq<Milestone>)
    requires UniqueIds(ms)
    ensures |Ids(ms)| == |ms|
  {
    if ms != [] {
      var before, last := ms[..|ms| - 1], ms[|ms| - 1];
      UniqueSize(before);
      IdsAppend(before, last);
      assert before + [last] == ms;
      InIds(before, last.id);
    }
  }

  /** While milestones remain, one of them has all its dependencies done. */
  lemma Executable(ms: seq<Milestone>, k: nat, result: seq<Milestone>, remaining: map<string, Milestone>)
    returns (id: string)
    requires Acceptable(ms) && AfterBatches(ms, k, result, remaining) && remaining != map[]
    ensures id in remaining && forall d | d in remaining[id].dependencies :: d in Ids(result)
  {
    var any :| any in remaining;
    id := SomeNodeEnds(GraphOf(ms), k, any);
    ReadyIff(ms, k, result, remaining, id);
    forall d | d in remaining[id].dependencies ensures d in Ids(result) {
      InIds(result, d);
    }
  }

  lemma ReadyBatch(ms: seq<Milestone>, k: nat, result: seq<Milestone>, remaining: map<string, Milestone>,
                   ready: seq<Milestone>)
    requires Acceptable(ms) && AfterBatches(ms, k, result, remaining)
    requires forall id :: HasId(ready, id) <==>
      id in remaining && forall d | d in remaining[id].dependencies :: d in Ids(result)
    ensures forall id :: HasId(ready, id) <==> id in remaining && !Chain(GraphOf(ms), id, k + 1)
  {
    forall d ensures d in Ids(result) <==> HasId(result, d) {
      InIds(result, d);
    }
    forall id | id in remaining ensures HasId(ready, id) <==> !Chain(GraphOf(ms), id, k + 1) {
      ReadyIff(ms, k, result, remaining, id);
    }
  }

  lemma AllOrdered(ms: seq<Milestone>, k: nat, result: seq<Milestone>)
    requires Acceptable(ms) && AfterBatches(ms, k, result, map[])
    ensures |result| == |ms| && forall m :: m in result <==> m in ms
  {
    GraphHolds(ms);
    forall id ensures id in Ids(result) <==> id in Ids(ms) {
      InIds(ms, id);
      InIds(result, id);
      assert HasId(result, id) <==> id in GraphOf(ms);
    }
    assert Ids(result) == Ids(ms);
    UniqueSize(ms);
    UniqueSize(result);
    forall m | m in ms ensures m in result {
      InIds(result, m.id);
      assert m.id in Ids(ms);
      var i :| 0 <= i < |result| && result[i].id == m.id;
      assert result[i] in ms;
    }
  }

  /** The inner loop: the batch moves from the remaining to the ordered and accepted. */
  method Take(ready: seq<Milestone>, result: seq<Milestone>, accepted: set<string>, remaining: map<string, Milestone>)
    returns (result': seq<Milestone>, accepted': set<string>, remaining': map<string, Milestone>)
    requires accepted == Ids(result)
    ensures result' == result + ready && accepted' == Ids(result') && remaining' == remaining - Ids(ready)
  {
    result', accepted', remaining' := result, accepted, remaining;
    for i := 0 to |ready|
      invariant result' == result + ready[..i] && accepted' == Ids(result')
      invariant remaining' == remaining - Ids(ready[..i])
    {
      IdsAppend(result', ready[i]);
      IdsAppend(ready[..i], ready[i]);
      assert ready[..i + 1] == ready[..i] + [ready[i]];
      assert result' + [ready[i]] == result + ready[..i + 1];
      result' := result' + [ready[i]];
      accepted' := accepted' + {ready[i].id};
      remaining' := remaining' - {ready[i].id};
    }
    assert ready[..|ready|] == ready;
  }

  lemma RemainingById(ms: seq<Milestone>, k: nat, result: seq<Milestone>, remaining: map<string, Milestone>)
    requires AfterBatches(ms, k, result, remaining)
    ensures forall id | id in remaining :: remaining[id].id == id
    ensures DependenciesFirst(result) && Ordered(GraphOf(ms), result) && UniqueIds(result)
  {
  }

  /**
   `ordered_milestones`: on an accepted charter it never finds itself without an executable
   milestone, and returns all of them, dependencies first, in the one order `Before` allows.
   */
  method OrderedMilestones(ms: seq<Milestone>) returns (result: seq<Milestone>)
    requires Acceptable(ms)
    ensures |result| == |ms| && forall m :: m in result <==> m in ms
    ensures UniqueIds(result) && DependenciesFirst(result) && Ordered(GraphOf(ms), result)
  {
    hide AfterBatches, Acceptable, GraphOf, DependenciesFirst, Ordered, UniqueIds;
    var remaining := ById(ms);
    ghost var k: nat := 0;
    var accepted: set<string> := {};
    result := [];
    while remaining != map[]
      invariant AfterBatches(ms, k, result, remaining) && accepted == Ids(result)
      decreases remaining.Keys
    {
      RemainingById(ms, k, result, remaining);
      ghost var some := Executable(ms, k, result, remaining);
      var ready := Ready(remaining, accepted);
      ReadyBatch(ms, k, result, remaining, ready);
      BatchStep(ms, k, result, remaining, ready);
      InIds(ready, some);
      if ready == [] {
        assert false; // "milestone graph has no executable node" is never raised
      }
      ghost var left := remaining;
      result, accepted, remaining := Take(ready, result, accepted, remaining);
      assert some in left && some !in remaining;
      k := k + 1;
    }
    RemainingById(ms, k, result, remaining);
    AllOrdered(ms, k, result);
  }

  /** The dictionary of all milestones by id. */
  method ById(ms: seq<Milestone>) returns (remaining: map<string, Milestone>)
    requires Acceptable(ms)
    ensures AfterBatches(ms, 0, [], remaining)
  {
    remaining := map[];
    for i := 0 to |ms|
      invariant forall id :: id in remaining <==> HasId(ms[..i], id)
      invariant forall id | id in remaining :: remaining[id] in ms && remaining[id].id == id
    {
      HasIdAppend(ms[..i], ms[i]);
      assert ms[..i] + [ms[i]] == ms[..i + 1];
      remaining := remaining[ms[i].id := ms[i]];
    }
    assert ms[..|ms|] == ms;
    GraphHolds(ms);
  }
}
