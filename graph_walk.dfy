/**
 * The simulator that walks the rewrite graph, choosing among the successors of
 * the current node with the weights of a probability assigner (mvmaude.py,
 * all_children and UmaudemcSimulator).
 */
module GraphWalk {

  import opened Terms
  import opened Engine
  import opened Base
  import Runs

  /** `next(s, i)` is the `i`-th successor of node `s`, or -1 when there is none at that position. */
  type Enumerator = (int, nat) -> int

  /** The rewrite graph as the walker queries it. */
  datatype Graph = Graph(
    next: Enumerator,
    stateTerm: int -> Term,
    // the assigner's weights for a node and its successor list
    assigner: (int, seq<int>) -> seq<real>)

  /** Some position of `s` holds the sentinel, so enumerating its successors ends. */
  ghost predicate EnumerationEnds(next: Enumerator, s: int)
  {
    exists k: nat :: next(s, k) == -1
  }

  /** `r` lists the successors of `s` at positions 0, 1, ... up to the first sentinel. */
  ghost predicate IsEnumeration(next: Enumerator, s: int, r: seq<int>)
  {
    && next(s, |r|) == -1
    && forall i :: 0 <= i < |r| ==> r[i] == next(s, i) && r[i] != -1
  }

  /** Only one list enumerates the successors of a node. */
  lemma EnumerationUnique(next: Enumerator, s: int, r1: seq<int>, r2: seq<int>)
    requires IsEnumeration(next, s, r1) && IsEnumeration(next, s, r2)
    ensures r1 == r2
  {
  }

  /** The successors at positions `i`, `i + 1`, ... before the first sentinel, looking no further than `k`. */
  function Prefix(next: Enumerator, s: int, i: nat, k: nat): seq<int>
    decreases k - i
  {
    if k <= i || next(s, i) == -1 then [] else [next(s, i)] + Prefix(next, s, i + 1, k)
  }

  lemma {:induction false} PrefixEnumerates(next: Enumerator, s: int, i: nat, k: nat)
    requires i <= k && next(s, k) == -1
    ensures var r := Prefix(next, s, i, k);
            && next(s, i + |r|) == -1
            && forall j :: 0 <= j < |r| ==> r[j] == next(s, i + j) && r[j] != -1
    decreases k - i
  {
    if i < k && next(s, i) != -1 {
      PrefixEnumerates(next, s, i + 1, k);
    }
  }

  /** The successor list of `s` (empty when the enumeration never ends). */
  ghost function Children(next: Enumerator, s: int): (r: seq<int>)
    ensures EnumerationEnds(next, s) ==> IsEnumeration(next, s, r)
  {
    if EnumerationEnds(next, s) then
      var k: nat :| next(s, k) == -1;
      PrefixEnumerates(next, s, 0, k);
      Prefix(next, s, 0, k)
    else []
  }

  /** Queries the successors of `s` at increasing positions until the sentinel. */
  method AllChildren(next: Enumerator, s: int) returns (children: seq<int>)
    requires EnumerationEnds(next, s)
    ensures IsEnumeration(next, s, children)
    ensures children == Children(next, s)
  {
    ghost var k: nat :| next(s, k) == -1;
    var nextState, index := next(s, 0), 0;
    children := [];
    while nextState != -1
      invariant index == |children| <= k
      invariant nextState == next(s, index)
      invariant forall i :: 0 <= i < index ==> children[i] == next(s, i) && children[i] != -1
      decreases k - index
    {
      children := children + [nextState];
      index := index + 1;
      nextState := next(s, index);
    }
    EnumerationUnique(next, s, children, Children(next, s));
  }

  /** The walker's observable state: current term, time, graph node, and position in the random stream. */
  datatype Walk = Walk(state: Term, time: nat, stateNr: int, rng: nat)

  /** One step: no-op at a node without successors, otherwise a weighted choice among them. */
  ghost function GraphStep(g: Graph, choose: Chooser, w: Walk): Walk
  {
    var successors := Children(g.next, w.stateNr);
    if successors == [] then w
    else
      var n := choose(w.rng, successors, g.assigner(w.stateNr, successors));
      Walk(g.stateTerm(n), w.time + 1, n, w.rng + 1)
  }

  /**
   * A step either changes nothing (exactly when the node has no successors) or moves along
   * an edge of the graph to the term of the chosen successor and ticks once.
   */
  lemma GraphStepFollowsEdge(g: Graph, choose: Chooser, w: Walk)
    requires ValidChooser(choose) && EnumerationEnds(g.next, w.stateNr)
    ensures GraphStep(g, choose, w) == w <==> g.next(w.stateNr, 0) == -1
    ensures GraphStep(g, choose, w) != w ==>
              var r := GraphStep(g, choose, w);
              && r.stateNr in Children(g.next, w.stateNr)
              && (exists i: nat :: g.next(w.stateNr, i) == r.stateNr != -1)
              && r.state == g.stateTerm(r.stateNr)
              && r.time == w.time + 1
  {
  }

  ghost function StepOf(g: Graph, choose: Chooser): Walk -> Walk
  {
    w => GraphStep(g, choose, w)
  }

  function TimeOf(): Walk -> nat
  {
    (w: Walk) => w.time
  }

  /** A whole run of the walker, trying at most `fuel` steps. */
  ghost function Run(g: Graph, choose: Chooser, w: Walk, fuel: nat): (Walk, bool)
  {
    Runs.Iterate(StepOf(g, choose), TimeOf(), w, fuel)
  }

  /** A finished run ends at a node without successors; time grows by at most one per step tried. */
  lemma RunEndsAtLeaf(g: Graph, choose: Chooser, w: Walk, fuel: nat)
    requires ValidChooser(choose) && forall s :: EnumerationEnds(g.next, s)
    ensures Run(g, choose, w, fuel).1 ==> g.next(Run(g, choose, w, fuel).0.stateNr, 0) == -1
    ensures w.time <= Run(g, choose, w, fuel).0.time <= w.time + fuel
  {
    var step, clock := StepOf(g, choose), TimeOf();
    forall x
      ensures clock(step(x)) <= clock(x) ==> step(x) == x
    {
      GraphStepFollowsEdge(g, choose, x);
    }
    assert Runs.IdleWhenStuck(step, clock);
    assert Runs.NeverRewinds(step, clock);
    assert Runs.UnitSteps(step, clock);
    Runs.IterateEndsAtFixpoint(step, clock, w, fuel);
    Runs.IterateNeverRewinds(step, clock, w, fuel);
    Runs.IterateCountsSteps(step, clock, w, fuel);
    GraphStepFollowsEdge(g, choose, Run(g, choose, w, fuel).0);
  }

  class UmaudemcSimulator {
    const base: BaseSimulator
    const graph: Graph
    // stands in for random.choices
    const choices: Chooser
    var stateNr: int
    // position in the (never reseeded) random stream
    var rng: nat

    ghost function Snapshot(): Walk
      reads this, base
    {
      Walk(base.state, base.time, stateNr, rng)
    }

    ghost predicate Valid()
      reads this, base
    {
      && base.Valid()
      && ValidChooser(choices)
      && (forall s :: EnumerationEnds(graph.next, s))
      && (base.time == 0 ==> base.state == base.initial)
      && (base.time > 0 ==> base.state == graph.stateTerm(stateNr))
    }

    constructor (initial: Term, engine: RewriteEngine, graph: Graph, choices: Chooser)
      requires ValidChooser(choices) && forall s :: EnumerationEnds(graph.next, s)
      ensures Valid() && fresh(base)
      ensures base.initial == initial && base.engine == engine
      ensures this.graph == graph && this.choices == choices
      ensures Snapshot() == Walk(initial, 0, 0, 0)
    {
      base := new BaseSimulator(initial, engine);
      this.graph := graph;
      this.choices := choices;
      stateNr := 0;
      rng := 0;
    }

    /** Back to node 0 and the initial term; the random stream is not reseeded. */
    method SetSimulatorForNewSimulation(randomSeed: int)
      requires Valid()
      modifies this`stateNr, base`state, base`time
      ensures Valid()
      ensures Snapshot() == Walk(base.initial, 0, 0, old(rng))
    {
      base.SetSimulatorForNewSimulation(randomSeed);
      stateNr := 0;
    }

    method PerformOneStepOfSimulation()
      requires Valid()
      modifies this`stateNr, this`rng, base`state, base`time
      ensures Valid()
      ensures Snapshot() == GraphStep(graph, choices, old(Snapshot()))
    {
      var successors := AllChildren(graph.next, stateNr);
      if successors != [] {
        var probs := graph.assigner(stateNr, successors);
        stateNr := choices(rng, successors, probs);
        rng := rng + 1;
        base.state := graph.stateTerm(stateNr);
        base.time := base.time + 1;
      }
    }

    /**
     * Steps until a step leaves the time unchanged, trying at most `fuel` steps;
     * `finished` tells whether the run stopped because a step did nothing.
     */
    method PerformWholeSimulation(fuel: nat) returns (finished: bool)
      requires Valid()
      modifies this`stateNr, this`rng, base`state, base`time
      ensures Valid()
      ensures (Snapshot(), finished) == Run(graph, choices, old(Snapshot()), fuel)
    {
      var initialTime: int := -1;
      var budget := fuel;
      while initialTime < base.time && budget > 0
        invariant Valid()
        invariant old(base.time) <= base.time && initialTime <= base.time
        invariant initialTime < base.time ==> Run(graph, choices, Snapshot(), budget) == Run(graph, choices, old(Snapshot()), fuel)
        invariant initialTime == base.time ==> (Snapshot(), true) == Run(graph, choices, old(Snapshot()), fuel)
        decreases budget
      {
        ghost var before := Snapshot();
        initialTime := base.time;
        PerformOneStepOfSimulation();
        budget := budget - 1;
        assert Run(graph, choices, before, budget + 1) ==
               if Snapshot().time <= before.time then (Snapshot(), true) else Run(graph, choices, Snapshot(), budget);
      }
      finished := initialTime == base.time;
    }
  }
}
