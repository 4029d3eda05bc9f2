/**
 * The simulator that follows a precomputed probabilistic execution tree of
 * the strategy (mvmaude.py, StrategyDTMCSimulator). A node has unquantified
 * successors (`children`) and groups of weighted successors (`childChoices`).
 */
module Markov {

  import opened Wrappers
  import opened Terms
  import opened Engine
  import opened Base
  import Runs

  type NodeId = int

  /** A node of the execution tree; each choice group lists its successors with their weights, in order. */
  datatype ExecNode = ExecNode(term: Term, children: seq<NodeId>, childChoices: seq<seq<(NodeId, real)>>)

  /** The precomputed tree, as a lookup from node identifiers to nodes. */
  type ExecTree = NodeId -> ExecNode

  /** Every choice group of every node is non-empty. */
  ghost predicate WellFormed(tree: ExecTree)
  {
    forall n, i :: 0 <= i < |tree(n).childChoices| ==> |tree(n).childChoices[i]| > 0
  }

  /** The successors of a choice group, in order: the population handed to the chooser. */
  function Keys(group: seq<(NodeId, real)>): seq<NodeId>
  {
    seq(|group|, i requires 0 <= i < |group| => group[i].0)
  }

  /** The weights of a choice group, in the same order. */
  function Weights(group: seq<(NodeId, real)>): seq<real>
  {
    seq(|group|, i requires 0 <= i < |group| => group[i].1)
  }

  /** A node with neither kind of successor. */
  predicate IsTerminal(e: ExecNode)
  {
    e.children == [] && e.childChoices == []
  }

  /** The step from `e` would resolve unquantified nondeterminism: more than one branch is open. */
  predicate Nondeterministic(e: ExecNode)
  {
    |e.children| + |e.childChoices| > 1
  }

  /**
   * The node a step from `e` goes to: the first unquantified child if there is one,
   * otherwise a weighted choice from the first choice group.
   */
  function NextNode(choose: Chooser, rng: nat, e: ExecNode): (r: Option<NodeId>)
    ensures r.None? <==> IsTerminal(e)
    ensures e.children != [] ==> r == Some(e.children[0])
    ensures ValidChooser(choose) && e.children == [] && e.childChoices != [] && e.childChoices[0] != [] ==>
              r.Some? && r.value in Keys(e.childChoices[0])
  {
    if e.children != [] then Some(e.children[0])
    else if e.childChoices != [] then
      var choice := e.childChoices[0];
      Some(choose(rng, Keys(choice), Weights(choice)))
    else None
  }

  /** The runner's observable state: current term, time, tree node, and position in the random stream. */
  datatype Cursor = Cursor(state: Term, time: nat, node: NodeId, rng: nat)

  /** One step: move to `NextNode` and tick; at a terminal node, do nothing. */
  function MarkovStep(tree: ExecTree, choose: Chooser, c: Cursor): Cursor
  {
    var e := tree(c.node);
    match NextNode(choose, c.rng, e)
    case None => c
    case Some(n) => Cursor(tree(n).term, c.time + 1, n, if e.children == [] then c.rng + 1 else c.rng)
  }

  /**
   * A step changes nothing exactly at a terminal node; otherwise it moves to the first child or to
   * a key of the first choice group, takes that node's term, and ticks once.
   */
  lemma MarkovStepFollowsTree(tree: ExecTree, choose: Chooser, c: Cursor)
    requires ValidChooser(choose) && WellFormed(tree)
    ensures MarkovStep(tree, choose, c) == c <==> IsTerminal(tree(c.node))
    ensures !IsTerminal(tree(c.node)) ==>
              var r, e := MarkovStep(tree, choose, c), tree(c.node);
              && (e.children != [] ==> r.node == e.children[0])
              && (e.children == [] ==> r.node in Keys(e.childChoices[0]))
              && r.state == tree(r.node).term
              && r.time == c.time + 1
  {
  }

  /** `performOneStepOfSimulation` as written: at a terminal node `next_node` is never assigned. */
  function MarkovStepAsWritten(tree: ExecTree, choose: Chooser, c: Cursor): (r: Result<Cursor, Raised>)
    ensures r.Failure? <==> IsTerminal(tree(c.node))
    ensures r.Success? ==> r.value == MarkovStep(tree, choose, c)
  {
    match NextNode(choose, c.rng, tree(c.node))
    case None => Failure(UnboundLocalError("next_node"))
    case Some(_) => Success(MarkovStep(tree, choose, c))
  }

  ghost function StepOf(tree: ExecTree, choose: Chooser): Cursor -> Cursor
  {
    c => MarkovStep(tree, choose, c)
  }

  function TimeOf(): Cursor -> nat
  {
    (c: Cursor) => c.time
  }

  /** A whole run along the tree, trying at most `fuel` steps. */
  ghost function Run(tree: ExecTree, choose: Chooser, c: Cursor, fuel: nat): (Cursor, bool)
  {
    Runs.Iterate(StepOf(tree, choose), TimeOf(), c, fuel)
  }

  /** A finished run ends at a terminal node; time grows by at most one per step tried. */
  lemma RunEndsAtTerminal(tree: ExecTree, choose: Chooser, c: Cursor, fuel: nat)
    requires ValidChooser(choose) && WellFormed(tree)
    ensures Run(tree, choose, c, fuel).1 ==> IsTerminal(tree(Run(tree, choose, c, fuel).0.node))
    ensures c.time <= Run(tree, choose, c, fuel).0.time <= c.time + fuel
  {
    var step, clock := StepOf(tree, choose), TimeOf();
    forall x
      ensures clock(step(x)) <= clock(x) ==> step(x) == x
    {
      MarkovStepFollowsTree(tree, choose, x);
    }
    assert Runs.IdleWhenStuck(step, clock);
    assert Runs.NeverRewinds(step, clock);
    assert Runs.UnitSteps(step, clock);
    Runs.IterateEndsAtFixpoint(step, clock, c, fuel);
    Runs.IterateNeverRewinds(step, clock, c, fuel);
    Runs.IterateCountsSteps(step, clock, c, fuel);
    MarkovStepFollowsTree(tree, choose, Run(tree, choose, c, fuel).0);
  }

  /**
   * A tree whose root is terminal: as written the first step raises, so a whole run never ends
   * normally; with the terminal step a no-op, the run finishes at once where it started.
   */
  lemma TerminalRootRaises(choose: Chooser, t: Term)
    ensures var tree: ExecTree := _ => ExecNode(t, [], []);
            var c := Cursor(t, 0, 0, 0);
            && MarkovStepAsWritten(tree, choose, c) == Failure(UnboundLocalError("next_node"))
            && Run(tree, choose, c, 1) == (c, true)
  {
  }

  class StrategyDTMCSimulator {
    const base: BaseSimulator
    // the execution tree built once from the compiled strategy, and its root
    const graph: ExecTree
    const root: NodeId
    // stands in for random.choices
    const choices: Chooser
    var node: NodeId
    // position in the (never reseeded) random stream
    var rng: nat

    ghost function Snapshot(): Cursor
      reads this, base
    {
      Cursor(base.state, base.time, node, rng)
    }

    ghost predicate Valid()
      reads this, base
    {
      && base.Valid()
      && ValidChooser(choices)
      && WellFormed(graph)
      && (base.time == 0 ==> base.state == base.initial)
      && (base.time > 0 ==> base.state == graph(node).term)
    }

    constructor (initial: Term, engine: RewriteEngine, graph: ExecTree, root: NodeId, choices: Chooser)
      requires ValidChooser(choices) && WellFormed(graph)
      ensures Valid() && fresh(base)
      ensures base.initial == initial && base.engine == engine
      ensures this.graph == graph && this.root == root && this.choices == choices
      ensures Snapshot() == Cursor(initial, 0, root, 0)
    {
      base := new BaseSimulator(initial, engine);
      this.graph := graph;
      this.root := root;
      this.choices := choices;
      node := root;
      rng := 0;
    }

    /** Back to the root of the tree and the initial term; the random stream is not reseeded. */
    method SetSimulatorForNewSimulation(randomSeed: int)
      requires Valid()
      modifies this`node, base`state, base`time
      ensures Valid()
      ensures Snapshot() == Cursor(base.initial, 0, root, old(rng))
    {
      base.SetSimulatorForNewSimulation(randomSeed);
      node := root;
    }

    /**
     * Moves to the next node of the tree and ticks, or does nothing at a terminal node;
     * `nondeterministic` is set when the source prints its warning about unquantified choices.
     */
    method PerformOneStepOfSimulation() returns (nondeterministic: bool)
      requires Valid()
      modifies this`node, this`rng, base`state, base`time
      ensures Valid()
      ensures nondeterministic == Nondeterministic(graph(old(node)))
      ensures Snapshot() == MarkovStep(graph, choices, old(Snapshot()))
    {
      var current := graph(node);
      nondeterministic := |current.children| + |current.childChoices| > 1;
      var nextNode: Option<NodeId> := None;
      if current.children != [] {
        nextNode := Some(current.children[0]);
      } else if current.childChoices != [] {
        var choice := current.childChoices[0];
        nextNode := Some(choices(rng, Keys(choice), Weights(choice)));
        rng := rng + 1;
      }
      if nextNode.Some? {
        node := nextNode.value;
        base.state := graph(node).term;
        base.time := base.time + 1;
      }
    }

    /**
     * Steps until a step leaves the time unchanged, trying at most `fuel` steps;
     * `finished` tells whether the run stopped at a terminal node.
     */
    method PerformWholeSimulation(fuel: nat) returns (finished: bool)
      requires Valid()
      modifies this`node, this`rng, base`state, base`time
      ensures Valid()
      ensures (Snapshot(), finished) == Run(graph, choices, old(Snapshot()), fuel)
    {
      var initialTime: int := -1;
      var budget := fuel;
      while initialTime < base.time && budget > 0
        invariant Valid()
        invariant old(base.time) <= base.time && initialTime <= base.time
        invariant initialTime < base.time ==> Run(graph, choices, Snapshot(), budget) == Run(graph, choices, old(Snapshot()), fuel)
        invariant initialTime == base.time ==> (Snapshot(), true) == Run(graph, choices, old(Snapshot()), fuel)
        decreases budget
      {
        ghost var before := Snapshot();
        initialTime := base.time;
        var _ := PerformOneStepOfSimulation();
        budget := budget - 1;
        assert Run(graph, choices, before, budget + 1) ==
               if Snapshot().time <= before.time then (Snapshot(), true) else Run(graph, choices, Snapshot(), budget);
      }
      finished := initialTime == base.time;
    }
  }
}
