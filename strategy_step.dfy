/**
 * The simulator where one step is the first solution of the strategy on the
 * current state (mvmaude.py, StrategyStepSimulator).
 */
module StrategyStep {

  import opened Wrappers
  import opened Terms
  import opened Engine
  import opened Base
  import Runs

  /** The first result of rewriting a state with the simulator's strategy, if any. */
  type Rewriter = Term -> Option<Term>

  datatype Clock = Clock(state: Term, time: nat)

  /** One step: move to the strategy's first successor and tick, or do nothing. */
  function Step(srewrite: Rewriter, c: Clock): (r: Clock)
    ensures r == c <==> srewrite(c.state).None?
    ensures r != c ==> srewrite(c.state) == Some(r.state) && r.time == c.time + 1
  {
    match srewrite(c.state)
    case Some(next) => Clock(next, c.time + 1)
    case None => c
  }

  function StepOf(srewrite: Rewriter): Clock -> Clock
  {
    c => Step(srewrite, c)
  }

  function TimeOf(): Clock -> nat
  {
    (c: Clock) => c.time
  }

  /** A whole run from `c`: steps until the strategy yields nothing, trying at most `fuel` steps. */
  function Run(srewrite: Rewriter, c: Clock, fuel: nat): (Clock, bool)
  {
    Runs.Iterate(StepOf(srewrite), TimeOf(), c, fuel)
  }

  /**
   * A finished run ends in a state the strategy cannot rewrite, where stepping is a
   * no-op; along the way time never decreases and grows by at most one per step tried.
   */
  lemma RunEndsInNormalForm(srewrite: Rewriter, c: Clock, fuel: nat)
    ensures Run(srewrite, c, fuel).1 ==>
              srewrite(Run(srewrite, c, fuel).0.state).None? &&
              Step(srewrite, Run(srewrite, c, fuel).0) == Run(srewrite, c, fuel).0
    ensures c.time <= Run(srewrite, c, fuel).0.time <= c.time + fuel
  {
    var step, clock := StepOf(srewrite), TimeOf();
    assert Runs.IdleWhenStuck(step, clock);
    assert Runs.NeverRewinds(step, clock);
    assert Runs.UnitSteps(step, clock);
    Runs.IterateEndsAtFixpoint(step, clock, c, fuel);
    Runs.IterateNeverRewinds(step, clock, c, fuel);
    Runs.IterateCountsSteps(step, clock, c, fuel);
  }

  class StrategyStepSimulator {
    const base: BaseSimulator
    const srewrite: Rewriter
    // the seed last handed to the engine's random generator
    var seed: int

    ghost function Snapshot(): Clock
      reads base
    {
      Clock(base.state, base.time)
    }

    ghost predicate Valid()
      reads base
    {
      base.Valid()
    }

    constructor (initial: Term, engine: RewriteEngine, srewrite: Rewriter)
      ensures Valid() && fresh(base)
      ensures base.initial == initial && base.engine == engine && this.srewrite == srewrite
      ensures Snapshot() == Clock(initial, 0)
    {
      base := new BaseSimulator(initial, engine);
      this.srewrite := srewrite;
    }

    /** Restarts the simulation and sets the engine's random seed. */
    method SetSimulatorForNewSimulation(randomSeed: int)
      requires Valid()
      modifies this`seed, base`state, base`time
      ensures Valid()
      ensures Snapshot() == Clock(base.initial, 0) && seed == randomSeed
    {
      base.SetSimulatorForNewSimulation(randomSeed);
      seed := randomSeed;
    }

    /** Either moves to the strategy's first successor and ticks, or changes nothing. */
    method PerformOneStepOfSimulation()
      requires Valid()
      modifies base`state, base`time
      ensures Valid()
      ensures Snapshot() == Step(srewrite, old(Snapshot()))
    {
      var nextState := srewrite(base.state);
      if nextState.Some? {
        base.state := nextState.value;
        base.time := base.time + 1;
      }
    }

    /**
     * Rewrites until the strategy yields nothing, asking it at most `fuel` times;
     * `finished` tells whether a normal form was reached.
     */
    method PerformWholeSimulation(fuel: nat) returns (finished: bool)
      requires Valid()
      modifies base`state, base`time
      ensures Valid()
      ensures (Snapshot(), finished) == Run(srewrite, old(Snapshot()), fuel)
    {
      finished := false;
      var budget := fuel;
      var nextState: Option<Term> := None;
      if budget > 0 {
        nextState := srewrite(base.state);
        budget := budget - 1;
        finished := nextState.None?;
      }
      while nextState.Some?
        invariant old(base.time) <= base.time
        invariant nextState.Some? ==>
                    srewrite(base.state) == nextState && !finished &&
                    Run(srewrite, Snapshot(), budget + 1) == Run(srewrite, old(Snapshot()), fuel)
        invariant nextState.None? ==> (Snapshot(), finished) == Run(srewrite, old(Snapshot()), fuel)
        decreases budget + (if nextState.Some? then 1 else 0)
      {
        ghost var before := Snapshot();
        base.state := nextState.value;
        base.time := base.time + 1;
        assert Snapshot() == Step(srewrite, before);
        assert Run(srewrite, before, budget + 1) == Run(srewrite, Snapshot(), budget);
        nextState := None;
        if budget > 0 {
          nextState := srewrite(base.state);
          budget := budget - 1;
          finished := nextState.None?;
        }
      }
    }
  }
}
