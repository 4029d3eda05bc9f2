/**
 * What every simulator shares (mvmaude.py, BaseSimulator): the current state,
 * the step counter, and the cache of parsed observations used to evaluate an
 * observation on the current state.
 */
module Base {

  import opened Wrappers
  import opened Terms
  import opened Holes
  import opened Engine

  /** Why an observation could not be evaluated. */
  datatype EvalError =
    | Unparsable   // the observation text did not parse, so there is no term to instantiate
    | NotNumeric   // the reduced term is not Boolean and the engine cannot convert it to a float

  /** The cached term with the state put in its hole (when it has one), reduced to normal form. */
  function Reduced(engine: RewriteEngine, e: Entry, state: Term): Term
    requires e.term.Some?
  {
    var t := if e.hole.Some? then engine.instantiate(e.term.value, e.hole.value, state) else e.term.value;
    engine.reduce(t)
  }

  /** The value of a parsed observation on `state`. */
  function Evaluate(engine: RewriteEngine, e: Entry, state: Term): (r: Result<real, EvalError>)
    ensures r == Failure(Unparsable) <==> e.term.None?
    ensures e.term.Some? && engine.sortOf(Reduced(engine, e, state)) == engine.boolSort ==>
              && (r == Success(1.0) <==> Reduced(engine, e, state) == engine.trueTerm)
              && (r == Success(0.0) <==> Reduced(engine, e, state) != engine.trueTerm)
    ensures e.term.Some? && engine.sortOf(Reduced(engine, e, state)) != engine.boolSort ==>
              (r.Success? <==> engine.toFloat(Reduced(engine, e, state)).Some?)
    ensures e.term.Some? && engine.sortOf(Reduced(engine, e, state)) != engine.boolSort &&
            engine.toFloat(Reduced(engine, e, state)).Some? ==>
              r == Success(engine.toFloat(Reduced(engine, e, state)).value)
  {
    if e.term.None? then Failure(Unparsable)
    else
      var t := Reduced(engine, e, state);
      if engine.sortOf(t) == engine.boolSort then Success(if t == engine.trueTerm then 1.0 else 0.0)
      else
        match engine.toFloat(t)
        case Some(x) => Success(x)
        case None => Failure(NotNumeric)
  }

  class BaseSimulator {
    const initial: Term
    const engine: RewriteEngine
    var state: Term
    var time: nat
    // observation text -> its parsed term and hole
    var obsCache: map<string, Entry>

    /** Every cached entry is a correct parse of its text. */
    ghost predicate Valid()
      reads this`obsCache
    {
      forall o :: o in obsCache ==> IsHoleParse(engine.parseTerm(o), obsCache[o])
    }

    constructor (initial: Term, engine: RewriteEngine)
      ensures this.initial == initial && this.engine == engine
      ensures state == initial && time == 0 && obsCache == map[]
      ensures Valid()
    {
      this.initial := initial;
      this.engine := engine;
      state := initial;
      time := 0;
      obsCache := map[];
    }

    /** Puts the simulator back at its initial state; the seed is not used here. */
    method SetSimulatorForNewSimulation(randomSeed: int)
      modifies this`state, this`time
      ensures state == initial && time == 0
    {
      state := initial;
      time := 0;
    }

    /** The simulation time: the number of steps taken since the last reset, as a real number. */
    function GetTime(): (t: real)
      reads this`time
      ensures 0.0 <= t && t.Floor == time && t == t.Floor as real
    {
      time as real
    }

    /**
     * Evaluates `observation` on the current state. A cached parse with a term is
     * reused; otherwise (no entry, or an entry whose parse failed) the text is parsed
     * again and the cache entry replaced.
     */
    method Rval(observation: string) returns (r: Result<real, EvalError>)
      requires Valid()
      modifies this`obsCache
      ensures Valid()
      ensures observation in obsCache
      ensures obsCache == old(obsCache)[observation := obsCache[observation]]
      ensures old(observation in obsCache && obsCache[observation].term.Some?) ==> obsCache == old(obsCache)
      ensures r == Evaluate(engine, obsCache[observation], state)
    {
      var entry := if observation in obsCache then obsCache[observation] else Entry(None, None);
      if entry.term.None? {
        entry := ParseHoleTerm(engine.parseTerm, observation);
        obsCache := obsCache[observation := entry];
      }
      r := Evaluate(engine, entry, state);
    }
  }

  /**
   * Evaluating the same observation twice on an unchanged state gives the same value:
   * either the second call reuses the cached parse, or both parses failed.
   */
  method EvaluateTwice(sim: BaseSimulator, observation: string) returns (first: Result<real, EvalError>, second: Result<real, EvalError>)
    requires sim.Valid()
    modifies sim`obsCache
    ensures sim.Valid()
    ensures first == second
  {
    first := sim.Rval(observation);
    second := sim.Rval(observation);
  }
}
