/**
 * The foreign collaborators of the simulators, as abstract functions: the
 * Maude rewrite engine (term parsing, substitution, reduction, sorts, numeric
 * conversion) and the weighted random choice of Python's `random.choices`.
 */
module Engine {

  import opened Wrappers
  import opened Terms

  /** The operations of the rewrite engine that the simulators call, with the module fixed. */
  datatype RewriteEngine = RewriteEngine(
    parseTerm: string -> Option<Term>,
    // a fresh instance of a template with one variable replaced by a value
    instantiate: (Term, Term, Term) -> Term,
    reduce: Term -> Term,
    sortOf: Term -> Sort,
    // the engine's conversion of a reduced term to a float, absent when it fails
    toFloat: Term -> Option<real>,
    boolSort: Sort,
    trueTerm: Term)

  /**
   * A weighted choice from a population: given the position in the random
   * stream, the population and its weights, the chosen element.
   */
  type Chooser = (nat, seq<int>, seq<real>) -> int

  /** A chooser always picks an element of a non-empty population. */
  ghost predicate ValidChooser(choose: Chooser)
  {
    forall n, xs, ws :: |xs| > 0 ==> choose(n, xs, ws) in xs
  }
}
