/**
 * Finding the "hole" of an observation: the single free variable into which
 * the simulator substitutes its current state (mvmaude.py, collect_vars and
 * parse_hole_term).
 */
module Holes {

  import opened Wrappers
  import opened Terms

  /** What `parse_hole_term` returns: the parsed term and its hole, each possibly absent. */
  datatype Entry = Entry(term: Option<Term>, hole: Option<Term>)

  /**
   * `e` is a correct parse of an observation whose text the engine parsed as `parsed`:
   * no term if parsing failed, no hole if the term has no variable below its root,
   * and otherwise one of those variables as the hole.
   */
  ghost predicate IsHoleParse(parsed: Option<Term>, e: Entry)
  {
    match parsed
    case None => e == Entry(None, None)
    case Some(t) =>
      && e.term == Some(t)
      && (e.hole.None? <==> ArgVars(t) == {})
      && (e.hole.Some? ==> e.hole.value in ArgVars(t))
  }

  /** Adds to `varset` every variable reachable from `term` through its arguments. */
  method CollectVars(term: Term, varset: set<Term>) returns (r: set<Term>)
    ensures r == varset + ArgVars(term)
    decreases term
  {
    r := varset;
    if term.Op? {
      var args := term.args;
      var i := 0;
      while i < |args|
        invariant 0 <= i <= |args|
        invariant r == varset + ArgsVars(args[..i])
      {
        var arg := args[i];
        assert args[..i + 1][..i] == args[..i];
        if arg.Var? {
          r := r + {arg};
        } else {
          r := CollectVars(arg, r);
        }
        i := i + 1;
      }
      assert args[..i] == args;
    }
  }

  /**
   * Parses `termStr` with the engine's parser and picks its hole. When several
   * variables occur, an unspecified one is taken (the source pops one from a set).
   */
  method ParseHoleTerm(parseTerm: string -> Option<Term>, termStr: string) returns (e: Entry)
    ensures IsHoleParse(parseTerm(termStr), e)
    ensures parseTerm(termStr).Some? && |ArgVars(parseTerm(termStr).value)| == 1 ==>
              e.hole.Some? && ArgVars(parseTerm(termStr).value) == {e.hole.value}
  {
    var term := parseTerm(termStr);
    if term.None? {
      return Entry(None, None);
    }
    var varset := CollectVars(term.value, {});
    if varset == {} {
      return Entry(term, None);
    }
    var v :| v in varset;
    if |varset| == 1 {
      SingletonIs(varset, v);
    }
    e := Entry(term, Some(v));
  }

  lemma SingletonIs<T>(s: set<T>, x: T)
    requires |s| == 1 && x in s
    ensures s == {x}
  {
    assert |s - {x}| == 0;
  }

  /**
   * `parse_hole_term` as written: with more than one variable the warning refers
   * to an undefined name, so the call raises `NameError` instead of warning.
   */
  ghost function ParseHoleTermAsWritten(parseTerm: string -> Option<Term>, termStr: string): (r: Result<Entry, Raised>)
    ensures r.Failure? <==> parseTerm(termStr).Some? && |ArgVars(parseTerm(termStr).value)| > 1
    ensures r.Success? ==> IsHoleParse(parseTerm(termStr), r.value)
  {
    match parseTerm(termStr)
    case None => Success(Entry(None, None))
    case Some(t) =>
      var varset := ArgVars(t);
      if |varset| > 1 then Failure(NameError("message"))
      else if varset == {} then Success(Entry(Some(t), None))
      else var v :| v in varset; Success(Entry(Some(t), Some(v)))
  }

  /** An observation with two variables, such as `X + Y`, makes the code as written raise. */
  lemma TwoVariablesRaise()
    ensures var t := Op("_+_", [Var("X", "Nat"), Var("Y", "Nat")]);
            ParseHoleTermAsWritten(_ => Some(t), "X + Y") == Failure(NameError("message"))
  {
    var x, y := Var("X", "Nat"), Var("Y", "Nat");
    var t := Op("_+_", [x, y]);
    assert [x, y][..1] == [x];
    assert [x][..0] == [];
    assert ArgsVars([x]) == {x};
    assert ArgsVars([x, y]) == {x, y};
    assert ArgVars(t) == {x, y};
    assert |{x, y}| == 2;
  }
}
