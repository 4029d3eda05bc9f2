/**
 * Maude terms as the simulator sees them: a variable, or an operator applied
 * to a sequence of arguments (a constant has no arguments). Only the shape of
 * a term matters to the hole search in `collect_vars`; everything else about
 * terms belongs to the rewrite engine.
 */
module Terms {

  type Sort = string

  datatype Term = Var(name: string, sort: Sort) | Op(symbol: string, args: seq<Term>)

  /** The variables reachable from `t` through its arguments: `t` itself is never one of them. */
  function ArgVars(t: Term): (vs: set<Term>)
    ensures forall v :: v in vs ==> v.Var?
    ensures t !in vs
    decreases t, 1
  {
    match t
    case Var(_, _) => {}
    case Op(_, args) => ArgsVars(args)
  }

  /** The variables found by scanning `args` in order, descending into every non-variable argument. */
  function ArgsVars(args: seq<Term>): (vs: set<Term>)
    ensures forall v :: v in vs ==> v.Var?
    decreases args, 0
  {
    if args == [] then {}
    else
      var last := args[|args| - 1];
      ArgsVars(args[..|args| - 1]) + (if last.Var? then {last} else ArgVars(last))
  }

  /** `v` is a proper subterm of `t`: an argument of `t`, or below one. */
  ghost predicate Below(v: Term, t: Term)
    decreases t
  {
    t.Op? && exists i :: 0 <= i < |t.args| && (t.args[i] == v || Below(v, t.args[i]))
  }

  /** `ArgVars` finds exactly the variables that occur strictly below the root. */
  lemma {:induction false} ArgVarsExactly(t: Term, v: Term)
    ensures v in ArgVars(t) <==> v.Var? && Below(v, t)
    decreases t, 1
  {
    match t
    case Var(_, _) =>
    case Op(_, args) => ArgsVarsExactly(args, v);
  }

  lemma {:induction false} ArgsVarsExactly(args: seq<Term>, v: Term)
    ensures v in ArgsVars(args) <==>
              v.Var? && exists i :: 0 <= i < |args| && (args[i] == v || Below(v, args[i]))
    decreases args, 0
  {
    if args != [] {
      var n := |args| - 1;
      var init, last := args[..n], args[n];
      ArgsVarsExactly(init, v);
      if !last.Var? {
        ArgVarsExactly(last, v);
      }
      if v.Var? && exists i :: 0 <= i < |args| && (args[i] == v || Below(v, args[i])) {
        var i :| 0 <= i < |args| && (args[i] == v || Below(v, args[i]));
        if i < n {
          assert init[i] == args[i];
        }
      }
      if v in ArgsVars(init) {
        var i :| 0 <= i < |init| && (init[i] == v || Below(v, init[i]));
        assert args[i] == init[i];
      }
    }
  }
}
