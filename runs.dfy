/**
 * The reference for a whole simulation run: step until a step no longer
 * advances the clock, with a fuel bound on the number of steps tried, since
 * nothing guarantees that a run reaches a normal form.
 */
module Runs {

  /**
   * The final state and whether the run stopped because a step failed to
   * advance the clock (`true`) rather than because the fuel ran out (`false`).
   */
  function Iterate<S>(step: S -> S, clock: S -> nat, s: S, fuel: nat): (S, bool)
    decreases fuel
  {
    if fuel == 0 then (s, false)
    else
      var t := step(s);
      if clock(t) <= clock(s) then (t, true) else Iterate(step, clock, t, fuel - 1)
  }

  ghost predicate NeverRewinds<S(!new)>(step: S -> S, clock: S -> nat)
  {
    forall x :: clock(x) <= clock(step(x))
  }

  ghost predicate UnitSteps<S(!new)>(step: S -> S, clock: S -> nat)
  {
    forall x :: clock(step(x)) <= clock(x) + 1
  }

  /** A step that does not advance the clock changes nothing. */
  ghost predicate IdleWhenStuck<S(!new)>(step: S -> S, clock: S -> nat)
  {
    forall x :: clock(step(x)) <= clock(x) ==> step(x) == x
  }

  lemma {:induction false} IterateNeverRewinds<S(!new)>(step: S -> S, clock: S -> nat, s: S, fuel: nat)
    requires NeverRewinds(step, clock)
    ensures clock(s) <= clock(Iterate(step, clock, s, fuel).0)
    decreases fuel
  {
    if fuel > 0 && clock(s) < clock(step(s)) {
      IterateNeverRewinds(step, clock, step(s), fuel - 1);
    }
  }

  /** With steps of at most one tick, a run with `fuel` tries advances the clock by at most `fuel`. */
  lemma {:induction false} IterateCountsSteps<S(!new)>(step: S -> S, clock: S -> nat, s: S, fuel: nat)
    requires UnitSteps(step, clock)
    ensures clock(Iterate(step, clock, s, fuel).0) <= clock(s) + fuel
    decreases fuel
  {
    if fuel > 0 && clock(s) < clock(step(s)) {
      IterateCountsSteps(step, clock, step(s), fuel - 1);
    }
  }

  /** A finished run ends in a state where stepping again is a no-op. */
  lemma {:induction false} IterateEndsAtFixpoint<S(!new)>(step: S -> S, clock: S -> nat, s: S, fuel: nat)
    requires IdleWhenStuck(step, clock)
    ensures Iterate(step, clock, s, fuel).1 ==> step(Iterate(step, clock, s, fuel).0) == Iterate(step, clock, s, fuel).0
    decreases fuel
  {
    if fuel > 0 && clock(s) < clock(step(s)) {
      IterateEndsAtFixpoint(step, clock, step(s), fuel - 1);
    }
  }

  /** Once a run has finished, more fuel does not change its outcome. */
  lemma {:induction false} IterateMoreFuel<S>(step: S -> S, clock: S -> nat, s: S, fuel: nat, extra: nat)
    ensures Iterate(step, clock, s, fuel).1 ==> Iterate(step, clock, s, fuel + extra) == Iterate(step, clock, s, fuel)
    decreases fuel
  {
    if fuel > 0 && clock(s) < clock(step(s)) {
      IterateMoreFuel(step, clock, step(s), fuel - 1, extra);
    }
  }
}
