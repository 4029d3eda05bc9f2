# MultiVeStA-Maude simulators, modelled in Dafny

MultiVeStA-Maude exposes a Maude rewrite model to the MultiVeStA statistical
model checker as a step-by-step simulator. The driver resets a simulator, then
asks it for one step or for a whole run. It reads the simulation time and
evaluates observations on the current state. This project models the
simulator layer of `mvmaude.py`:

- **BaseSimulator** (`base.dfy`): the current state, the step counter `time`,
  reset, `getTime`, and `rval`. `rval` evaluates an observation using a cache of
  parsed observations.
- **Hole finding** (`terms.dfy`, `holes.dfy`): `collect_vars` and
  `parse_hole_term` locate the free variable ("hole") of an observation term.
- **StrategyStepSimulator** (`strategy_step.dfy`): one step is the first
  solution of the strategy. It has its own whole-run loop.
- **UmaudemcSimulator** (`graph_walk.dfy`): `all_children` enumerates the
  successors of a graph node. The walker moves to one of them, chosen with the
  weights of a probability assigner.
- **StrategyDTMCSimulator** (`markov.dfy`): follows a precomputed execution
  tree. It takes the first unquantified child, or else a weighted choice from
  the first choice group.
- **Whole runs** (`runs.dfy`): the reference semantics of
  `performWholeSimulation`. It steps until a step no longer advances the time.

The Maude engine and Python's `random.choices` are foreign code. They become
abstract function parameters: `Engine.RewriteEngine` holds term parsing,
substitution, reduction, sorts and the float conversion. `Engine.Chooser` is a
weighted choice that always returns a member of a non-empty population. The
strategic successor function, the rewrite graph's `getNextState` and
`getStateTerm`, the assigner and the execution tree are each parameters of the
simulator that uses them.

Python's inheritance becomes composition. Each simulator class owns a
`BaseSimulator` (`base`) that holds `state`, `time` and the observation cache.
A `super()` call becomes a call on `base`. The inherited loop of
`performWholeSimulation` is written out in the two classes that inherit it.
Each class's `Snapshot()` is its observable state. Every step method is proved
equal to a step function on snapshots. Every whole-run method is proved equal
to `Runs.Iterate` of that step function.

In four places the model follows the code rather than what a reader of the simulator interface might expect:

- `UmaudemcSimulator` and `StrategyDTMCSimulator` do not reseed Python's random
  generator on reset. Only `StrategyStepSimulator` hands the seed to the
  engine. Their `rng` position therefore survives a reset.
- `rval` re-parses an observation whose cached parse failed, every time it is
  asked. Only a cached parse that produced a term is reused.
- A terminal node of the execution tree does not give a no-op step in the code:
  the step raises (see Findings). The corrected step is the no-op.
- Reset puts `state` back to `initial`, not to the engine's term for graph
  node 0 or for the tree root. The model therefore does not assume the two are
  equal. The state is `initial` while the time is 0, and after the first step
  it is the term of the current node.

## Model

| member | source | states |
|---|---|---|
| `Terms.ArgVars` | mvmaude.py:24-31 | the variables collected from a term are all variables, and the term itself is never among them |
| `Terms.ArgVarsExactly` | mvmaude.py:24-31 | a term is collected exactly when it is a variable occurring strictly below the root (reference definition `Below`) |
| `Holes.CollectVars` | mvmaude.py:24-31 | the shared set grows by exactly the variables reachable through the arguments |
| `Holes.ParseHoleTerm` | mvmaude.py:34-54 | a failed parse gives (None, None); no variable gives (term, None); otherwise the hole is one of the term's variables, and the only one when there is exactly one |
| `Holes.ParseHoleTermAsWritten` | mvmaude.py:46-54 | as written, the call raises exactly when the parsed term has more than one variable; otherwise it returns a correct hole parse |
| `Holes.TwoVariablesRaise` | mvmaude.py:46-48 | the observation `X + Y` makes the code as written raise `NameError` |
| `Base.Evaluate` | mvmaude.py:102-106 | an unparsed observation fails; a Boolean result is 1 exactly when it equals the cached `true` term and 0 exactly when it does not; any other sort succeeds exactly when the engine converts it to a float, and then returns that float |
| `Base.BaseSimulator.constructor` | mvmaude.py:63-73 | starts at the initial state with time 0 and an empty cache |
| `Base.BaseSimulator.SetSimulatorForNewSimulation` | mvmaude.py:75-79 | reset restores the initial state and time 0 and keeps the cache |
| `Base.BaseSimulator.GetTime` | mvmaude.py:90-93 | the time is a whole, non-negative real whose integer part is the step count |
| `Base.BaseSimulator.Rval` | mvmaude.py:95-106 | afterwards the observation is cached with a correct parse and no other entry changes; a cached entry with a term is reused unchanged; the value is `Evaluate` of that entry on the current state |
| `Base.EvaluateTwice` | mvmaude.py:95-101 | two evaluations of the same text on an unchanged state give the same value |
| `Runs.IterateNeverRewinds` | mvmaude.py:81-88 | a whole run never ends at an earlier time than it started |
| `Runs.IterateCountsSteps` | mvmaude.py:81-88 | with steps of at most one tick, a run trying `fuel` steps advances the time by at most `fuel` |
| `Runs.IterateEndsAtFixpoint` | mvmaude.py:81-88 | a finished run ends where one more step changes nothing |
| `Runs.IterateMoreFuel` | mvmaude.py:81-88 | once a run has finished, more fuel gives the same outcome |
| `StrategyStep.Step` | mvmaude.py:123-130 | a step changes nothing exactly when the strategy yields nothing; otherwise the state becomes the strategy's successor and time grows by 1 |
| `StrategyStep.RunEndsInNormalForm` | mvmaude.py:132-140 | a finished run ends in a state the strategy cannot rewrite, where stepping is a no-op; time never decreases and grows by at most one per step |
| `StrategyStep.StrategyStepSimulator.constructor` | mvmaude.py:112-115 | starts at the initial state with time 0 |
| `StrategyStep.StrategyStepSimulator.SetSimulatorForNewSimulation` | mvmaude.py:117-121 | reset restores state and time and records the seed given to the engine |
| `StrategyStep.StrategyStepSimulator.PerformOneStepOfSimulation` | mvmaude.py:123-130 | the new state and time are `Step` of the old ones: all or nothing |
| `StrategyStep.StrategyStepSimulator.PerformWholeSimulation` | mvmaude.py:132-140 | the overriding loop ends with the same state, time and outcome as repeated one-step calls (`Run`) |
| `GraphWalk.EnumerationUnique` | mvmaude.py:143-153 | only one list enumerates a node's successors up to the sentinel |
| `GraphWalk.PrefixEnumerates` | mvmaude.py:143-153 | the reference enumeration lists successors in index order, none of them -1, ending at the sentinel |
| `GraphWalk.Children` | mvmaude.py:143-153 | when the enumeration ends, the successor list is that enumeration |
| `GraphWalk.AllChildren` | mvmaude.py:143-153 | returns `[next(s,0), ..., next(s,k-1)]` where `k` is the first position holding -1; no element is -1 |
| `GraphWalk.GraphStepFollowsEdge` | mvmaude.py:180-191 | a step changes nothing exactly when the node has no successor; otherwise the new node is one of the enumerated successors, the state is its term, and time grows by 1 |
| `GraphWalk.RunEndsAtLeaf` | mvmaude.py:81-88 | a finished walk ends at a node without successors; time grows by at most one per step |
| `GraphWalk.UmaudemcSimulator.constructor` | mvmaude.py:159-172 | starts at node 0, the initial state, time 0 |
| `GraphWalk.UmaudemcSimulator.SetSimulatorForNewSimulation` | mvmaude.py:174-178 | reset restores state, time and node 0; the random stream is left as it is |
| `GraphWalk.UmaudemcSimulator.PerformOneStepOfSimulation` | mvmaude.py:180-191 | the new walk state is `GraphStep` of the old one; the state is `initial` at time 0 and the term of the current node after a step |
| `GraphWalk.UmaudemcSimulator.PerformWholeSimulation` | mvmaude.py:81-88 | the inherited loop ends with the same walk state and outcome as repeated one-step calls (`Run`) |
| `Markov.NextNode` | mvmaude.py:254-264 | the first child if there is one, else a key of the first choice group; none exactly at a terminal node |
| `Markov.MarkovStepFollowsTree` | mvmaude.py:251-269 | a step changes nothing exactly at a terminal node; otherwise it moves to the first child or to a key of the first group, takes that node's term, and ticks once |
| `Markov.MarkovStepAsWritten` | mvmaude.py:259-269 | as written, a step raises exactly at a terminal node and otherwise agrees with `MarkovStep` |
| `Markov.TerminalRootRaises` | mvmaude.py:266 | with a terminal root, the code as written raises on the first step; the corrected run finishes at once |
| `Markov.RunEndsAtTerminal` | mvmaude.py:81-88 | a finished run ends at a terminal node; time grows by at most one per step |
| `Markov.StrategyDTMCSimulator.constructor` | mvmaude.py:228-243 | starts at the tree root, the initial state, time 0 |
| `Markov.StrategyDTMCSimulator.SetSimulatorForNewSimulation` | mvmaude.py:245-249 | reset restores state, time and the root; the random stream is left as it is |
| `Markov.StrategyDTMCSimulator.PerformOneStepOfSimulation` | mvmaude.py:251-269 | the new cursor is `MarkovStep` of the old one; the state is `initial` at time 0 and the term of the current node after a step; the nondeterminism flag is set exactly when more than one branch is open |
| `Markov.StrategyDTMCSimulator.PerformWholeSimulation` | mvmaude.py:81-88 | the inherited loop ends with the same cursor and outcome as repeated one-step calls (`Run`) |

## Left out

- `fatal_error`, `getenv_required` and the main block (mvmaude.py:13-21, 272-351): process signalling, environment lookups, argument parsing and the gateway to Java.
- `StrategyPathSimulator` (mvmaude.py:194-222): a thin wrapper over an external path runner. It also depends on a name defined only by the main block.
- Maude internals: parsing, `srewrite`, reduction, substitution, graph construction, strategy compilation and `MarkovRunner`. They appear only as abstract functions. The choice between a strategy graph and a plain rewrite graph, and the opaque strategies, are folded into the `Graph` parameter.
- The construction failure `BadProbStrategy` of the Markov simulator: the constructor receives the already built tree.
- Probability distributions and seeding: a choice is modelled as some member of the population. The engine's use of the seed given by `StrategyStepSimulator` is not modelled; the strategic successor is a function of the state alone.
- The float conversion in `rval` is the abstract `toFloat` parameter. The float cast of `getTime` is the step count as a real.
- Printed warnings. The Markov step returns the condition for its warning as a flag instead.
- An observation without a hole is evaluated without substitution. What the engine's `Substitution` does with an absent variable is foreign code.
- `random.choices` on an empty choice group raises in Python; `Markov.WellFormed` assumes that the tree has no empty group.
- `StrategyStep.StrategyStepSimulator.PerformWholeSimulation`, `GraphWalk.UmaudemcSimulator.PerformWholeSimulation` and `Markov.StrategyDTMCSimulator.PerformWholeSimulation` take a fuel bound on the steps tried, because the source loops have no termination guarantee. `finished` says whether the run stopped on its own.
- `Base.BaseSimulator.Rval` uses the corrected `Holes.ParseHoleTerm`. For an observation with several variables, the source raises `NameError` (mvmaude.py:47) and caches nothing. The model instead caches the parse and evaluates the observation with one of the variables as its hole.
- `GraphWalk.AllChildren` requires that some position of the node holds the sentinel -1. Otherwise the source loop never ends. `UmaudemcSimulator` assumes this for every node.

## Findings

| source | as written | input that shows it | evidently intended | confidence | as-written member | corrected member |
|---|---|---|---|---|---|---|
| mvmaude.py:47 | the warning for several variables formats the undefined name `message`, so `parse_hole_term` raises `NameError` | an observation with two variables, e.g. `X + Y` | print the warning and go on with one of the variables | high; not executed | `Holes.ParseHoleTermAsWritten` (`Holes.TwoVariablesRaise`) | `Holes.ParseHoleTerm` |
| mvmaude.py:266 | `next_node` is read without being assigned when the node has no children and no choice groups, so the step raises `UnboundLocalError` and no whole run ends normally | an execution tree whose current node is terminal | a step at a terminal node is a no-op, so that the run stops at a normal form | high; not executed | `Markov.MarkovStepAsWritten` (`Markov.TerminalRootRaises`) | `Markov.MarkovStepFollowsTree` |
