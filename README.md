# Budgeted Thompson-sampling bandit: a Dafny model

This project models the decision core of a bandit simulator. The engine
`TSBudget` chooses one arm per round under a spending budget. The round loop
`Simulator.run_simulation` drives the engine for up to 30000 rounds with a
budget of 50000.

Each round, the engine does four things:

- It restricts the ground arms to those offered in the round's observation.
  The pool keeps the ground order.
- It scores each pool arm with `beta(S, F + 1)`.
- It keeps the arms whose cost is within the remaining budget.
- It returns the first arm with the highest score, or nothing. It returns
  nothing at once when the remaining budget is not positive.

`update` turns the chosen arm's feedback into a 0/1 reward (1 when the
feedback is at least 4). It adds one success or one failure to that arm. It
then pays the arm's cost, whatever the reward.

The files:

- `bandit_spec.dfy` (module `BanditSpec`) defines the round on values. It
  holds the score, the pool, the affordability filter, `np.argmax` as the
  first index of the maximum, the decision, the reward rule and the ledger
  update. The lemmas here characterise the decision completely: `ChoiceSpec`
  holds of it, and at most one decision meets `ChoiceSpec`.
- `ts_budget.dfy` (module `TSBudgetEngine`) is the engine as a class. Its
  counters are arrays updated in place. `ChooseAction` fills a fresh payoff
  array in a loop. Each method is proved equal to the value-level definition.
- `simulator.dfy` (module `Simulation`) holds the loop in two forms. `Simulate`
  is a function over a given sequence of round inputs. `Simulator.RunSimulation`
  is a `while` loop proved to compute the same result. Because the result is a
  function of the inputs, replaying the same inputs gives the same decisions
  and the same final ledger. The run-level guarantees are lemmas about
  `Simulate`:
  - the remaining budget is never negative;
  - it equals the budget minus the cost of the decisions taken;
  - each arm's successes plus failures equal the number of times it was chosen;
  - counters never go down;
  - the history only grows, by at most one decision per executed round;
  - the liveness reports are exactly the rounds where a trigger held, plus
    the final report when the budget runs out.

Modelling choices:

- Costs, the budget and feedback are `real`, which Dafny treats as exact
  rationals. Counters are `nat`. Scores are exact rationals.
- Ids versus positions. `choose_action` reads an arm's counters at the row
  label of the arm's row in the ground table (TSBudget.py:43-45). The model
  takes that table to carry its default 0 .. n-1 row index, so the label is the
  arm's position in the ground order. `update` writes them at
  the arm's id (TSBudget.py:74-76). Costs are read by id. The model keeps
  both indexings: `Position` is the read and `Credit` is the write. It
  requires `ContiguousIds`: the ground ids are 0 .. n-1 in ground order.
  - `CreditMovesOnlyItsScore` shows that under this assumption the two
    indexings agree.
  - `OutOfOrderIdsMisattribute` shows that with ground order [1, 0] a success
    for arm 1 raises arm 0's score.
- The score. `beta(S, F)` returns (S + 1) / (S + F + 2), the mean of
  Beta(S + 1, F + 1) (TSBudget.py:58-59). `choose_action` calls it as
  `beta(S, F + 1)` (TSBudget.py:44-45), so an arm's score is
  (S + 1) / (S + F + 3). The model uses that formula, and
  `ScoreBelowPosteriorMean` proves that it is strictly below
  (S + 1) / (S + F + 2).
- `evaluate` raises an IndexError (`.iloc[0]`) when the observation has no row
  for the chosen arm. The model returns `None` in that case, and `Update`
  reports `LookupError` and changes nothing. In the loop this cannot happen:
  a decided arm is always offered (`DecisionIsOfferedAndAffordable`).
- The random choice of a context and the wall clock are inputs. Each round
  receives a `RoundInput`: the observation and the seconds elapsed since the
  start. Each `sign_life` call is recorded as the round number passed to it.
  On exhaustion that number is `iteration - 1`, so it can be -1.

## Model

| member | source | states |
|---|---|---|
| BanditSpec.Beta | TSBudget.py:58-59 | For non-negative counts the value lies strictly between 0 and 1 |
| BanditSpec.Score | TSBudget.py:44-45 | An arm's score is `beta(S, F + 1)` and lies strictly between 0 and 1; `ScoreRisesOnSuccess` and `ScoreFallsOnFailure` show it moves with the counters in the expected direction |
| BanditSpec.ScoreBelowPosteriorMean | TSBudget.py:44-45 | An arm's score is (S+1)/(S+F+3), because the code passes F+1 to `beta`; this is strictly below the posterior mean (S+1)/(S+F+2) |
| BanditSpec.ScoreRisesOnSuccess | TSBudget.py:44-45 | One more success strictly raises the score |
| BanditSpec.ScoreFallsOnFailure | TSBudget.py:44-45 | One more failure strictly lowers the score |
| BanditSpec.Pool | TSBudget.py:33-34 | An id is in the pool exactly when it is a ground arm offered in the observation; the pool is no longer than the ground set |
| BanditSpec.PoolKeepsGroundOrder | TSBudget.py:33 | The pool keeps ground order: increasing ground ids give an increasing pool |
| BanditSpec.Position | TSBudget.py:43 | The result is the first position in the ground order holding the arm id |
| BanditSpec.Scores | TSBudget.py:41-45 | There is one score per pool arm, in pool order, each strictly between 0 and 1; the counters are read at the arm's position in the ground order |
| BanditSpec.Affordable | TSBudget.py:47 | The result lists exactly the pool indices whose arm costs at most the remaining budget, in increasing order |
| BanditSpec.FirstArgMax | TSBudget.py:52-53 | Like `np.argmax`, the result indexes a maximum, and every earlier value is strictly smaller (first occurrence wins ties) |
| BanditSpec.Decide | TSBudget.py:38-54 | A decided arm is a pool arm that the positive remaining budget covers; `DecideMeetsChoiceSpec` and `ChoiceSpecUnique` pin the decision down completely as the unique one meeting `ChoiceSpec` |
| BanditSpec.DecideMeetsChoiceSpec | TSBudget.py:36-56 | The decision is `None` exactly when the remaining budget is not positive or no pool arm is affordable. Otherwise it is the pool arm at an affordable index with the highest score, and no earlier affordable index has that score |
| BanditSpec.ChoiceSpecUnique | TSBudget.py:52-54 | At most one decision meets that specification, so the best affordable arm with the first-occurrence tie-break is determined uniquely |
| BanditSpec.Decision | TSBudget.py:23-56 | The decision for a round's observation is an arm of that round's pool; `DecisionIsOfferedAndAffordable` adds that it is offered, in range and affordable |
| BanditSpec.DecisionIsOfferedAndAffordable | TSBudget.py:47-54 | A decided arm is a ground arm offered in the observation; the remaining budget is positive and covers its cost |
| BanditSpec.FirstRow | TSBudget.py:64 | The result is absent exactly when no row has the arm id; otherwise it is the first row with that id |
| BanditSpec.Evaluate | TSBudget.py:61-68 | There is no reward (lookup error) exactly when the observation has no row for the arm. Otherwise the reward is 1 when the first such row's feedback is at least 4, and 0 when it is below 4 |
| BanditSpec.Credit | TSBudget.py:73-78 | The credited arm's successes plus failures rise by exactly one and the counter tables keep their size; `CreditCountsOnePull` states the full update |
| BanditSpec.CreditCountsOnePull | TSBudget.py:73-78 | The update adds exactly one success (reward 1) or one failure (otherwise) to the chosen arm. Every other counter is unchanged, and the budget drops by the arm's cost whatever the reward |
| BanditSpec.CreditMovesOnlyItsScore | TSBudget.py:74-76 | With ids 0..n-1 in ground order, the counter written by id is the one read by position. The credited arm's score rises on a success and falls on a failure, and every other pool arm's score is unchanged |
| BanditSpec.OutOfOrderIdsMisattribute | TSBudget.py:43-45 | With ground order [1, 0], a success for arm 1 raises the score read for arm 0 and leaves arm 1's score unchanged |
| TSBudgetEngine.TSBudget.constructor | TSBudget.py:7-21 | The counters are zero arrays of the ground size, the remaining budget is the budget, the pool is the ground arms, and no arm is chosen |
| TSBudgetEngine.TSBudget.InitChoice | TSBudget.py:30-34 | The chosen arm becomes -1 and the pool becomes the offered ground arms in ground order; counters and budget are unchanged |
| TSBudgetEngine.TSBudget.ChooseAction | TSBudget.py:36-56 | The method fills the payoff array in a loop and returns exactly the decision specified by `Decide` |
| TSBudgetEngine.TSBudget.Run | TSBudget.py:23-28 | The pool is set from the observation and the decision is remembered as the chosen arm; it is the ledger's decision for the observation, and counters and budget are unchanged |
| TSBudgetEngine.TSBudget.Update | TSBudget.py:70-78 | If the observation has no row for the chosen arm, the method reports a lookup error and nothing changes. Otherwise the ledger becomes `Credit` of the old ledger with the evaluated reward |
| Simulation.Step | simulator.py:93-104 | One executed round keeps the counters sized to the ground set; `StepOnlyExtends` and `StepKeepsConsistent` state what the round changes and the invariant it keeps |
| Simulation.Simulate | simulator.py:86-107 | The loop from a given round keeps the counters sized to the ground set and stops at that round or later, at the horizon at the latest; `SimulateKeepsConsistent`, `SimulateOnlyExtends` and `SimulateReports` state the run-level guarantees |
| Simulation.TotalCost | simulator.py:97-101 | The total that `update` pays for the decisions appended to the history; it is never negative when every arm's cost is positive |
| Simulation.StepOnlyExtends | simulator.py:93-104 | A round without a decision leaves the counters, the budget and the history unchanged. A decision is appended to the history. A round never lowers a counter or raises the budget, and it is reported exactly when a trigger holds |
| Simulation.CreditKeepsConsistent | simulator.py:97-101 | Crediting an affordable ground arm and appending it to the history keeps the run invariant |
| Simulation.StepKeepsConsistent | simulator.py:97-101 | One round keeps the run invariant: the budget is not negative, the remaining budget is the budget minus the cost of the decisions, and per-arm successes plus failures count that arm's decisions |
| Simulation.SimulateKeepsConsistent | simulator.py:86-101 | A whole run keeps that invariant |
| Simulation.SimulateOnlyExtends | simulator.py:86-101 | A run stops at most at the horizon. It ends by exhaustion exactly when it stops early, and then the budget is used up. It only appends decisions, at most one per executed round, never lowers a counter and never raises the remaining budget |
| Simulation.SimulateStopsWhenExhausted | simulator.py:87-91 | A round that starts with a remaining budget of 0 or less ends the run at that round by exhaustion, before the engine is asked: the counters, the budget and the history are unchanged |
| Simulation.ExecutedRoundsStartFunded | simulator.py:86-101 | Every round the run executes starts with a positive remaining budget, and the run from that round on is the rest of the same run |
| Simulation.LifeSignDue | simulator.py:103 | A liveness report is due whenever the round number is a multiple of 5000, and whenever at least 300 s have elapsed |
| Simulation.DueRounds | simulator.py:103 | The due rounds of a range lie in that range and are strictly increasing; `DueRoundsExact` shows they are exactly the rounds where a trigger holds |
| Simulation.DueRoundsExact | simulator.py:103-104 | A round is listed as due exactly when it lies in the range and its elapsed time is at least 300 s or its number is a multiple of 5000 |
| Simulation.SimulateReports | simulator.py:86-104 | The run's reports are the executed rounds in which a trigger held, in order, followed by round `stop - 1` when the budget ran out |
| Simulation.Simulator.constructor | simulator.py:56-77 | The engine is fresh, with zero counters and the full budget of 50000, its pool is the ground arms and no arm is chosen, and the history is empty; the run invariant holds |
| Simulation.Simulator.PlayRound | simulator.py:93-104 | One executed round on the objects (decide, update the engine, append the decision, report if a trigger holds) leaves exactly the state `Step` specifies, and the engine stays valid. The engine's pool is the offered ground arms and its chosen arm is the round's decision |
| Simulation.Simulator.RunSimulation | simulator.py:81-107 | The final counters, budget, history and reports and the way the loop ended are exactly those of `Simulate` over the given inputs. The run invariant still holds |

## Left out

- `data_extraction` is left out. It is file I/O through `RepositoryManager` and `DataLoader`, which are not part of this model. The ground arms and costs are constructor parameters.
- `context_formatter` and the user context are left out. They are numpy/pandas reshaping, and the engine's `run` never uses the context.
- `initialize_costs` is left out: it uses `np.linspace` floats and a random shuffle. The cost table is a given sequence of positive values indexed by arm id.
- `rd.choice` context sampling is left out because it is randomness. The loop takes one observation per round from an input sequence of at least 30000 rounds.
- `time.time()`, the `sign_life` and `end_sign` messages and `ReportGenerator.log_generator` are left out. The elapsed time is an input of the trigger. Only the round number of each `sign_life` call is recorded. Reaching the horizon is the `HorizonReached` ending.
- `ResultStorer.update_measures` and the accuracy and regret metrics are left out: they are not part of this model.
- The other algorithms (`EGreedy`, `Random`, `UCB`, `LinUCB`) and the engine's `name` string are left out.
- Floating point is left out. Costs, budget, feedback and scores are exact rationals, so numpy rounding, which could break score ties differently, is not modelled.
- BanditSpec.Position assumes `ground_arms` carries its default 0 .. n-1 row index, so the label read at TSBudget.py:43 is the row's position. A ground table with another index would read other counters; the data loader that builds it is not part of this model.
- Arm ids are assumed to be 0 .. n-1 in ground order (`ContiguousIds`). Duplicate ids, ids outside the cost table and numpy's wrap-around for negative indices are not modelled.
- TSBudgetEngine.TSBudget.Update requires a chosen ground arm. Calling `update` after a round without a decision is not modelled, because the loop never does it.
- Simulation.Simulator.RunSimulation does not state the engine's per-round fields `pool` and `armChosen` after the run. Only the engine's validity is kept for them.
