/**
 * The simulation's round loop. The random choice of a context, the data
 * frames and the clock become an input: one observation and one elapsed-time
 * reading per round. `Simulate` is the loop as a function; the lemmas about it
 * are the run-level guarantees, and `Simulator.RunSimulation` is proved equal to it.
 */
module Simulation {
  import opened BanditSpec
  import opened TSBudgetEngine

  /** Number of rounds (`self.horizon`). */
  const Horizon: nat := 30000
  /** Total budget given to the engine (`self.budget`). */
  const Budget: real := 50000.0
  /** A liveness report is due after this many seconds of running ... */
  const LifeSignSeconds: real := 300.0
  /** ... or on every round whose number is a multiple of this. */
  const LifeSignRounds: nat := 5000

  /** What the environment supplies for one round: the observation and the seconds elapsed since the start. */
  datatype RoundInput = RoundInput(observation: Observation, elapsed: real)

  /**
   * The run's state: the engine's counters and budget, the decisions taken so
   * far (`selected_arms_list`) and the round numbers passed to `sign_life`.
   */
  datatype SimState = SimState(ledger: Ledger, selected: seq<int>, signs: seq<int>)

  /** `run_simulation` returns 0 when the budget runs out and nothing when the horizon is reached. */
  datatype Ending = BudgetExhausted | HorizonReached

  /** The final state, how the loop ended, and the round at which it stopped. */
  datatype RunResult = RunResult(state: SimState, ending: Ending, stop: nat)

  /** The two independent triggers of a liveness report. */
  predicate LifeSignDue(elapsed: real, iteration: int): (due: bool)
    ensures iteration % LifeSignRounds == 0 ==> due
    ensures elapsed >= LifeSignSeconds ==> due
  {
    elapsed >= LifeSignSeconds || iteration % LifeSignRounds == 0
  }

  /** One round once the budget check has passed: decide, update and record if an arm was chosen, then report if due. */
  function Step(cfg: Config, st: SimState, input: RoundInput, iteration: nat): (next: SimState)
    requires WellFormed(cfg) && Fits(cfg, st.ledger)
    ensures Fits(cfg, next.ledger)
  {
    var decision := Decision(cfg, st.ledger, input.observation);
    var decided := (
      if decision.None? then st
      else
        DecisionIsOfferedAndAffordable(cfg, st.ledger, input.observation);
        var arm := decision.value;
        var reward := Evaluate(input.observation, arm).value;
        st.(ledger := Credit(cfg.costs, st.ledger, arm, reward), selected := st.selected + [arm]));
    if LifeSignDue(input.elapsed, iteration) then decided.(signs := decided.signs + [iteration]) else decided
  }

  /** The loop from round `i` on: stop at the horizon, or at the start of a round whose remaining budget is not positive. */
  function Simulate(cfg: Config, st: SimState, rounds: seq<RoundInput>, i: nat): (r: RunResult)
    requires WellFormed(cfg) && Fits(cfg, st.ledger)
    requires i <= Horizon <= |rounds|
    ensures Fits(cfg, r.state.ledger)
    ensures i <= r.stop <= Horizon
    decreases Horizon - i
  {
    if i == Horizon then RunResult(st, HorizonReached, i)
    else if st.ledger.remaining <= 0.0 then RunResult(st.(signs := st.signs + [i - 1]), BudgetExhausted, i)
    else Simulate(cfg, Step(cfg, st, rounds[i], i), rounds, i + 1)
  }

  /** Sum of the costs of the decisions in `arms`. */
  function TotalCost(costs: seq<real>, arms: seq<int>): (total: real)
    requires forall k :: 0 <= k < |arms| ==> 0 <= arms[k] < |costs|
    ensures (forall j :: 0 <= j < |costs| ==> costs[j] > 0.0) ==> total >= 0.0
  {
    if arms == [] then 0.0 else TotalCost(costs, arms[..|arms| - 1]) + costs[arms[|arms| - 1]]
  }

  /**
   * The run-level invariant: every decision is a ground arm, the remaining
   * budget is the total budget minus the cost of the decisions and is never
   * negative, and each arm's successes plus failures count its decisions.
   */
  ghost predicate Consistent(cfg: Config, budget: real, st: SimState)
  {
    && Fits(cfg, st.ledger)
    && (forall k :: 0 <= k < |st.selected| ==> 0 <= st.selected[k] < |cfg.ground| <= |cfg.costs|)
    && st.ledger.remaining == budget - TotalCost(cfg.costs, st.selected)
    && st.ledger.remaining >= 0.0
    && forall a :: 0 <= a < |cfg.ground| ==>
         st.ledger.success[a] + st.ledger.failures[a] == multiset(st.selected)[a]
  }

  /** Crediting an affordable ground arm and appending it to the history keeps the invariant. */
  lemma CreditKeepsConsistent(cfg: Config, budget: real, st: SimState, arm: int, reward: nat)
    requires WellFormed(cfg) && Consistent(cfg, budget, st)
    requires 0 <= arm < |cfg.ground| && cfg.costs[arm] <= st.ledger.remaining
    ensures Consistent(cfg, budget, st.(ledger := Credit(cfg.costs, st.ledger, arm, reward), selected := st.selected + [arm]))
  {
    var selected := st.selected + [arm];
    assert selected[..|selected| - 1] == st.selected;
    CreditCountsOnePull(cfg.costs, st.ledger, arm, reward);
  }

  lemma StepKeepsConsistent(cfg: Config, budget: real, st: SimState, input: RoundInput, iteration: nat)
    requires WellFormed(cfg) && Consistent(cfg, budget, st)
    ensures Consistent(cfg, budget, Step(cfg, st, input, iteration))
  {
    var decision := Decision(cfg, st.ledger, input.observation);
    DecisionIsOfferedAndAffordable(cfg, st.ledger, input.observation);
    if decision.Some? {
      CreditKeepsConsistent(cfg, budget, st, decision.value, Evaluate(input.observation, decision.value).value);
    }
  }

  /** The invariant holds from a consistent start to the end of the run. */
  lemma {:induction false} SimulateKeepsConsistent(cfg: Config, budget: real, st: SimState, rounds: seq<RoundInput>, i: nat)
    requires WellFormed(cfg) && Consistent(cfg, budget, st)
    requires i <= Horizon <= |rounds|
    ensures Consistent(cfg, budget, Simulate(cfg, st, rounds, i).state)
    decreases Horizon - i
  {
    if i < Horizon && st.ledger.remaining > 0.0 {
      StepKeepsConsistent(cfg, budget, st, rounds[i], i);
      SimulateKeepsConsistent(cfg, budget, Step(cfg, st, rounds[i], i), rounds, i + 1);
    }
  }

  /**
   * One round: a round without a decision leaves the counters, the budget and
   * the history alone; a decided arm is appended to the history; the round
   * never lowers a counter, never raises the remaining budget, and is reported
   * exactly when one of the triggers holds.
   */
  lemma StepOnlyExtends(cfg: Config, st: SimState, input: RoundInput, iteration: nat)
    requires WellFormed(cfg) && Fits(cfg, st.ledger)
    ensures var next := Step(cfg, st, input, iteration);
      var decision := Decision(cfg, st.ledger, input.observation);
      && (decision.None? ==> next.ledger == st.ledger && next.selected == st.selected)
      && (decision.Some? ==> next.selected == st.selected + [decision.value])
      && st.selected <= next.selected && |next.selected| <= |st.selected| + 1
      && next.signs == st.signs + (if LifeSignDue(input.elapsed, iteration) then [iteration] else [])
      && next.ledger.remaining <= st.ledger.remaining
      && forall a :: 0 <= a < |cfg.ground| ==>
           next.ledger.success[a] >= st.ledger.success[a] && next.ledger.failures[a] >= st.ledger.failures[a]
  {
    var decision := Decision(cfg, st.ledger, input.observation);
    DecisionIsOfferedAndAffordable(cfg, st.ledger, input.observation);
    if decision.Some? {
      CreditCountsOnePull(cfg.costs, st.ledger, decision.value, Evaluate(input.observation, decision.value).value);
    }
  }

  /**
   * What a run does to the history: it stops at the horizon or earlier, only
   * appends decisions (at most one per executed round) and reports, never
   * lowers a counter, never raises the remaining budget, and ends by exhaustion
   * exactly when it stops before the horizon, with the budget used up.
   */
  lemma {:induction false} SimulateOnlyExtends(cfg: Config, st: SimState, rounds: seq<RoundInput>, i: nat)
    requires WellFormed(cfg) && Fits(cfg, st.ledger)
    requires i <= Horizon <= |rounds|
    ensures var r := Simulate(cfg, st, rounds, i);
      && i <= r.stop <= Horizon
      && (r.ending == HorizonReached <==> r.stop == Horizon)
      && (r.ending == BudgetExhausted ==> r.state.ledger.remaining <= 0.0)
      && st.selected <= r.state.selected
      && |r.state.selected| <= |st.selected| + (r.stop - i)
      && st.signs <= r.state.signs
      && r.state.ledger.remaining <= st.ledger.remaining
      && forall a :: 0 <= a < |cfg.ground| ==>
           r.state.ledger.success[a] >= st.ledger.success[a] && r.state.ledger.failures[a] >= st.ledger.failures[a]
    decreases Horizon - i
  {
    if i < Horizon && st.ledger.remaining > 0.0 {
      var next := Step(cfg, st, rounds[i], i);
      StepOnlyExtends(cfg, st, rounds[i], i);
      SimulateOnlyExtends(cfg, next, rounds, i + 1);
      SimulateOneRound(cfg, st, rounds, i);
    }
  }

  /** The rounds from `i` up to `stop` in which a liveness report is due, in order. */
  function DueRounds(rounds: seq<RoundInput>, i: nat, stop: nat): (due: seq<int>)
    requires stop <= |rounds|
    ensures forall k :: 0 <= k < |due| ==> i <= due[k] < stop
    ensures forall k, l :: 0 <= k < l < |due| ==> due[k] < due[l]
    decreases stop - i
  {
    if i >= stop then []
    else (if LifeSignDue(rounds[i].elapsed, i) then [i] else []) + DueRounds(rounds, i + 1, stop)
  }

  /** A round is listed exactly when it lies in the range and one of the two triggers holds in it. */
  lemma {:induction false} DueRoundsExact(rounds: seq<RoundInput>, i: nat, stop: nat)
    requires stop <= |rounds|
    ensures forall x :: x in DueRounds(rounds, i, stop) <==> i <= x < stop && LifeSignDue(rounds[x].elapsed, x)
    decreases stop - i
  {
    if i < stop {
      DueRoundsExact(rounds, i + 1, stop);
    }
  }

  /**
   * The reports of a run: one for every executed round in which a trigger
   * held, in round order, then one for round `stop - 1` if the budget ran out.
   */
  lemma {:induction false} SimulateReports(cfg: Config, st: SimState, rounds: seq<RoundInput>, i: nat)
    requires WellFormed(cfg) && Fits(cfg, st.ledger)
    requires i <= Horizon <= |rounds|
    ensures var r := Simulate(cfg, st, rounds, i);
      && i <= r.stop <= Horizon
      && r.state.signs == st.signs + DueRounds(rounds, i, r.stop)
                          + (if r.ending == BudgetExhausted then [r.stop - 1] else [])
    decreases Horizon - i
  {
    if i < Horizon && st.ledger.remaining > 0.0 {
      var next := Step(cfg, st, rounds[i], i);
      StepOnlyExtends(cfg, st, rounds[i], i);
      SimulateReports(cfg, next, rounds, i + 1);
      var r := Simulate(cfg, next, rounds, i + 1);
      var due := if LifeSignDue(rounds[i].elapsed, i) then [i] else [];
      ConcatRegroup(st.signs, due, DueRounds(rounds, i + 1, r.stop),
                    if r.ending == BudgetExhausted then [r.stop - 1] else []);
    }
  }

  /**
   * A round that starts with the budget used up ends the run there, by
   * exhaustion, before the engine is asked: the counters, the budget and the
   * history are those the round started with.
   */
  lemma SimulateStopsWhenExhausted(cfg: Config, st: SimState, rounds: seq<RoundInput>, i: nat)
    requires WellFormed(cfg) && Fits(cfg, st.ledger)
    requires i < Horizon <= |rounds| && st.ledger.remaining <= 0.0
    ensures var r := Simulate(cfg, st, rounds, i);
      && r.stop == i && r.ending == BudgetExhausted
      && r.state.ledger == st.ledger && r.state.selected == st.selected
  {
  }

  /** The state at the start of round `k` when rounds `i` .. `k - 1` are all executed. */
  ghost function StateBefore(cfg: Config, st: SimState, rounds: seq<RoundInput>, i: nat, k: nat): (s: SimState)
    requires WellFormed(cfg) && Fits(cfg, st.ledger)
    requires i <= k <= |rounds|
    ensures Fits(cfg, s.ledger)
    decreases k - i
  {
    if i == k then st
    else StateBefore(cfg, Step(cfg, st, rounds[i], i), rounds, i + 1, k)
  }

  /**
   * Every round the run executes starts with a positive budget, and the run
   * from there is the rest of the same run.
   */
  lemma {:induction false} ExecutedRoundsStartFunded(cfg: Config, st: SimState, rounds: seq<RoundInput>, i: nat, k: nat)
    requires WellFormed(cfg) && Fits(cfg, st.ledger)
    requires i <= Horizon <= |rounds|
    requires i <= k < Simulate(cfg, st, rounds, i).stop
    ensures StateBefore(cfg, st, rounds, i, k).ledger.remaining > 0.0
    ensures Simulate(cfg, StateBefore(cfg, st, rounds, i, k), rounds, k) == Simulate(cfg, st, rounds, i)
    decreases k - i
  {
    SimulateOnlyExtends(cfg, st, rounds, i);
    if i == Horizon || st.ledger.remaining <= 0.0 {
      SimulateStopsWhenExhausted(cfg, st, rounds, i);
    } else if i < k {
      SimulateOneRound(cfg, st, rounds, i);
      ExecutedRoundsStartFunded(cfg, Step(cfg, st, rounds[i], i), rounds, i + 1, k);
    }
  }

  lemma SimulateOneRound(cfg: Config, st: SimState, rounds: seq<RoundInput>, i: nat)
    requires WellFormed(cfg) && Fits(cfg, st.ledger)
    requires i < Horizon <= |rounds| && st.ledger.remaining > 0.0
    ensures Simulate(cfg, st, rounds, i) == Simulate(cfg, Step(cfg, st, rounds[i], i), rounds, i + 1)
  {
  }

  lemma ConcatRegroup(a: seq<int>, b: seq<int>, c: seq<int>, d: seq<int>)
    ensures a + b + c + d == a + (b + c) + d
  {
  }

  class Simulator {
    const algorithm: TSBudget
    var selected: seq<int>
    var signs: seq<int>

    function Snapshot(): SimState
      reads this, algorithm, algorithm.success, algorithm.failures
      requires algorithm.Valid()
    {
      SimState(algorithm.State(), selected, signs)
    }

    ghost predicate Valid()
      reads this, algorithm, algorithm.success, algorithm.failures
    {
      && algorithm.Valid()
      && algorithm.budget == Budget
      && Consistent(algorithm.Cfg(), Budget, Snapshot())
    }

    /** A simulator over the given arms and cost table, with a fresh engine holding the whole budget. */
    constructor (arms: seq<int>, costs: seq<real>)
      requires WellFormed(Config(arms, costs))
      ensures Valid() && fresh(algorithm) && fresh(algorithm.success) && fresh(algorithm.failures)
      ensures algorithm.Cfg() == Config(arms, costs)
      ensures Snapshot() == SimState(Ledger(Zeros(|arms|), Zeros(|arms|), Budget), [], [])
      ensures algorithm.pool == arms && algorithm.armChosen == None
    {
      algorithm := new TSBudget(arms, costs, Budget);
      selected := [];
      signs := [];
    }

    /**
     * One round once the budget check has passed: ask the engine for a
     * decision; if there is one, update the engine and append the decision;
     * then report the round if a trigger holds.
     */
    method PlayRound(input: RoundInput, iteration: nat)
      requires algorithm.Valid()
      modifies this, algorithm, algorithm.success, algorithm.failures
      ensures algorithm.Valid()
      ensures Snapshot() == Step(algorithm.Cfg(), old(Snapshot()), input, iteration)
      ensures algorithm.pool == Pool(algorithm.ground, input.observation)
      ensures algorithm.armChosen == Decision(algorithm.Cfg(), old(Snapshot()).ledger, input.observation)
    {
      var cfg := algorithm.Cfg();
      ghost var before := Snapshot();
      var observedValue := input.observation;
      var selectedArms := algorithm.Run(observedValue);
      if selectedArms.Some? {
        DecisionIsOfferedAndAffordable(cfg, before.ledger, observedValue);
        var _ := algorithm.Update(observedValue);
        selected := selected + [selectedArms.value];
      }
      if LifeSignDue(input.elapsed, iteration) {
        signs := signs + [iteration];
      }
    }

    /**
     * Runs up to `Horizon` rounds over `rounds`, ending early at the start of a
     * round whose remaining budget is not positive; the new state and the
     * ending are those of `Simulate`, and the run invariant still holds.
     */
    method RunSimulation(rounds: seq<RoundInput>) returns (ending: Ending)
      requires Valid() && Horizon <= |rounds|
      modifies this, algorithm, algorithm.success, algorithm.failures
      ensures Valid()
      ensures var r := Simulate(algorithm.Cfg(), old(Snapshot()), rounds, 0);
        ending == r.ending && Snapshot() == r.state
    {
      var cfg := algorithm.Cfg();
      ghost var start := Snapshot();
      ghost var result := Simulate(cfg, start, rounds, 0);
      var iteration := 0;
      while iteration < Horizon
        invariant 0 <= iteration <= Horizon
        invariant algorithm.Valid() && algorithm.Cfg() == cfg && algorithm.budget == Budget
        invariant result == Simulate(cfg, Snapshot(), rounds, iteration)
      {
        if algorithm.remaining <= 0.0 {
          signs := signs + [iteration - 1];
          SimulateKeepsConsistent(cfg, Budget, start, rounds, 0);
          return BudgetExhausted;
        }
        ghost var before := Snapshot();
        PlayRound(rounds[iteration], iteration);
        SimulateOneRound(cfg, before, rounds, iteration);
        iteration := iteration + 1;
      }
      SimulateKeepsConsistent(cfg, Budget, start, rounds, 0);
      return HorizonReached;
    }
  }
}
