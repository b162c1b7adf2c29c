/**
 * The budgeted Thompson-sampling engine as an object: its success and failure
 * counters are arrays updated in place, the remaining budget, the round's pool
 * and the last chosen arm are fields. Every method is tied to the value-level
 * definitions of module BanditSpec.
 */
module TSBudgetEngine {
  import opened BanditSpec

  /** What `update` did: the counters and budget were updated, or the observation had no row for the chosen arm. */
  datatype UpdateOutcome = Updated | LookupError

  class TSBudget {
    const ground: seq<int>
    const costs: seq<real>
    const budget: real
    const success: array<nat>
    const failures: array<nat>
    var pool: seq<int>
    var armChosen: Option<int>
    var remaining: real

    function Cfg(): Config
      reads this
    {
      Config(ground, costs)
    }

    ghost predicate Valid()
      reads this
    {
      && WellFormed(Cfg())
      && success.Length == |ground| && failures.Length == |ground|
      && success != failures
      && forall a :: a in pool ==> a in ground
    }

    /** The counters and the remaining budget as a value. */
    function State(): (ledger: Ledger)
      reads this, success, failures
      requires Valid()
      ensures Fits(Cfg(), ledger)
    {
      Ledger(success[..], failures[..], remaining)
    }

    constructor (arms: seq<int>, cost: seq<real>, budget: real)
      requires WellFormed(Config(arms, cost))
      ensures Valid() && fresh(success) && fresh(failures)
      ensures ground == arms && costs == cost && this.budget == budget
      ensures pool == arms && armChosen == None
      ensures State() == Ledger(Zeros(|arms|), Zeros(|arms|), budget)
    {
      ground := arms;
      pool := arms;
      costs := cost;
      this.budget := budget;
      remaining := budget;
      armChosen := None;
      success := new nat[|arms|](_ => 0);
      failures := new nat[|arms|](_ => 0);
    }

    /** Starts a round: the pool becomes the ground arms offered in `obs`, and the chosen arm is reset to -1. */
    method InitChoice(obs: Observation)
      requires Valid()
      modifies this
      ensures Valid() && State() == old(State())
      ensures armChosen == Some(-1) && pool == Pool(ground, obs)
    {
      armChosen := Some(-1);
      pool := Pool(ground, obs);
    }

    /**
     * Scores every pool arm into a fresh array, then returns the first
     * best-scoring pool arm whose cost is within the remaining budget; nothing
     * when the budget is used up or no pool arm is affordable.
     */
    method ChooseAction() returns (best: Option<int>)
      requires Valid()
      ensures
        var scores := Scores(ground, pool, success[..], failures[..]);
        CostsCover(pool, costs) && best == Decide(pool, scores, costs, remaining)
    {
      PoolCovered();
      if remaining <= 0.0 {
        return None;
      }
      var payoff := new real[|pool|](_ => -1.0);
      for i := 0 to |pool|
        invariant forall k :: 0 <= k < i ==>
          payoff[k] == Score(success[Position(ground, pool[k])], failures[Position(ground, pool[k])])
      {
        var armPos := Position(ground, pool[i]);
        payoff[i] := Beta(success[armPos], failures[armPos] + 1);
      }
      var affordable := Affordable(pool, costs, remaining, |pool|);
      if affordable == [] {
        return None;
      }
      var scores := payoff[..];
      assert scores == Scores(ground, pool, success[..], failures[..]);
      var affordablePayoffs := seq(|affordable|, k requires 0 <= k < |affordable| => scores[affordable[k]]);
      var bestArmIndex := affordable[FirstArgMax(affordablePayoffs, |affordablePayoffs|)];
      best := Some(pool[bestArmIndex]);
    }

    lemma PoolCovered()
      requires Valid()
      ensures CostsCover(pool, costs)
    {
      forall i | 0 <= i < |pool| ensures 0 <= pool[i] < |costs| {
        assert pool[i] in pool;
        IdsInRange(Cfg(), pool[i]);
      }
    }

    /** One round's decision: restrict to the offered arms, choose, and remember the choice. */
    method Run(obs: Observation) returns (decision: Option<int>)
      requires Valid()
      modifies this
      ensures Valid() && State() == old(State())
      ensures pool == Pool(ground, obs) && armChosen == decision
      ensures decision == Decision(Cfg(), State(), obs)
    {
      InitChoice(obs);
      decision := ChooseAction();
      armChosen := decision;
    }

    /**
     * Credits the chosen arm from the observed feedback: one success or one
     * failure, and its cost paid whatever the reward. When the observation has
     * no row for the chosen arm nothing changes and a lookup error is reported.
     */
    method Update(obs: Observation) returns (outcome: UpdateOutcome)
      requires Valid() && armChosen.Some? && armChosen.value in ground
      modifies this`remaining, success, failures
      ensures Valid() && armChosen == old(armChosen) && pool == old(pool)
      ensures
        match Evaluate(obs, armChosen.value)
        case None => outcome == LookupError && State() == old(State())
        case Some(reward) =>
          outcome == Updated && 0 <= armChosen.value < |ground|
          && State() == Credit(costs, old(State()), armChosen.value, reward)
    {
      var arm := armChosen.value;
      IdsInRange(Cfg(), arm);
      var observedReward := Evaluate(obs, arm);
      if observedReward.None? {
        return LookupError;
      }
      if observedReward.value == 1 {
        success[arm] := success[arm] + 1;
      } else {
        failures[arm] := failures[arm] + 1;
      }
      remaining := remaining - costs[arm];
      outcome := Updated;
    }
  }
}
