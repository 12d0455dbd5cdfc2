/** The ROI calculator on the AI agents page (`ROICalculatorSection`): two
    head counts, each changed by a pair of buttons and kept within 0..10,
    and the yearly costs and savings derived from them in whole dollars. */
module RoiCalculator {

  const SupportRepCost: int := 40000
  const SalesResearcherCost: int := 55000
  /** `aiCost`: the agent's setup and maintenance. */
  const AiCost: int := 5000
  const MaxCount: int := 10

  /** `manualCost`. */
  function ManualCost(supportReps: int, salesResearchers: int): int {
    supportReps * SupportRepCost + salesResearchers * SalesResearcherCost
  }

  /** `Math.max(manualCost - aiCost, 0)`: the saving when there is one, else nothing. */
  function Savings(supportReps: int, salesResearchers: int): (r: int)
    ensures r >= 0 && r >= ManualCost(supportReps, salesResearchers) - AiCost
    ensures r == 0 || r == ManualCost(supportReps, salesResearchers) - AiCost
  {
    var d := ManualCost(supportReps, salesResearchers) - AiCost;
    if d > 0 then d else 0
  }

  /** With counts that are never negative, there is no saving exactly when
      nobody is counted: one person already costs more than the agent. */
  lemma SavingsZeroIff(supportReps: int, salesResearchers: int)
    requires supportReps >= 0 && salesResearchers >= 0
    ensures Savings(supportReps, salesResearchers) == 0 <==> supportReps == 0 && salesResearchers == 0
  {
  }

  /** More people never mean less saving. */
  lemma SavingsMonotone(r1: int, s1: int, r2: int, s2: int)
    requires r1 <= r2 && s1 <= s2
    ensures Savings(r1, s1) <= Savings(r2, s2)
  {
  }

  /** Each further person adds that role's whole cost once there is a saving. */
  lemma SavingsStep(reps: int, researchers: int)
    requires reps >= 0 && researchers >= 0 && (reps > 0 || researchers > 0)
    ensures Savings(reps + 1, researchers) == Savings(reps, researchers) + SupportRepCost
    ensures Savings(reps, researchers + 1) == Savings(reps, researchers) + SalesResearcherCost
  {
  }

  class Calculator {
    var supportReps: int
    var salesResearchers: int

    ghost predicate Valid()
      reads this
    {
      0 <= supportReps <= MaxCount && 0 <= salesResearchers <= MaxCount
    }

    /** Both counts start at one. */
    constructor ()
      ensures Valid() && supportReps == 1 && salesResearchers == 1
    {
      supportReps, salesResearchers := 1, 1;
    }

    /** `Math.max(0, supportReps - 1)`: a decrement at 0 changes nothing. */
    method DecrementSupportReps()
      requires Valid()
      modifies this
      ensures Valid()
      ensures supportReps == if old(supportReps) == 0 then 0 else old(supportReps) - 1
      ensures salesResearchers == old(salesResearchers)
    {
      supportReps := if supportReps - 1 > 0 then supportReps - 1 else 0;
    }

    /** `Math.min(10, supportReps + 1)`: an increment at 10 changes nothing. */
    method IncrementSupportReps()
      requires Valid()
      modifies this
      ensures Valid()
      ensures supportReps == if old(supportReps) == MaxCount then MaxCount else old(supportReps) + 1
      ensures salesResearchers == old(salesResearchers)
    {
      supportReps := if supportReps + 1 < MaxCount then supportReps + 1 else MaxCount;
    }

    method DecrementSalesResearchers()
      requires Valid()
      modifies this
      ensures Valid()
      ensures salesResearchers == if old(salesResearchers) == 0 then 0 else old(salesResearchers) - 1
      ensures supportReps == old(supportReps)
    {
      salesResearchers := if salesResearchers - 1 > 0 then salesResearchers - 1 else 0;
    }

    method IncrementSalesResearchers()
      requires Valid()
      modifies this
      ensures Valid()
      ensures salesResearchers == if old(salesResearchers) == MaxCount then MaxCount else old(salesResearchers) + 1
      ensures supportReps == old(supportReps)
    {
      salesResearchers := if salesResearchers + 1 < MaxCount then salesResearchers + 1 else MaxCount;
    }

    /** The saving shown for the current counts: between nothing and the
        saving for ten of each. */
    function ShownSavings(): (r: int)
      reads this
      requires Valid()
      ensures 0 <= r <= Savings(MaxCount, MaxCount)
      ensures r == Savings(supportReps, salesResearchers)
    {
      SavingsMonotone(supportReps, salesResearchers, MaxCount, MaxCount);
      Savings(supportReps, salesResearchers)
    }
  }
}
