/** The goal predicate: minimum quantities that a final state must hold. */
module Goals {
  import opened Inventory

  /**
   * A goal as it is declared in the rule set, in declaration order. Its
   * order matters only to the heuristic, whose residual map lists goal items
   * after the declared items; `ToMap` gives the goal dictionary.
   */
  type GoalList = Pairs

  /**
   * Every goal item is a key of the state with at least the goal amount; an
   * absent key fails even when the goal amount is 0.
   */
  predicate GoalMet(goal: map<Item, int>, s: State) {
    forall k | k in goal :: k in s && s[k] >= goal[k]
  }

  /** The compiled goal test: an early-return loop over the goal items. */
  method IsGoal(goal: map<Item, int>, s: State) returns (ok: bool)
    ensures ok <==> GoalMet(goal, s)
  {
    var rest := goal.Keys;
    while rest != {}
      invariant rest <= goal.Keys
      invariant forall k | k in goal && k !in rest :: k in s && s[k] >= goal[k]
      decreases rest
    {
      var k :| k in rest;
      if k in s {
        if s[k] < goal[k] {
          return false;
        }
      } else {
        return false;
      }
      rest := rest - {k};
    }
    return true;
  }

  /** An item that the goal names and the state lacks defeats the goal, whatever its amount. */
  lemma AbsentGoalItemFails(goal: map<Item, int>, s: State, k: Item)
    requires k in goal && k !in s
    ensures !GoalMet(goal, s)
  {
  }
}
