/**
 The reward of taking an action in a state. The source tests the action kinds in a fixed
 order and the first test that fires decides; a set-down away from the goal falls through
 every test and has no reward.
 */
module Rewards {
  import opened Wrappers
  import opened Warehouse
  import opened Transitions

  /** Reward for the terminal `End` action taken at the goal state. */
  const EndReward: int := 100

  function Reward(s: State, a: Action): (r: Option<int>)
    requires |s.boxes| == 5
    ensures a.End? ==> r == Some(EndReward)
    ensures a.Stack? ==> r == Some(if CheckStackOrder(s, a.box) then 10 else -50)
    ensures a.SetDown? ==> r == if !AtGoal(s) then None else if Carried in s.boxes then Some(5) else Some(2)
    ensures a.Move? ==> r == Some(if AtGoal(s) then 2 else -1)
    ensures a.PickUp? ==> r == Some(if AtGoal(s) then 2 else 5)
    ensures r.None? <==> a.SetDown? && !AtGoal(s)
  {
    if a.End? then Some(EndReward)
    else if a.Stack? then (if CheckStackOrder(s, a.box) then Some(10) else Some(-50))
    else if a.SetDown? && AtGoal(s) && Carried in s.boxes then Some(5)
    else if AtGoal(s) then Some(2)
    else if a.Move? then Some(-1)
    else if a.PickUp? then Some(5)
    else None
  }

  /** Whenever an action is applicable its reward is defined, so every Q-value has a reward to use. */
  lemma RewardDefinedWhereApplicable(s: State, a: Action)
    requires Shaped(s)
    ensures Successors(s, a).Some? ==> Reward(s, a).Some?
  {
  }

  /**
   At the goal, a stack action earns 10 exactly when its outcome has the box stacked, and
   -50 exactly when its outcome has no box stacked at all (the stack was knocked over).
   */
  lemma StackRewardMatchesOutcome(s: State, box: BoxIndex)
    requires |s.boxes| == 5 && AtGoal(s)
    ensures var n := StackOutcomes(s, box).value[0].next;
      && (Reward(s, Stack(box)) == Some(10) <==> n.boxes[box] == Stacked)
      && (Reward(s, Stack(box)) == Some(-50) <==> Stacked !in n.boxes)
  {
    var n := StackOutcomes(s, box).value[0].next;
    StackEffect(s, box);
    if CheckStackOrder(s, box) {
      assert n.boxes[box] in n.boxes;
    }
  }
}
