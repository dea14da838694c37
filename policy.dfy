/**
 The greedy step of value iteration for one state: the goal state takes action 0 with the
 terminal reward as its value; any other state takes the first action whose Q-value beats
 every earlier one strictly, starting from the floor -10000. Inapplicable actions (no
 successor list) are skipped; when nothing beats the floor the previous choice is kept.
 */
module Policy {
  import opened Wrappers
  import opened Warehouse
  import opened Transitions
  import opened Rewards

  /** The starting value of the running best Q-value. */
  const InitialBestQ: real := -10000.0

  /**
   One pass over the Q-values of the actions, `None` for an inapplicable one. The result
   is the largest value above the floor and the first action attaining it, or the floor
   and `previous` when no value exceeds it.
   */
  method ChooseAction(qs: seq<Option<real>>, previous: int) returns (bestQ: real, best: int)
    ensures bestQ >= InitialBestQ
    ensures forall j :: 0 <= j < |qs| && qs[j].Some? ==> qs[j].value <= bestQ
    ensures bestQ == InitialBestQ ==> best == previous
    ensures bestQ > InitialBestQ ==>
      && 0 <= best < |qs| && qs[best] == Some(bestQ)
      && forall j :: 0 <= j < best && qs[j].Some? ==> qs[j].value < bestQ
  {
    bestQ, best := InitialBestQ, previous;
    for na := 0 to |qs|
      invariant bestQ >= InitialBestQ
      invariant forall j :: 0 <= j < na && qs[j].Some? ==> qs[j].value <= bestQ
      invariant bestQ == InitialBestQ ==> best == previous
      invariant bestQ > InitialBestQ ==>
        && 0 <= best < na && qs[best] == Some(bestQ)
        && forall j :: 0 <= j < best && qs[j].Some? ==> qs[j].value < bestQ
    {
      if qs[na].None? {
        continue;
      }
      var qaction := qs[na].value;
      if qaction > bestQ {
        bestQ, best := qaction, na;
      }
    }
  }

  /**
   The update of one state: the goal state gets the terminal reward and action 0, the rest the
   greedy choice. `qs` holds one entry per action of the action list, None exactly for the
   actions that are inapplicable in `s`, so the chosen action is always an applicable one.
   */
  method Backup(s: State, qs: seq<Option<real>>, previous: int) returns (value: real, best: int)
    requires Shaped(s)
    requires |qs| == |Actions|
    requires forall j :: 0 <= j < |qs| ==> (qs[j].None? <==> Successors(s, Actions[j]).None?)
    ensures CheckGoalState(s) ==> value == EndReward as real && best == 0
    ensures !CheckGoalState(s) ==>
      && value >= InitialBestQ
      && (forall j :: 0 <= j < |qs| && qs[j].Some? ==> qs[j].value <= value)
      && (value == InitialBestQ ==> best == previous)
      && (value > InitialBestQ ==>
            && 0 <= best < |qs| && qs[best] == Some(value)
            && Successors(s, Actions[best]).Some?
            && forall j :: 0 <= j < best && qs[j].Some? ==> qs[j].value < value)
  {
    if CheckGoalState(s) {
      var r := Reward(s, End);
      return r.value as real, 0;
    }
    value, best := ChooseAction(qs, previous);
  }
}
