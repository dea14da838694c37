/**
 The transition model: for a state and an action, either "inapplicable" (None) or the list
 of successor states with their probabilities, given in whole percent.
 */
module Transitions {
  import opened Wrappers
  import opened Warehouse

  /** A successor state and its probability in percent. */
  datatype Outcome = Outcome(next: State, percent: int)

  predicate InGrid(x: int, y: int) {
    0 <= x < Size && 0 <= y < Size
  }

  /** update_box_id: the state with its box id recomputed from its coordinates. */
  function UpdateBoxId(s: State): (r: State)
    ensures r.x == s.x && r.y == s.y && r.boxes == s.boxes && 0 <= r.locId <= 5
  {
    s.(locId := LocId(s.x, s.y))
  }

  /**
   The recomputed box id is 0 exactly when the cell is no box's origin, and otherwise names
   the box whose origin the cell is.
   */
  lemma UpdateBoxIdMeaning(s: State)
    ensures var r := UpdateBoxId(s);
      && (r.locId == 0 <==> (s.x, s.y) !in BoxOrigins)
      && (r.locId != 0 ==> BoxOrigins[r.locId - 1] == (s.x, s.y))
  {
    LocIdMeaning(s.x, s.y);
  }

  /** The state shifted by the offset `m`, box id recomputed. */
  function Moved(s: State, m: (int, int)): State {
    UpdateBoxId(s.(x := s.x + m.0, y := s.y + m.1))
  }

  /** Whether shifting `s` by the offset `m` stays on the grid. */
  predicate OnGridAfter(s: State, m: (int, int)) {
    InGrid(s.x + m.0, s.y + m.1)
  }

  /** The offset of a double step. */
  function Twice(m: (int, int)): (int, int) {
    (m.0 * 2, m.1 * 2)
  }

  /** Sum of the percentages of a successor list. */
  function TotalPercent(os: seq<Outcome>): int {
    if os == [] then 0 else os[0].percent + TotalPercent(os[1..])
  }

  /** The percentages of a successor list, in order. */
  function Percents(os: seq<Outcome>): (ps: seq<int>)
    ensures |ps| == |os|
  {
    if os == [] then [] else [os[0].percent] + Percents(os[1..])
  }

  /** The 5% outcome of slipping towards direction index `dir`: one step that way, or staying put at a wall. */
  function SlipOutcome(s: State, dir: int): (o: Outcome)
    requires 0 <= dir < 4
    ensures o.percent == 5 && o.next.boxes == s.boxes
  {
    if OnGridAfter(s, GetMov(dir)) then Outcome(Moved(s, GetMov(dir)), 5) else Outcome(s, 5)
  }

  /**
   Moving in `dir`: inapplicable when one step leaves the grid; otherwise a 5% slip to each
   side, then a 10% double step and an 80% single step, or a 90% single step when the
   double step would leave the grid.
   */
  function MoveOutcomes(s: State, dir: Dir): (r: Option<seq<Outcome>>)
    ensures r.None? <==> !OnGridAfter(s, GetMov(DirIndex(dir)))
  {
    var d := DirIndex(dir);
    if !OnGridAfter(s, GetMov(d)) then None
    else Some([SlipOutcome(s, (d - 1) % 4), SlipOutcome(s, (d + 1) % 4)] + StraightOutcomes(s, GetMov(d)))
  }

  /** The outcomes along the requested step `m`: 10% two steps and 80% one step, or 90% one step at a wall. */
  function StraightOutcomes(s: State, m: (int, int)): (r: seq<Outcome>)
    ensures |r| == 2 <==> OnGridAfter(s, Twice(m))
    ensures 1 <= |r| <= 2 && r[|r| - 1].next == Moved(s, m)
    ensures forall o :: o in r ==> o.next.boxes == s.boxes
  {
    if OnGridAfter(s, Twice(m)) then [Outcome(Moved(s, Twice(m)), 10), Outcome(Moved(s, m), 80)]
    else [Outcome(Moved(s, m), 90)]
  }

  /**
   An applicable move has four outcomes weighted 5, 5, 10, 80 when the double step stays on
   the grid and three weighted 5, 5, 90 otherwise; the weights sum to 100. The first two are
   the slips to either side, the last is exactly one step in the requested direction.
   */
  lemma MoveDistribution(s: State, dir: Dir)
    requires MoveOutcomes(s, dir).Some?
    ensures var os, d := MoveOutcomes(s, dir).value, DirIndex(dir);
      && Percents(os) == (if OnGridAfter(s, Twice(GetMov(d))) then [5, 5, 10, 80] else [5, 5, 90])
      && TotalPercent(os) == 100
      && os[0] == SlipOutcome(s, (d - 1) % 4)
      && os[1] == SlipOutcome(s, (d + 1) % 4)
      && os[|os| - 1].next == Moved(s, GetMov(d))
      && (OnGridAfter(s, Twice(GetMov(d))) ==> os[2].next == Moved(s, Twice(GetMov(d))))
  {
    var os, d := MoveOutcomes(s, dir).value, DirIndex(dir);
    assert os[1..][1..][1..] == if OnGridAfter(s, Twice(GetMov(d))) then [os[3]] else [];
    PercentsOfTail(os[1..][1..]);
    PercentsOfTail(os[1..]);
    PercentsOfTail(os);
  }

  /** A slip moves one step sideways, or leaves the state as it is when that step would leave the grid. */
  lemma SlipStaysPutAtWall(s: State, dir: int)
    requires 0 <= dir < 4
    ensures SlipOutcome(s, dir).percent == 5
    ensures SlipOutcome(s, dir).next == if OnGridAfter(s, GetMov(dir)) then Moved(s, GetMov(dir)) else s
  {
  }

  /**
   Every move outcome keeps the five statuses and carries the box id of its own cell, and
   lands on the grid: on the cell one or two steps away, on a side cell, or where it started.
   */
  lemma MoveKeepsStatuses(s: State, dir: Dir)
    requires s.locId == LocId(s.x, s.y) && MoveOutcomes(s, dir).Some?
    ensures forall o :: o in MoveOutcomes(s, dir).value ==>
      && o.next.boxes == s.boxes
      && o.next.locId == LocId(o.next.x, o.next.y)
      && (InGrid(s.x, s.y) ==> InGrid(o.next.x, o.next.y))
  {
  }

  lemma PercentsOfTail(os: seq<Outcome>)
    requires os != []
    ensures Percents(os) == [os[0].percent] + Percents(os[1..])
    ensures TotalPercent(os) == os[0].percent + TotalPercent(os[1..])
  {
  }

  /** Every status 2 (stacked) turned into 1 (set down): the stack is knocked over. */
  function Unstacked(bs: seq<int>): (r: seq<int>)
    ensures |r| == |bs|
    ensures forall i :: 0 <= i < |bs| ==> r[i] == if bs[i] == Stacked then Placed else bs[i]
  {
    seq(|bs|, i requires 0 <= i < |bs| => if bs[i] == Stacked then Placed else bs[i])
  }

  /**
   Stacking `box`: only at the goal cell; the box becomes stacked if the stack order allows
   it, otherwise the whole stack is knocked over. Either way a single certain outcome.
   */
  function StackOutcomes(s: State, box: BoxIndex): (r: Option<seq<Outcome>>)
    requires |s.boxes| == 5
    ensures r.None? <==> !AtGoal(s)
  {
    if !AtGoal(s) then None
    else if CheckStackOrder(s, box) then Some([Outcome(s.(boxes := s.boxes[box := Stacked]), 100)])
    else Some([Outcome(s.(boxes := Unstacked(s.boxes)), 100)])
  }

  /** Setting down: only at the goal cell while carrying; the first carried box becomes 1. */
  function SetDownOutcomes(s: State): (r: Option<seq<Outcome>>)
    requires |s.boxes| == 5
    ensures r.None? <==> !AtGoal(s) || Carried !in s.boxes
  {
    if !AtGoal(s) || Carried !in s.boxes then None
    else Some([Outcome(s.(boxes := s.boxes[IndexOf(s.boxes, Carried) := Placed]), 100)])
  }

  /**
   Picking up: the guard reads tuple position `locId + 2` (the status of box `locId`, the
   box after the one that starts here, or the box id itself when `locId` is 5), while the
   write goes to tuple position `locId + 1` (box `locId - 1`, the one that starts here).
   */
  function PickUpOutcomes(s: State): (r: Option<seq<Outcome>>)
    requires Shaped(s)
    ensures r.Some? ==> 1 <= s.locId <= 5 && |r.value| == 1 && r.value[0].percent == 100
    ensures r.Some? ==> var n := r.value[0].next;
      && n.x == s.x && n.y == s.y && n.locId == s.locId && |n.boxes| == 5
      && forall i :: 0 <= i < 5 ==>
           && (n.boxes[i] == Carried <==> i == s.locId - 1)
           && (i != s.locId - 1 ==> n.boxes[i] == s.boxes[i])
  {
    if s.locId == 0 || AsList(s)[s.locId + 2] != Unmoved || Carried in s.boxes then None
    else Some([Outcome(s.(boxes := s.boxes[s.locId - 1 := Carried]), 100)])
  }

  /** The successor distribution of attempting `a` in `s`; `End` matches no branch and gets the empty list. */
  function Successors(s: State, a: Action): (r: Option<seq<Outcome>>)
    requires Shaped(s)
    ensures a.End? ==> r == Some([])
    ensures !a.Move? && !a.End? && r.Some? ==> |r.value| == 1 && r.value[0].percent == 100
  {
    match a
    case Move(dir) => MoveOutcomes(s, dir)
    case Stack(box) => StackOutcomes(s, box)
    case SetDown => SetDownOutcomes(s)
    case PickUp => PickUpOutcomes(s)
    case End => Some([])
  }

  /** Every applicable action of the action list yields a non-empty distribution whose weights sum to 100%. */
  lemma {:induction false} DistributionSumsTo100(s: State, a: Action)
    requires Shaped(s) && a in Actions
    ensures Successors(s, a).Some? ==> Successors(s, a).value != [] && TotalPercent(Successors(s, a).value) == 100
  {
    if a.Move? && Successors(s, a).Some? {
      MoveDistribution(s, a.dir);
    }
  }

  /**
   Stacking at the goal: when the order allows it the box becomes stacked, is then the
   smallest stacked box, and nothing else changes; otherwise every stacked box is set down
   and no box is stacked afterwards. Away from the goal stacking is inapplicable.
   */
  lemma StackEffect(s: State, box: BoxIndex)
    requires |s.boxes| == 5
    ensures StackOutcomes(s, box).None? <==> !AtGoal(s)
    ensures AtGoal(s) ==>
      var n := StackOutcomes(s, box).value[0].next;
      && n.x == s.x && n.y == s.y && n.locId == s.locId && |n.boxes| == 5
      && (CheckStackOrder(s, box) ==>
            && n.boxes == s.boxes[box := Stacked]
            && forall i :: 0 <= i < 5 && n.boxes[i] == Stacked ==> box <= i)
      && (!CheckStackOrder(s, box) ==>
            && Stacked !in n.boxes
            && forall i :: 0 <= i < 5 ==> n.boxes[i] == if s.boxes[i] == Stacked then Placed else s.boxes[i])
  {
    if AtGoal(s) && !CheckStackOrder(s, box) {
      var n := StackOutcomes(s, box).value[0].next;
      forall k | 0 <= k < |n.boxes|
        ensures n.boxes[k] != Stacked
      {
      }
    }
  }

  /**
   Setting down from a valid state: the one carried box becomes "set down at the goal", the
   agent carries nothing afterwards, and nothing else changes.
   */
  lemma SetDownEffect(s: State)
    requires Valid(s) && SetDownOutcomes(s).Some?
    ensures var n := SetDownOutcomes(s).value[0].next;
      && n.x == s.x && n.y == s.y && n.locId == s.locId
      && exists k :: 0 <= k < 5 && s.boxes[k] == Carried && n.boxes == s.boxes[k := Placed]
    ensures Carried !in SetDownOutcomes(s).value[0].next.boxes
  {
    var k := IndexOf(s.boxes, Carried);
    CountUpdate(s.boxes, k, Placed, Carried);
    CountZero(s.boxes[k := Placed], Carried);
  }

  /**
   The pick-up guard as written: inapplicable off the origin cells, while carrying, when the
   box id is 5 (position `locId + 2` is then the box id itself), and when box `locId` (the
   next box, not the one that starts here) has left its spot.
   */
  lemma PickUpGuard(s: State)
    requires Shaped(s)
    ensures PickUpOutcomes(s).None? <==>
      s.locId == 0 || s.locId == 5 || s.boxes[s.locId] != Unmoved || Carried in s.boxes
    ensures PickUpOutcomes(s).Some? ==>
      PickUpOutcomes(s).value == [Outcome(s.(boxes := s.boxes[s.locId - 1 := Carried]), 100)]
  {
  }

  /** On the origin cell of the fifth box, pick-up is never applicable. */
  lemma PickUpNeverAtLastOrigin(s: State)
    requires Valid(s) && (s.x, s.y) == BoxOrigins[4]
    ensures PickUpOutcomes(s).None?
  {
  }

  /**
   Two states that show the guard reading the next box: at the first box's origin, a box 0
   already set down is picked up again while box 1 is unmoved, and an unmoved box 0 is not
   picked up once box 1 has moved.
   */
  lemma PickUpReadsNextBox()
    ensures PickUpOutcomes(State(3, 5, [Placed, Unmoved, Unmoved, Unmoved, Unmoved], 1))
      == Some([Outcome(State(3, 5, [Carried, Unmoved, Unmoved, Unmoved, Unmoved], 1), 100)])
    ensures PickUpOutcomes(State(3, 5, [Unmoved, Placed, Unmoved, Unmoved, Unmoved], 1)).None?
  {
    assert [Placed, Unmoved, Unmoved, Unmoved, Unmoved][0 := Carried] == [Carried, Unmoved, Unmoved, Unmoved, Unmoved];
  }

  lemma {:induction false} CountUnstacked(bs: seq<int>, v: int)
    requires v != Stacked && v != Placed
    ensures Count(Unstacked(bs), v) == Count(bs, v)
    decreases |bs|
  {
    if bs != [] {
      var n := |bs|;
      assert Unstacked(bs)[..n - 1] == Unstacked(bs[..n - 1]);
      CountUnstacked(bs[..n - 1], v);
    }
  }

  /** Every outcome of an applicable move from a valid state is valid. */
  lemma MoveStaysValid(s: State, dir: Dir)
    requires Valid(s) && MoveOutcomes(s, dir).Some?
    ensures forall o :: o in MoveOutcomes(s, dir).value ==> Valid(o.next)
  {
    MoveKeepsStatuses(s, dir);
  }

  /** The outcome of stacking at the goal from a valid state is valid. */
  lemma StackStaysValid(s: State, box: BoxIndex)
    requires Valid(s) && AtGoal(s)
    ensures Valid(StackOutcomes(s, box).value[0].next)
  {
    if CheckStackOrder(s, box) {
      CountUpdate(s.boxes, box, Stacked, Carried);
    } else {
      CountUnstacked(s.boxes, Carried);
    }
  }

  /**
   Closure: every successor of a valid state is valid, so it is one of the enumerated
   states (the solver looks each successor up in the state list).
   */
  lemma {:induction false} SuccessorsStayValid(s: State, a: Action)
    requires Valid(s)
    ensures Successors(s, a).Some? ==> forall o :: o in Successors(s, a).value ==> Valid(o.next)
  {
    match a
    case Move(dir) =>
      if MoveOutcomes(s, dir).Some? {
        MoveStaysValid(s, dir);
      }
    case Stack(box) =>
      if AtGoal(s) {
        StackStaysValid(s, box);
      }
    case SetDown =>
      if SetDownOutcomes(s).Some? {
        CountUpdate(s.boxes, IndexOf(s.boxes, Carried), Placed, Carried);
      }
    case PickUp =>
      if PickUpOutcomes(s).Some? {
        CountZero(s.boxes, Carried);
        CountUpdate(s.boxes, s.locId - 1, Carried, Carried);
      }
    case End =>
  }

  /** Writing status `v` at tuple position `k + 2` of `list(s)` updates box `k`. */
  lemma ListUpdateIsBoxUpdate(s: State, k: int, v: int)
    requires |s.boxes| == 5 && 0 <= k < 5
    ensures FromList(AsList(s)[k + 2 := v]) == s.(boxes := s.boxes[k := v])
  {
    assert AsList(s)[k + 2 := v][2..7] == s.boxes[k := v];
  }

  /**
   Transition as the source computes it: the result list grows by appends, and the
   non-move actions edit a copy of the tuple as a list. Each kind of action has its own
   method below.
   */
  method Transition(s: State, a: Action) returns (r: Option<seq<Outcome>>)
    requires Shaped(s)
    ensures r == Successors(s, a)
  {
    match a {
      case Move(dir) => r := MoveTransition(s, dir);
      case Stack(box) => r := StackTransition(s, box);
      case SetDown => r := SetDownTransition(s);
      case PickUp => r := PickUpTransition(s);
      case End => r := Some([]);
    }
  }

  /** The move branch: slip left, slip right, then the double and single steps. */
  method MoveTransition(s: State, dir: Dir) returns (r: Option<seq<Outcome>>)
    ensures r == MoveOutcomes(s, dir)
  {
    var stateList: seq<Outcome> := [];
    var x, y := s.x, s.y;
    var originalDirection := DirIndex(dir);
    var mov := GetMov(originalDirection);
    var xmov, ymov := mov.0, mov.1;
    if !InGrid(x + xmov, y + ymov) {
      return None;
    }

    // left of the requested direction
    var direction := (originalDirection - 1) % 4;
    stateList := AppendSlip(stateList, s, direction);

    // right of the requested direction
    direction := (originalDirection + 1) % 4;
    stateList := AppendSlip(stateList, s, direction);

    assert stateList == [SlipOutcome(s, (originalDirection - 1) % 4), SlipOutcome(s, (originalDirection + 1) % 4)];

    // double and regular step
    stateList := AppendStraight(stateList, s, originalDirection);
    return Some(stateList);
  }

  /** One side-slip block of the move branch: append the 5% outcome of slipping towards `direction`. */
  method AppendSlip(stateList: seq<Outcome>, s: State, direction: int) returns (result: seq<Outcome>)
    requires 0 <= direction < 4
    ensures result == stateList + [SlipOutcome(s, direction)]
  {
    var mov := GetMov(direction);
    var xmov, ymov := mov.0, mov.1;
    if InGrid(s.x + xmov, s.y + ymov) {
      var newState := State(s.x + xmov, s.y + ymov, s.boxes, s.locId);
      result := stateList + [Outcome(UpdateBoxId(newState), 5)];
    } else {
      result := stateList + [Outcome(s, 5)];
    }
  }

  /** The last block of the move branch: the double and single steps in the requested direction. */
  method AppendStraight(stateList: seq<Outcome>, s: State, originalDirection: int) returns (result: seq<Outcome>)
    requires 0 <= originalDirection < 4
    ensures result == stateList + StraightOutcomes(s, GetMov(originalDirection))
  {
    result := stateList;
    var x, y := s.x, s.y;
    var mov := GetMov(originalDirection);
    var xmov, ymov := mov.0 * 2, mov.1 * 2;
    if InGrid(x + xmov, y + ymov) {
      var newState := State(x + xmov, y + ymov, s.boxes, s.locId);
      result := result + [Outcome(UpdateBoxId(newState), 10)];
      xmov, ymov := mov.0, mov.1;
      newState := State(x + xmov, y + ymov, s.boxes, s.locId);
      result := result + [Outcome(UpdateBoxId(newState), 80)];
    } else {
      xmov, ymov := mov.0, mov.1;
      var newState := State(x + xmov, y + ymov, s.boxes, s.locId);
      result := result + [Outcome(UpdateBoxId(newState), 90)];
    }
  }

  /** The stack branch: stack the box, or knock the stack over box by box. */
  method StackTransition(s: State, box: BoxIndex) returns (r: Option<seq<Outcome>>)
    requires |s.boxes| == 5
    ensures r == StackOutcomes(s, box)
  {
    if (s.x, s.y) != GoalCell {
      return None;
    }
    var newState := AsList(s);
    if CheckStackOrder(s, box) {
      newState := newState[box + 2 := Stacked];
      ListUpdateIsBoxUpdate(s, box, Stacked);
    } else {
      // unstack
      for i := 0 to 5
        invariant |newState| == 8
        invariant newState[0] == s.x && newState[1] == s.y && newState[7] == s.locId
        invariant forall k :: 0 <= k < 5 ==>
          newState[k + 2] == if k < i && s.boxes[k] == Stacked then Placed else s.boxes[k]
      {
        if AsList(s)[i + 2] == Stacked {
          newState := newState[i + 2 := Placed];
        }
      }
      assert newState[2..7] == Unstacked(s.boxes);
    }
    var stateList := [Outcome(FromList(newState), 100)];
    return Some(stateList);
  }

  /** The set-down branch: the first carried box is set down. */
  method SetDownTransition(s: State) returns (r: Option<seq<Outcome>>)
    requires |s.boxes| == 5
    ensures r == SetDownOutcomes(s)
  {
    if (s.x, s.y) != GoalCell || Carried !in s.boxes {
      return None;
    }
    var newState := AsList(s);
    var boxIdx := IndexOf(s.boxes, Carried) + 2;
    newState := newState[boxIdx := Placed];
    ListUpdateIsBoxUpdate(s, boxIdx - 2, Placed);
    var stateList := [Outcome(FromList(newState), 100)];
    return Some(stateList);
  }

  /** The pick-up branch, with the guard and the write at the tuple positions the source uses. */
  method PickUpTransition(s: State) returns (r: Option<seq<Outcome>>)
    requires Shaped(s)
    ensures r == PickUpOutcomes(s)
  {
    if s.locId == 0 || AsList(s)[s.locId + 2] != Unmoved || Carried in s.boxes {
      return None;
    }
    var newState := AsList(s);
    newState := newState[s.locId + 1 := Carried];
    ListUpdateIsBoxUpdate(s, s.locId - 1, Carried);
    var stateList := [Outcome(FromList(newState), 100)];
    return Some(stateList);
  }
}
