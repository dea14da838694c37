/**
 The fixed world of the warehouse MDP: the grid, the five boxes and where they start,
 the action list, and the state as the 8-tuple (x, y, b1, ..., b5, box id of the cell).
 */
module Warehouse {

  /** Side of the square warehouse grid. */
  const Size: nat := 10

  /** Number of boxes. */
  const BoxCount: nat := 5

  /** Box status codes, the four values 0 .. 3. */
  const Unmoved: int := 0  // still at its initial spot
  const Placed: int := 1   // set down at the goal
  const Stacked: int := 2  // stacked at the goal
  const Carried: int := 3  // carried by the agent

  /** The cells where boxes 0..4 start; a cell's box id is its position here plus one. */
  const BoxOrigins: seq<(int, int)> := [(3, 5), (1, 8), (5, 4), (9, 1), (7, 2)]

  /** The goal cell, the last cell of the grid in both coordinates. */
  const GoalCell: (int, int) := (Size - 1, Size - 1)

  /** The four move directions, in their cyclic order left, down, right, up. */
  datatype Dir = Left | Down | Right | Up

  type BoxIndex = b: int | 0 <= b < 5

  /**
   The actions. `End` is the solver's synthetic terminal action: it is passed to the
   reward at the goal state and is not one of the eleven actions of `Actions`.
   */
  datatype Action = Move(dir: Dir) | Stack(box: BoxIndex) | SetDown | PickUp | End

  /** The fixed action list, in the solver's order: four moves, five stacks, set-down, pick-up. */
  const Actions: seq<Action> :=
    [Move(Left), Move(Down), Move(Right), Move(Up),
     Stack(0), Stack(1), Stack(2), Stack(3), Stack(4),
     SetDown, PickUp]

  /** Position of a direction in the cyclic list left, down, right, up. */
  function DirIndex(d: Dir): (i: int)
    ensures 0 <= i < 4
  {
    match d
    case Left => 0
    case Down => 1
    case Right => 2
    case Up => 3
  }

  /** The state tuple; `boxes` holds the five statuses, `locId` the box id of the cell. */
  datatype State = State(x: int, y: int, boxes: seq<int>, locId: int)

  /** The shape every tuple of the source has: five statuses, and a box id that indexes the tuple. */
  predicate Shaped(s: State) {
    |s.boxes| == 5 && 0 <= s.locId <= 5
  }

  /** The state as the 8-element list `list(state)`. */
  function AsList(s: State): (l: seq<int>)
    requires |s.boxes| == 5
  {
    [s.x, s.y] + s.boxes + [s.locId]
  }

  /** The state `tuple(l)` for an 8-element list. */
  function FromList(l: seq<int>): (s: State)
    requires |l| == 8
    ensures |s.boxes| == 5 && AsList(s) == l
  {
    State(l[0], l[1], l[2..7], l[7])
  }

  lemma AsListFromList(s: State)
    requires |s.boxes| == 5
    ensures FromList(AsList(s)) == s
  {
    assert AsList(s)[2..7] == s.boxes;
  }

  /** Number of occurrences of `v` in `bs` (`list.count`). */
  function Count(bs: seq<int>, v: int): (n: nat)
    ensures n <= |bs|
  {
    if bs == [] then 0 else Count(bs[..|bs| - 1], v) + (if bs[|bs| - 1] == v then 1 else 0)
  }

  /** A value is counted zero times exactly when it does not occur. */
  lemma {:induction false} CountZero(bs: seq<int>, v: int)
    ensures Count(bs, v) == 0 <==> v !in bs
  {
    if bs != [] {
      CountZero(bs[..|bs| - 1], v);
      assert bs == bs[..|bs| - 1] + [bs[|bs| - 1]];
    }
  }

  /** `Count` is the multiplicity of `v` in the list. */
  lemma {:induction false} CountIsMultiplicity(bs: seq<int>, v: int)
    ensures Count(bs, v) == multiset(bs)[v]
  {
    if bs != [] {
      CountIsMultiplicity(bs[..|bs| - 1], v);
      assert bs == bs[..|bs| - 1] + [bs[|bs| - 1]];
    }
  }

  /** Overwriting position `k` changes the count by what was removed and what was written. */
  lemma {:induction false} CountUpdate(bs: seq<int>, k: int, w: int, v: int)
    requires 0 <= k < |bs|
    ensures Count(bs[k := w], v) == Count(bs, v) - (if bs[k] == v then 1 else 0) + (if w == v then 1 else 0)
    decreases |bs|
  {
    var n := |bs|;
    if k == n - 1 {
      assert bs[k := w][..n - 1] == bs[..n - 1];
    } else {
      assert bs[k := w][..n - 1] == bs[..n - 1][k := w];
      CountUpdate(bs[..n - 1], k, w, v);
    }
  }

  /** Position of the first occurrence of `v` in `s` (`list.index`). */
  function IndexOf<T(==)>(s: seq<T>, v: T): (i: nat)
    requires v in s
    ensures i < |s| && s[i] == v && v !in s[..i]
  {
    if s[0] == v then 0
    else
      var i := 1 + IndexOf(s[1..], v);
      assert s[..i] == [s[0]] + s[1..][..i - 1];
      i
  }

  /** One plus the position of `p` in `table`, or 0 when `p` is not in it. */
  function IdIn(table: seq<(int, int)>, p: (int, int)): (id: nat)
    ensures id <= |table|
  {
    if table == [] then 0
    else if table[0] == p then 1
    else
      var rest := IdIn(table[1..], p);
      if rest == 0 then 0 else rest + 1
  }

  /** The box id of cell (x, y). */
  function LocId(x: int, y: int): (id: int)
    ensures 0 <= id <= 5
  {
    IdIn(BoxOrigins, (x, y))
  }

  lemma {:induction false} IdInIsIndexOf(table: seq<(int, int)>, p: (int, int))
    ensures IdIn(table, p) == if p !in table then 0 else IndexOf(table, p) + 1
  {
    if table != [] && table[0] != p {
      IdInIsIndexOf(table[1..], p);
      assert p in table <==> p in table[1..] by {
        assert table == [table[0]] + table[1..];
      }
    }
  }

  /**
   A cell's box id is `(x, y) in box_initial_locations`-guarded `index((x, y)) + 1`: 0 exactly
   off the origin table, and otherwise the number of the box that starts there.
   */
  lemma LocIdMeaning(x: int, y: int)
    ensures LocId(x, y) == if (x, y) !in BoxOrigins then 0 else IndexOf(BoxOrigins, (x, y)) + 1
    ensures LocId(x, y) == 0 <==> (x, y) !in BoxOrigins
    ensures LocId(x, y) != 0 ==> BoxOrigins[LocId(x, y) - 1] == (x, y)
  {
    IdInIsIndexOf(BoxOrigins, (x, y));
  }

  /** Five statuses, each in 0..3, with at most one box carried. */
  predicate ValidStatuses(bs: seq<int>) {
    && |bs| == 5
    && (forall i :: 0 <= i < 5 ==> Unmoved <= bs[i] <= Carried)
    && Count(bs, Carried) <= 1
  }

  /** The states the state space holds: on the grid, valid statuses, box id derived from the cell. */
  predicate Valid(s: State) {
    && 0 <= s.x < Size && 0 <= s.y < Size
    && ValidStatuses(s.boxes)
    && s.locId == LocId(s.x, s.y)
  }

  lemma ValidIsShaped(s: State)
    requires Valid(s)
    ensures Shaped(s)
  {
  }

  predicate AtGoal(s: State) {
    (s.x, s.y) == GoalCell
  }

  /** The single terminal configuration: at the goal cell with every box stacked. */
  const GoalState: State := State(Size - 1, Size - 1, [Stacked, Stacked, Stacked, Stacked, Stacked], 0)

  /** The goal test compares with one literal tuple; that tuple is the only valid state at the goal with all boxes stacked. */
  function CheckGoalState(s: State): (goal: bool)
    ensures goal ==> Valid(s) && AtGoal(s)
    ensures goal <==> Valid(s) && AtGoal(s) && forall i :: 0 <= i < |s.boxes| ==> s.boxes[i] == Stacked
  {
    CountZero(GoalState.boxes, Carried);
    s == GoalState
  }

  /** The indices i >= `from` with `bs[i]` stacked, ascending. */
  function StackedFrom(bs: seq<int>, from: nat): (r: seq<int>)
    requires from <= |bs|
    ensures forall k :: k in r <==> from <= k < |bs| && bs[k] == Stacked
    decreases |bs| - from
  {
    if from == |bs| then []
    else (if bs[from] == Stacked then [from] else []) + StackedFrom(bs, from + 1)
  }

  /**
   Whether `box` may go on the stack: it is not stacked yet and every stacked box has a
   larger index (boxes go on in decreasing index order, each new one the smallest so far).
   */
  function CheckStackOrder(s: State, box: BoxIndex): (ok: bool)
    requires |s.boxes| == 5
    ensures ok <==> s.boxes[box] != Stacked && forall i :: 0 <= i < 5 && s.boxes[i] == Stacked ==> box < i
  {
    if s.boxes[box] == Stacked then false
    else
      var currentStack := StackedFrom(s.boxes, 0);
      if currentStack == [] then true
      else forall k :: k in currentStack ==> box < k
  }

  lemma {:induction false} EmptyStackAcceptsAll(s: State, box: BoxIndex)
    requires |s.boxes| == 5 && Stacked !in s.boxes
    ensures CheckStackOrder(s, box)
  {
    assert s.boxes[box] != Stacked by {
      assert s.boxes[box] in s.boxes;
    }
    forall i | 0 <= i < 5
      ensures s.boxes[i] != Stacked
    {
      assert s.boxes[i] in s.boxes;
    }
  }

  /** With exactly boxes 1 and 3 stacked, box 0 may be stacked and box 2 may not. */
  lemma StackOrderExample(s: State)
    requires |s.boxes| == 5 && s.boxes[1] == Stacked && s.boxes[3] == Stacked
    requires s.boxes[0] != Stacked && s.boxes[2] != Stacked && s.boxes[4] != Stacked
    ensures CheckStackOrder(s, 0)
    ensures !CheckStackOrder(s, 2)
  {
  }

  /** getMov: the unit step (dx, dy) of direction index `dir` (left, down, right, up). */
  function GetMov(dir: int): (m: (int, int))
    requires 0 <= dir < 4
    ensures (if m.0 < 0 then -m.0 else m.0) + (if m.1 < 0 then -m.1 else m.1) == 1
  {
    ([0, 1, 0, -1][dir], [-1, 0, 1, 0][dir])
  }

  /**
   The two slip directions, `(dir - 1) % 4` and `(dir + 1) % 4`, are at right angles to
   `dir` and opposite each other.
   */
  lemma SlipsArePerpendicular(dir: int)
    requires 0 <= dir < 4
    ensures var m, l, r := GetMov(dir), GetMov((dir - 1) % 4), GetMov((dir + 1) % 4);
      && m.0 * l.0 + m.1 * l.1 == 0
      && m.0 * r.0 + m.1 * r.1 == 0
      && l.0 == -r.0 && l.1 == -r.1
  {
  }
}
