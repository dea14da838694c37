# Warehouse MDP model

A Dafny model of the Markov decision process in `main.py`. A robot on a 10 x 10 grid picks up
five boxes from fixed cells. It carries them to the goal cell (9, 9), sets them down there and
stacks them in order.

A state is the 8-tuple `(x, y, b1, ..., b5, locId)`:
- `b1..b5` are the box statuses: 0 still at its spot, 1 set down at the goal, 2 stacked, 3 carried;
- `locId` is one plus the index of the box whose start cell is (x, y), or 0 if no box starts there.

The model covers five parts of the source:
- the state enumeration (`CalculateAllStates`);
- the goal test and the stack-order rule;
- the transition model (`Transition`, with `update_box_id` and `getMov`);
- the reward;
- the greedy action choice of one value-iteration sweep.

Modules:
- `Warehouse` (`warehouse.dfy`) holds the constants, the action list, the state datatype, the
  `Valid` predicate that characterises the state space, `CheckGoalState` and `CheckStackOrder`.
- `Transitions` (`transition.dfy`) has two forms of the transition model. `Successors` is the
  specification function. The methods `Transition`, `MoveTransition`, `StackTransition` and the
  others build the successor list the way the source does: by appends and by edits to
  `list(state)`. Each method is proved equal to the specification function.
- `Rewards` (`reward.dfy`) is the reward chain.
- `Policy` (`policy.dfy`) is the greedy choice over the Q-values of one state.
- `StateSpace` (`statespace.dfy`) holds the class `WarehouseMdp`, whose field `states` the
  enumeration fills. It also holds the specification of the enumeration and the proofs of
  membership, distinctness, size (64800) and closure under transitions.

### Enumeration order

The enumeration is specified cell by cell. Cell number `c` is (c / 10, c % 10), so x is the
outer loop and y the inner one. Within a cell the status lists are numbered 0..1023: list `k`
has as statuses the five base-4 digits of `k`, first status most significant. A cell's states
are those of its lists in number order, skipping every list that carries two or more boxes.

Five nested loops over `0..3`, b1 outermost, visit the status lists in increasing number
order. `LoopsStartAtZero` shows that list number 0 is the loops' first list, all zeros.
`LoopsStepInNumberOrder` shows that one step of the nested loops (`NextInLoops`: the innermost
loop still below 3 steps up and the loops inside it restart at 0) turns the digits of `k` into
the digits of `k + 1`. `DigitsOfLoops` shows that the number built from the loop variables
`b1..b5` has exactly those digits. `AppendCell` therefore runs the five loops as one count over
the list numbers 0..1023, taking the digits apart by division.

### Behaviour worth noting

The model follows the code in each case.
- A move taken at the goal cell earns 2, not -1: the reward tests "at the goal"
  (main.py:233-234) before "is a move" (main.py:236-237).
- Pick-up's guard (main.py:192) reads tuple position `locId + 2`, the status of the *next*
  box, while the write (main.py:196) goes to position `locId + 1`, the box that starts on the
  cell. The comment at main.py:191 gives the intent as "the box that's supposed to be here has
  been picked up". For `locId = 5` the guard reads the box id itself, so pick-up is never
  applicable on the fifth box's start cell.
- `CheckStackOrder` (main.py:70) accepts a box only when every stacked box has a strictly
  *larger* index.
- The goal state's best action is recorded as index 0 (main.py:262-265), which is also the
  index of the first move in the action list.

## Model

| member | source | states |
|---|---|---|
| Warehouse.AsListFromList | main.py:172-179 | `tuple(list(state))` gives back the state: the 8-element list form and the state datatype convert both ways without loss |
| Warehouse.Count | main.py:29 | `list.count(v)` never exceeds the list's length (that it is the number of occurrences is `CountIsMultiplicity`) |
| Warehouse.CountIsMultiplicity | main.py:29 | `list.count(v)` is the number of occurrences of `v`: its multiplicity in the list |
| Warehouse.CountZero | main.py:29 | `list.count(v)` is zero exactly when `v` does not occur |
| Warehouse.IndexOf | main.py:36 | `list.index(v)` is the first position holding `v` |
| Warehouse.IdIn | main.py:33-36 | the id found in a table is at most the table's length (its value, 0 or `index + 1`, is `IdInIsIndexOf`) |
| Warehouse.LocId | main.py:114-117 | a cell's box id lies in 0..5 |
| Warehouse.IdInIsIndexOf | main.py:33-36 | the box-id lookup is 0 off the origin table and `index((x, y)) + 1` on it |
| Warehouse.LocIdMeaning | main.py:114-117 | a cell's box id is 0 exactly off the origin table; otherwise the origin listed at position `id - 1` is that cell |
| Warehouse.CheckGoalState | main.py:39-48 | the goal test holds exactly for the valid state at (9, 9) with every box stacked |
| Warehouse.StackedFrom | main.py:65 | `current_stack` holds exactly the indices of the stacked boxes |
| Warehouse.CheckStackOrder | main.py:51-70 | a box may be stacked iff it is not stacked and every stacked box has a strictly larger index |
| Warehouse.EmptyStackAcceptsAll | main.py:67-69 | with nothing stacked every box may be stacked |
| Warehouse.StackOrderExample | main.py:51-70 | with boxes 1 and 3 stacked, box 0 may be stacked and box 2 may not |
| Warehouse.GetMov | main.py:124-127 | each direction index gives a unit step along one axis |
| Warehouse.SlipsArePerpendicular | main.py:135-146 | the slip directions `(d - 1) % 4` and `(d + 1) % 4` are at right angles to `d` and opposite each other |
| Transitions.UpdateBoxId | main.py:112-118 | recomputing the box id keeps the position and the statuses and gives an id in 0..5 |
| Transitions.UpdateBoxIdMeaning | main.py:112-118 | the recomputed id is 0 exactly when the cell is no box's origin, and otherwise names the box whose origin the cell is |
| Transitions.MoveOutcomes | main.py:129-132 | a move is inapplicable exactly when one step in the requested direction leaves the grid |
| Transitions.MoveDistribution | main.py:134-166 | an applicable move has weights 5, 5, 10, 80 when the double step stays on the grid and 5, 5, 90 otherwise, summing to 100; the outcomes are the two slips, the double step and the single step |
| Transitions.SlipOutcome | main.py:134-150 | a slip outcome weighs 5 and keeps the statuses |
| Transitions.StraightOutcomes | main.py:152-166 | the straight part has two outcomes exactly when the double step stays on the grid and one otherwise; the last is the single step; all keep the statuses |
| Transitions.SlipStaysPutAtWall | main.py:134-150 | a slip weighs 5 and moves one step sideways, or leaves the state unchanged when that step leaves the grid |
| Transitions.MoveKeepsStatuses | main.py:112-118 | from a state whose box id is that of its cell, every move outcome keeps the five statuses and has the box id of its own cell, and it is on the grid whenever the start is |
| Transitions.Unstacked | main.py:176-178 | knocking the stack over turns every 2 into 1 and leaves the other statuses alone |
| Transitions.StackOutcomes | main.py:168-170 | stacking is inapplicable exactly off the goal cell |
| Transitions.StackEffect | main.py:168-179 | at the goal, an allowed stack sets the box to 2 whatever its status was and changes nothing else, so the box is then the smallest stacked one; a refused stack demotes every stacked box to 1 and leaves no box stacked |
| Transitions.SetDownOutcomes | main.py:181-183 | set-down is inapplicable exactly off the goal cell or when no box is carried |
| Transitions.SetDownEffect | main.py:184-188 | setting down from a valid state turns the carried box to 1, leaves nothing carried and changes nothing else |
| Transitions.PickUpOutcomes | main.py:190-197 | an applicable pick-up has one outcome of weight 100 on the same cell with the same box id, in which box `locId - 1`, the box that starts on the cell, is the only carried box and every other status is unchanged |
| Transitions.PickUpGuard | main.py:190-197 | pick-up is inapplicable exactly when the cell has no box id, when the id is 5, when box `locId` (the next box) has moved, or while carrying; otherwise box `locId - 1` becomes carried |
| Transitions.PickUpNeverAtLastOrigin | main.py:192 | on the fifth box's start cell pick-up is never applicable |
| Transitions.PickUpReadsNextBox | main.py:192-196 | concrete states at (3, 5): a box 0 that was already set down is picked up again, and an unmoved box 0 is refused once box 1 has moved |
| Transitions.Successors | main.py:99-207 | the synthetic `End` action gets the empty list; every applicable non-move action has one outcome with weight 100 |
| Transitions.DistributionSumsTo100 | main.py:134-197 | every applicable action of the action list gives a non-empty distribution whose weights sum to 100 |
| Transitions.MoveStaysValid | main.py:134-166 | the outcomes of a move from a valid state are valid |
| Transitions.StackStaysValid | main.py:168-179 | the outcome of stacking at the goal from a valid state is valid |
| Transitions.SuccessorsStayValid | main.py:99-207 | every successor of a valid state is valid |
| Transitions.ListUpdateIsBoxUpdate | main.py:172-174 | writing position `k + 2` of `list(state)` updates box `k` and nothing else |
| Transitions.Transition | main.py:99-207 | the imperative transition equals the specification `Successors` |
| Transitions.MoveTransition | main.py:120-166 | the move branch, built by appends, equals `MoveOutcomes` |
| Transitions.AppendSlip | main.py:134-150 | one side-slip block appends exactly the slip outcome |
| Transitions.AppendStraight | main.py:152-166 | the last block appends the 10% and 80% outcomes, or the 90% one |
| Transitions.StackTransition | main.py:168-179 | the stack branch, editing a list copy with the unstack loop, equals `StackOutcomes` |
| Transitions.SetDownTransition | main.py:181-188 | the set-down branch equals `SetDownOutcomes` |
| Transitions.PickUpTransition | main.py:190-197 | the pick-up branch, with the source's tuple positions, equals `PickUpOutcomes` |
| Rewards.Reward | main.py:210-240 | the reward chain: end 100; stack 10 or -50 anywhere; set-down at the goal while carrying 5; anything else at the goal 2; move -1; pick-up 5; set-down elsewhere none |
| Rewards.RewardDefinedWhereApplicable | main.py:229-240 | every applicable action has a reward |
| Rewards.StackRewardMatchesOutcome | main.py:223-227 | at the goal a stack earns 10 exactly when its outcome has the box stacked, and -50 exactly when its outcome has no box stacked |
| Policy.ChooseAction | main.py:267-280 | the chosen Q-value bounds every applicable action's value; it is attained by the chosen action, and no earlier action attains it; when nothing beats -10000 the previous choice stays |
| Policy.Backup | main.py:261-284 | the goal state gets value 100 and action 0; any other state gets the greedy choice: its value bounds every applicable action's Q-value and is attained by the chosen action, no earlier action attains it, and the previous choice stays when nothing beats -10000; given one Q-value per action, absent exactly for the inapplicable actions, the chosen action is applicable |
| StateSpace.Digits | main.py:23-27 | every digit of a status list number is a status in 0..3 |
| StateSpace.DigitsOfLoops | main.py:23-27 | the number `b1 b2 b3 b4 b5` in base 4, built from the loop variables, has exactly the digits `b1, ..., b5` |
| StateSpace.LoopsStartAtZero | main.py:23-27 | the loops' first status list, all zeros, is list number 0 |
| StateSpace.LoopsStepInNumberOrder | main.py:23-27 | one step of the nested loops (innermost loop below 3 steps up, the loops inside it restart at 0) takes the digits of k to the digits of k + 1, so the loops visit the lists in number order |
| StateSpace.DigitsOfNumber | main.py:23-27 | the statuses of list number k are its base-4 digits, obtained by division |
| StateSpace.DigitsCode | main.py:23-27 | every status list has a number below 4 ^ length whose digits are that list |
| StateSpace.CodeDigits | main.py:23-27 | a number below 4 ^ n is read back from its digits, so different numbers give different lists |
| StateSpace.CellStates | main.py:23-36 | the first k status lists of a cell yield at most k states (which states, and how many, is `CellStatesMembers` and `CellLength`) |
| StateSpace.LastCellState | main.py:28-36 | the state appended for list number k is the valid state of that cell whose statuses have number k, or nothing when two boxes are carried |
| StateSpace.CellStatesMembers | main.py:23-36 | a cell's lists below k yield exactly the valid states of that cell whose status list has a number below k |
| StateSpace.CellStatesDistinct | main.py:23-36 | a cell yields no state twice |
| StateSpace.CellsMembers | main.py:21-36 | a range of cells yields exactly the valid states whose cell number 10 x + y falls in the range |
| StateSpace.CellsDistinct | main.py:21-36 | a range of cells yields no state twice |
| StateSpace.AllStates | main.py:19-36 | a state is enumerated iff it is on the grid, has statuses in 0..3 with at most one 3, and has the box id of its cell |
| StateSpace.AllStatesDistinct | main.py:19-36 | no state is enumerated twice |
| StateSpace.KeptIsKept | main.py:29-30 | a status list yields a state exactly when at most one of its statuses is 3 |
| StateSpace.CellLength | main.py:23-36 | the first k lists of a cell yield one state per list with at most one box carried |
| StateSpace.KeptAll | main.py:23-30 | of the 4 ^ n status lists, 3 ^ n carry no box and `AtMostOneCarried(n)` carry at most one |
| StateSpace.CellCount | main.py:23-36 | each cell has 3 ^ 5 + 5 * 3 ^ 4 = 648 states |
| StateSpace.CellsLength | main.py:21-36 | the first c cells hold 648 states each |
| StateSpace.CellStep | main.py:23-36 | after list k of a cell, the statuses the loops reached append the state for list k, extending the cell's states to the lists below k + 1 |
| StateSpace.StateCount | main.py:19-36 | the enumeration has 64800 states |
| StateSpace.SuccessorsInStateSpace | main.py:315 | every successor of an enumerated state is enumerated, so the solver's `states.index` lookup always succeeds |
| StateSpace.WarehouseMdp.constructor | main.py:10-17 | a new model holds exactly the enumerated states |
| StateSpace.WarehouseMdp.CalculateAllStates | main.py:19-36 | appends the whole enumeration to `states` |
| StateSpace.WarehouseMdp.AppendColumn | main.py:22-36 | the y loop appends the states of the cells of column x, in order |
| StateSpace.WarehouseMdp.AppendCell | main.py:23-36 | the five status loops append the states of cell (x, y), in list-number order |
| StateSpace.WarehouseMdp.AppendOne | main.py:28-36 | the innermost body appends the state for `[b1, ..., b5]` at (x, y) with its box id, or nothing when two boxes are carried |

## Left out

- `ValueIteration` and `qValue` (main.py:243-324) compute in float32 with numpy. They stop on a
  residual threshold or an iteration cap and time themselves. Only the greedy choice of one
  state is modelled. Its Q-values are exact reals supplied by the caller, one per action and
  absent exactly for the inapplicable actions; their values are not tied to the rewards, and
  the discount factor is not used.
- `PrintState`, `PrintWarehouse`, the commented-out test prints, the module-level driver and
  the unused imports are console output and plumbing.
- Probabilities are whole percentages (5, 10, 80, 90, 100) rather than the floats 0.05 .. 1.
- The linear `states.index` lookup (main.py:315) is modelled as membership in the enumeration.
- The model requires `Shaped` (five statuses, box id in 0..5) wherever the source indexes the
  tuple. Every enumerated state is `Shaped` (`ValidIsShaped`), and the source builds no other
  tuple, so what the code would do on other tuples is not modelled.
- `Transitions.Successors`: an action outside the four kinds gets the empty list, as in the
  source. The model has one such action, the solver's synthetic `End`.
- `StateSpace.WarehouseMdp.AppendCell` runs the five nested status loops as one loop over the
  list numbers 0..1023 rather than as five loops. `LoopsStartAtZero` and
  `LoopsStepInNumberOrder` show that both visit the lists in the same order.
- `StateSpace.WarehouseMdp.constructor`: the source constructor also sets the action list, the
  box origins, the goal cell, the discount and an empty policy. Here those are constants of
  `Warehouse`, or parts of value iteration that are left out.
