/**
 The state space: every tuple (x, y, b1, ..., b5, box id) on the grid with at most one box
 carried, in the order of the enumeration loops (x outermost, then y, then b1 to b5).

 The five status loops run through the status lists in lexicographic order, which is the
 order of their numbers in base 4 (b1 the most significant digit); the specification
 numbers the lists 0 .. Combinations - 1 that way.
 */
module StateSpace {
  import opened Wrappers
  import opened Warehouse
  import opened Transitions

  /** How many status lists there are: 4 ^ BoxCount. */
  const Combinations: nat := 1024

  /** The last `n` base-4 digits of `k`, most significant first: status list number `k`. */
  function Digits(k: nat, n: nat): (ds: seq<int>)
    ensures |ds| == n
    ensures forall i :: 0 <= i < n ==> Unmoved <= ds[i] <= Carried
  {
    if n == 0 then [] else Digits(k / 4, n - 1) + [k % 4]
  }

  /** The state of cell (x, y) with statuses `c`, if it is kept (at most one box carried). */
  function CellState(x: int, y: int, c: seq<int>): seq<State> {
    if Count(c, Carried) > 1 then [] else [State(x, y, c, LocId(x, y))]
  }

  /** The states of cell (x, y) for the status lists numbered below k, in the order of the status loops. */
  function CellStates(x: int, y: int, k: nat): (r: seq<State>)
    ensures |r| <= k
  {
    if k == 0 then [] else CellStates(x, y, k - 1) + CellState(x, y, Digits(k - 1, BoxCount))
  }

  /**
   The states of the cells numbered lo .. hi - 1, in the order of the x and y loops:
   cell number c is (c / 10, c % 10), 10 being Size.
   */
  function Cells(lo: nat, hi: nat): seq<State> {
    if hi <= lo then [] else Cells(lo, hi - 1) + CellStates((hi - 1) / 10, (hi - 1) % 10, Combinations)
  }

  /** The states of the cells (x, 0) .. (x, y - 1) of column x. */
  function ColumnCells(x: nat, y: nat): seq<State> {
    Cells(10 * x, 10 * x + y)
  }

  /**
   The whole state list, as the enumeration builds it: the cells of Size columns. It holds a
   state exactly when the state is valid.
   */
  function AllStates(): (r: seq<State>)
    ensures forall s {:trigger s in r} :: s in r <==> Valid(s)
  {
    assert forall s :: s in Cells(0, 10 * Size) <==> Valid(s) by {
      forall s: State ensures s in Cells(0, 10 * Size) <==> Valid(s) {
        CellsMembers(0, 10 * Size, s);
      }
    }
    Cells(0, 10 * Size)
  }

  lemma AppendAssoc<T>(a: seq<T>, b: seq<T>, c: seq<T>)
    ensures a + b + c == a + (b + c)
  {
  }

  /** Cells lo .. mid - 1 followed by cells mid .. hi - 1 are cells lo .. hi - 1. */
  lemma {:induction false} CellsSplit(lo: nat, mid: nat, hi: nat)
    requires lo <= mid <= hi
    ensures Cells(lo, mid) + Cells(mid, hi) == Cells(lo, hi)
    decreases hi
  {
    if mid < hi {
      var last := CellStates((hi - 1) / 10, (hi - 1) % 10, Combinations);
      CellsSplit(lo, mid, hi - 1);
      assert Cells(mid, hi) == Cells(mid, hi - 1) + last;
      assert Cells(lo, hi) == Cells(lo, hi - 1) + last;
      AppendAssoc(Cells(lo, mid), Cells(mid, hi - 1), last);
    }
  }

  /** A list that holds cells lo .. mid - 1 after `a` holds cells lo .. hi - 1 once cells mid .. hi - 1 are added. */
  lemma Extend(pre: seq<State>, a: seq<State>, lo: nat, mid: nat, hi: nat)
    requires lo <= mid <= hi && pre == a + Cells(lo, mid)
    ensures pre + Cells(mid, hi) == a + Cells(lo, hi)
  {
    CellsSplit(lo, mid, hi);
    AppendAssoc(a, Cells(lo, mid), Cells(mid, hi));
  }

  /** Cell number 10 x + y is cell (x, y); the cells up to it are followed by its states. */
  lemma CellsNext(lo: nat, x: nat, y: nat)
    requires lo <= 10 * x + y && y < 10
    ensures Cells(lo, 10 * x + (y + 1)) == Cells(lo, 10 * x + y) + CellStates(x, y, Combinations)
  {
    var c := 10 * x + y;
    assert c / 10 == x && c % 10 == y;
  }

  /** The list after column x: the columns before x, then column x, make the columns up to x + 1. */
  lemma ColumnDone(post: seq<State>, pre: seq<State>, a: seq<State>, x: nat)
    requires pre == a + Cells(0, 10 * x)
    requires post == pre + ColumnCells(x, Size)
    ensures post == a + Cells(0, 10 * (x + 1))
  {
    Extend(pre, a, 0, 10 * x, 10 * (x + 1));
  }

  /** The list after cell (x, y): column x's cells before (x, y), then the states of (x, y), make its cells up to (x, y + 1). */
  lemma ColumnStep(post: seq<State>, pre: seq<State>, a: seq<State>, x: nat, y: nat)
    requires y < Size && pre == a + ColumnCells(x, y)
    requires post == pre + CellStates(x, y, Combinations)
    ensures post == a + ColumnCells(x, y + 1)
  {
    CellsNext(10 * x, x, y);
    AppendAssoc(a, Cells(10 * x, 10 * x + y), CellStates(x, y, Combinations));
  }

  /**
   The list after status list k of cell (x, y): the cell's states for the lists below k,
   then the state, if kept, for the statuses b1 .. b5 the loops have reached at k.
   */
  lemma CellStep(post: seq<State>, pre: seq<State>, a: seq<State>, x: int, y: int, k: nat,
                 b1: int, b2: int, b3: int, b4: int, b5: int)
    requires k < Combinations && pre == a + CellStates(x, y, k)
    requires b1 == k / 256 && b2 == k / 64 % 4 && b3 == k / 16 % 4 && b4 == k / 4 % 4 && b5 == k % 4
    requires post == pre + CellState(x, y, [b1, b2, b3, b4, b5])
    ensures post == a + CellStates(x, y, k + 1)
  {
    DigitsOfNumber(k);
    AppendAssoc(a, CellStates(x, y, k), CellState(x, y, Digits(k, BoxCount)));
  }

  /** Appending a last digit `r`: number 4 q + r has the digits of q followed by r. */
  lemma DigitsAppend(q: nat, r: int, n: nat)
    requires 0 <= r < 4
    ensures Digits(4 * q + r, n + 1) == Digits(q, n) + [r]
  {
  }

  /** The number the five status loops have reached is the number of their status list. */
  lemma DigitsOfLoops(b1: int, b2: int, b3: int, b4: int, b5: int)
    requires 0 <= b1 < 4 && 0 <= b2 < 4 && 0 <= b3 < 4 && 0 <= b4 < 4 && 0 <= b5 < 4
    ensures Digits(4 * (4 * (4 * (4 * b1 + b2) + b3) + b4) + b5, BoxCount) == [b1, b2, b3, b4, b5]
  {
    DigitsAppend(0, b1, 0);
    DigitsAppend(b1, b2, 1);
    DigitsAppend(4 * b1 + b2, b3, 2);
    DigitsAppend(4 * (4 * b1 + b2) + b3, b4, 3);
    DigitsAppend(4 * (4 * (4 * b1 + b2) + b3) + b4, b5, 4);
    StatusList(b1, b2, b3, b4, b5);
  }

  /**
   The statuses the nested loops reach after `bs`: the innermost loop still below 3 steps up
   and the loops inside it restart at 0 (after all 3s every loop has restarted).
   */
  function NextInLoops(bs: seq<int>): (r: seq<int>)
    ensures |r| == |bs|
  {
    if bs == [] then []
    else if bs[|bs| - 1] < 3 then bs[..|bs| - 1] + [bs[|bs| - 1] + 1]
    else NextInLoops(bs[..|bs| - 1]) + [0]
  }

  /** The loops start at list number 0: every status 0. */
  lemma {:induction false} LoopsStartAtZero(n: nat)
    ensures forall i :: 0 <= i < n ==> Digits(0, n)[i] == 0
  {
    if n > 0 {
      LoopsStartAtZero(n - 1);
      assert Digits(0, n) == Digits(0, n - 1) + [0];
    }
  }

  /** One step of the nested loops is one step of the list number: they visit the lists in number order. */
  lemma {:induction false} LoopsStepInNumberOrder(k: nat, n: nat)
    ensures Digits(k + 1, n) == NextInLoops(Digits(k, n))
  {
    if n > 0 {
      var ds := Digits(k, n);
      assert ds[..n - 1] == Digits(k / 4, n - 1) && ds[n - 1] == k % 4;
      if k % 4 == 3 {
        LoopsStepInNumberOrder(k / 4, n - 1);
        assert (k + 1) / 4 == k / 4 + 1 && (k + 1) % 4 == 0;
      } else {
        assert (k + 1) / 4 == k / 4 && (k + 1) % 4 == k % 4 + 1;
      }
    }
  }

  lemma StatusList(b1: int, b2: int, b3: int, b4: int, b5: int)
    ensures [] + [b1] + [b2] + [b3] + [b4] + [b5] == [b1, b2, b3, b4, b5]
  {
  }

  /** The digits of a number below Combinations, by division. */
  lemma DigitsOfNumber(k: nat)
    requires k < Combinations
    ensures Digits(k, BoxCount) == [k / 256, k / 64 % 4, k / 16 % 4, k / 4 % 4, k % 4]
  {
    var q1, q2, q3, q4 := k / 4, k / 16, k / 64, k / 256;
    assert q1 / 4 == q2 && q2 / 4 == q3 && q3 / 4 == q4;
    DigitsAppend(q1, k % 4, 4);
    DigitsAppend(q2, q1 % 4, 3);
    DigitsAppend(q3, q2 % 4, 2);
    DigitsAppend(q4, q3 % 4, 1);
    DigitsAppend(0, q4, 0);
  }

  /** The number of a status list in the enumeration order: its value in base 4, first status most significant. */
  function Code(bs: seq<int>): int {
    if bs == [] then 0 else 4 * Code(bs[..|bs| - 1]) + bs[|bs| - 1]
  }

  /** 4 ^ n, the number of status lists of length n. */
  function Pow4(n: nat): (p: nat)
    ensures p >= 1
  {
    if n == 0 then 1 else 4 * Pow4(n - 1)
  }

  /** 3 ^ n, the number of status lists of length n with no box carried. */
  function Pow3(n: nat): (p: nat)
    ensures p >= 1
  {
    if n == 0 then 1 else 3 * Pow3(n - 1)
  }

  /** Every status list has a number below 4 ^ length, and that number's digits are the list. */
  lemma {:induction false} DigitsCode(bs: seq<int>)
    requires forall i :: 0 <= i < |bs| ==> Unmoved <= bs[i] <= Carried
    ensures 0 <= Code(bs) < Pow4(|bs|)
    ensures Digits(Code(bs), |bs|) == bs
  {
    if bs != [] {
      var init := bs[..|bs| - 1];
      DigitsCode(init);
      DigitsAppend(Code(init), bs[|bs| - 1], |init|);
      assert init + [bs[|bs| - 1]] == bs;
    }
  }

  /** Different numbers below 4 ^ n have different digit lists: the number is read back from them. */
  lemma {:induction false} CodeDigits(k: nat, n: nat)
    requires k < Pow4(n)
    ensures Code(Digits(k, n)) == k
  {
    if n > 0 {
      CodeDigits(k / 4, n - 1);
      var ds := Digits(k, n);
      assert ds[..n - 1] == Digits(k / 4, n - 1);
    }
  }

  lemma CombinationsIsPower()
    ensures Pow4(BoxCount) == Combinations
  {
    assert Pow4(5) == 1024;
  }

  /** The state appended for list number k is the valid state of the cell whose statuses have number k. */
  lemma LastCellState(x: int, y: int, k: nat, s: State)
    requires k < Combinations
    ensures s in CellState(x, y, Digits(k, BoxCount)) <==>
      s.x == x && s.y == y && ValidStatuses(s.boxes) && s.locId == LocId(x, y) && Code(s.boxes) == k
  {
    var d := Digits(k, BoxCount);
    CombinationsIsPower();
    CodeDigits(k, BoxCount);
    if s in CellState(x, y, d) {
      assert s.boxes == d;
    }
    if s.x == x && s.y == y && ValidStatuses(s.boxes) && s.locId == LocId(x, y) && Code(s.boxes) == k {
      DigitsCode(s.boxes);
      assert s.boxes == d;
      assert s == State(x, y, d, LocId(x, y));
    }
  }

  /** Two lists without a common element and without repeats concatenate without repeats. */
  lemma DistinctAppend<T>(a: seq<T>, b: seq<T>)
    requires Distinct(a) && Distinct(b)
    requires forall i :: 0 <= i < |a| ==> a[i] !in b
    ensures Distinct(a + b)
  {
    forall i, j | 0 <= i < j < |a + b|
      ensures (a + b)[i] != (a + b)[j]
    {
      if i < |a| && |a| <= j {
        assert (a + b)[i] == a[i];
        assert (a + b)[j] in b;
      }
    }
  }

  predicate Distinct<T(==)>(s: seq<T>) {
    forall i, j :: 0 <= i < j < |s| ==> s[i] != s[j]
  }

  /** The states of cell (x, y) for lists below k are its valid states whose status list has a number below k. */
  lemma {:induction false} CellStatesMembers(x: int, y: int, k: nat, s: State)
    requires k <= Combinations
    ensures s in CellStates(x, y, k) <==>
      s.x == x && s.y == y && ValidStatuses(s.boxes) && s.locId == LocId(x, y) && Code(s.boxes) < k
  {
    if k > 0 {
      CellStatesMembers(x, y, k - 1, s);
      LastCellState(x, y, k - 1, s);
      assert CellStates(x, y, k) == CellStates(x, y, k - 1) + CellState(x, y, Digits(k - 1, BoxCount));
    } else if ValidStatuses(s.boxes) {
      DigitsCode(s.boxes);
    }
  }

  /** No state of cell (x, y) for the lists below k is the state for list k. */
  lemma CellStatesBeforeLast(x: int, y: int, k: nat)
    requires k < Combinations
    ensures forall i :: 0 <= i < |CellStates(x, y, k)| ==> CellStates(x, y, k)[i] !in CellState(x, y, Digits(k, BoxCount))
  {
    var before := CellStates(x, y, k);
    forall i | 0 <= i < |before|
      ensures before[i] !in CellState(x, y, Digits(k, BoxCount))
    {
      CellStatesMembers(x, y, k, before[i]);
      LastCellState(x, y, k, before[i]);
    }
  }

  /** A cell's states are all different: their status lists have different numbers. */
  lemma {:induction false} CellStatesDistinct(x: int, y: int, k: nat)
    requires k <= Combinations
    ensures Distinct(CellStates(x, y, k))
  {
    if k > 0 {
      CellStatesDistinct(x, y, k - 1);
      CellStatesBeforeLast(x, y, k - 1);
      var before, last := CellStates(x, y, k - 1), CellState(x, y, Digits(k - 1, BoxCount));
      assert CellStates(x, y, k) == before + last;
      DistinctAppend(before, last);
    }
  }

  /** Cells lo .. hi - 1 hold exactly the valid states whose cell number 10 x + y is in that range. */
  lemma {:induction false} CellsMembers(lo: nat, hi: nat, s: State)
    requires hi <= 10 * Size
    ensures s in Cells(lo, hi) <==> Valid(s) && lo <= 10 * s.x + s.y < hi
    decreases hi
  {
    if lo < hi {
      var c := hi - 1;
      CellsMembers(lo, c, s);
      CellStatesMembers(c / 10, c % 10, Combinations, s);
      assert Cells(lo, hi) == Cells(lo, c) + CellStates(c / 10, c % 10, Combinations);
      if Valid(s) {
        DigitsCode(s.boxes);
        CombinationsIsPower();
        if 10 * s.x + s.y == c {
          assert c / 10 == s.x && c % 10 == s.y;
        }
      }
    }
  }

  /** Cells lo .. hi - 1 hold no state twice. */
  lemma {:induction false} CellsDistinct(lo: nat, hi: nat)
    requires hi <= 10 * Size
    ensures Distinct(Cells(lo, hi))
    decreases hi
  {
    if lo < hi {
      var c := hi - 1;
      CellsDistinct(lo, c);
      CellStatesDistinct(c / 10, c % 10, Combinations);
      var before, last := Cells(lo, c), CellStates(c / 10, c % 10, Combinations);
      assert Cells(lo, hi) == before + last;
      forall i | 0 <= i < |before|
        ensures before[i] !in last
      {
        CellsMembers(lo, c, before[i]);
        CellStatesMembers(c / 10, c % 10, Combinations, before[i]);
      }
      DistinctAppend(before, last);
    }
  }

  /** The enumeration holds no state twice. */
  lemma AllStatesDistinct()
    ensures Distinct(AllStates())
  {
    CellsDistinct(0, 10 * Size);
  }

  /** Appending status `r` to a list adds one to its count of `r`. */
  lemma CountAppend(bs: seq<int>, r: int, v: int)
    ensures Count(bs + [r], v) == Count(bs, v) + (if r == v then 1 else 0)
  {
    assert (bs + [r])[..|bs|] == bs;
  }

  /** How many of the status lists with `n` statuses numbered below `k` carry at most `c` boxes. */
  function KeptCount(k: nat, n: nat, c: int): nat {
    if k == 0 then 0 else KeptCount(k - 1, n, c) + (if Carries(k - 1, n) <= c then 1 else 0)
  }

  /** How many of the last `n` base-4 digits of `k` are 3: boxes carried in status list number `k`. */
  function Carries(k: nat, n: nat): nat {
    if n == 0 then 0 else Carries(k / 4, n - 1) + (if k % 4 == Carried then 1 else 0)
  }

  lemma {:induction false} CarriesCounts(k: nat, n: nat)
    ensures Carries(k, n) == Count(Digits(k, n), Carried)
  {
    if n > 0 {
      CarriesCounts(k / 4, n - 1);
      CountAppend(Digits(k / 4, n - 1), k % 4, Carried);
    }
  }

  /** List number 4 q + r with n + 1 statuses is list q with status r appended. */
  lemma KeptOne(q: nat, r: int, n: nat, c: int)
    requires 0 <= r < 4
    ensures var kept := Carries(q, n) + (if r == Carried then 1 else 0);
      KeptCount(4 * q + r + 1, n + 1, c) == KeptCount(4 * q + r, n + 1, c) + (if kept <= c then 1 else 0)
  {
    assert (4 * q + r) / 4 == q && (4 * q + r) % 4 == r;
  }

  /** Of the four lists after number 4 q, three keep list q's carried count and one adds one to it. */
  lemma KeptStep(q: nat, n: nat, c: int)
    ensures var kept := Carries(q, n);
      KeptCount(4 * q + 4, n + 1, c) == KeptCount(4 * q, n + 1, c)
        + 3 * (if kept <= c then 1 else 0) + (if kept + 1 <= c then 1 else 0)
  {
    KeptOne(q, 0, n, c);
    KeptOne(q, 1, n, c);
    KeptOne(q, 2, n, c);
    KeptOne(q, 3, n, c);
  }

  /**
   Lists numbered below 4 q with n + 1 statuses are those below q with one more status:
   three of the four last statuses leave the carried count as it was, the fourth adds one.
   */
  lemma {:induction false} KeptBlocks(q: nat, n: nat, c: int)
    ensures KeptCount(4 * q, n + 1, c) == 3 * KeptCount(q, n, c) + KeptCount(q, n, c - 1)
  {
    if q > 0 {
      KeptBlocks(q - 1, n, c);
      KeptStep(q - 1, n, c);
    }
  }

  /** No list carries fewer than zero boxes. */
  lemma {:induction false} KeptNone(k: nat, n: nat)
    ensures KeptCount(k, n, -1) == 0
  {
    if k > 0 {
      KeptNone(k - 1, n);
    }
  }

  /** Status lists of length n with at most one box carried: none carried in the last place, or the last carried and no other. */
  function AtMostOneCarried(n: nat): nat {
    if n == 0 then 1 else 3 * AtMostOneCarried(n - 1) + Pow3(n - 1)
  }

  /** Of the 4 ^ n status lists of length n, 3 ^ n carry no box and AtMostOneCarried(n) at most one. */
  lemma {:induction false} KeptAll(n: nat)
    ensures KeptCount(Pow4(n), n, 0) == Pow3(n)
    ensures KeptCount(Pow4(n), n, 1) == AtMostOneCarried(n)
  {
    if n == 0 {
      assert KeptCount(1, 0, 0) == KeptCount(0, 0, 0) + 1;
      assert KeptCount(1, 0, 1) == KeptCount(0, 0, 1) + 1;
    } else {
      KeptAll(n - 1);
      KeptAllStep(n - 1);
    }
  }

  lemma KeptAllStep(m: nat)
    ensures KeptCount(Pow4(m + 1), m + 1, 0) == 3 * KeptCount(Pow4(m), m, 0)
    ensures KeptCount(Pow4(m + 1), m + 1, 1) == 3 * KeptCount(Pow4(m), m, 1) + KeptCount(Pow4(m), m, 0)
  {
    var q := Pow4(m);
    assert Pow4(m + 1) == 4 * q;
    KeptBlocks(q, m, 0);
    KeptBlocks(q, m, 1);
    KeptNone(q, m);
  }

  /** Cell (x, y) has one state for each kept status list numbered below k. */
  lemma {:induction false} CellLength(x: int, y: int, k: nat)
    ensures |CellStates(x, y, k)| == KeptCount(k, BoxCount, 1)
  {
    if k > 0 {
      CellLength(x, y, k - 1);
      KeptIsKept(x, y, k - 1);
    }
  }

  /** Status list number k yields a state exactly when it carries at most one box. */
  lemma KeptIsKept(x: int, y: int, k: nat)
    ensures |CellState(x, y, Digits(k, BoxCount))| == if Carries(k, BoxCount) <= 1 then 1 else 0
  {
    CarriesCounts(k, BoxCount);
  }

  /** Each cell has 3 ^ 5 + 5 * 3 ^ 4 = 648 states: all five statuses in 0..2, or one of them 3. */
  lemma CellCount(x: int, y: int)
    ensures |CellStates(x, y, Combinations)| == 648
  {
    CellLength(x, y, Combinations);
    CombinationsIsPower();
    KeptAll(BoxCount);
    assert AtMostOneCarried(5) == 648;
  }

  /** The first c cells hold 648 states each. */
  lemma {:induction false} CellsLength(c: nat)
    ensures |Cells(0, c)| == 648 * c
  {
    if c > 0 {
      CellsLength(c - 1);
      CellCount((c - 1) / 10, (c - 1) % 10);
    }
  }

  /** The enumeration has 100 cells of 648 states: 64800 states. */
  lemma StateCount()
    ensures |AllStates()| == 64800
  {
    CellsLength(10 * Size);
  }

  /**
   Closure: every successor of a state of the state space is again in the state space, so
   looking a successor up in the state list always finds it.
   */
  lemma SuccessorsInStateSpace(s: State, a: Action)
    requires s in AllStates()
    ensures Shaped(s)
    ensures Successors(s, a).Some? ==> forall o :: o in Successors(s, a).value ==> o.next in AllStates()
  {
    SuccessorsStayValid(s, a);
  }

  /**
   The state space of the MDP. The source class also holds the action list, the box
   origins, the goal cell and the discount; here those are the constants of `Warehouse`.
   */
  class WarehouseMdp {
    var states: seq<State>

    constructor()
      ensures states == AllStates()
    {
      new;
      states := [];
      CalculateAllStates();
    }

    /** Appends every valid state in enumeration order, skipping status lists with two or more boxes carried. */
    method CalculateAllStates()
      modifies this
      ensures states == old(states) + AllStates()
    {
      for x := 0 to Size
        invariant states == old(states) + Cells(0, 10 * x)
      {
        ghost var pre := states;
        AppendColumn(x);
        ColumnDone(states, pre, old(states), x);
      }
    }

    /** The y loop for column x. */
    method AppendColumn(x: nat)
      modifies this
      ensures states == old(states) + ColumnCells(x, Size)
    {
      for y := 0 to Size
        invariant states == old(states) + ColumnCells(x, y)
      {
        ghost var pre := states;
        AppendCell(x, y);
        ColumnStep(states, pre, old(states), x, y);
      }
    }

    /** The five status loops for cell (x, y), run as one count through the status list numbers. */
    method AppendCell(x: nat, y: nat)
      modifies this
      ensures states == old(states) + CellStates(x, y, Combinations)
    {
      for k := 0 to Combinations
        invariant states == old(states) + CellStates(x, y, k)
      {
        var b1, b2, b3, b4, b5 := k / 256, k / 64 % 4, k / 16 % 4, k / 4 % 4, k % 4;
        ghost var pre := states;
        AppendOne(x, y, b1, b2, b3, b4, b5);
        CellStep(states, pre, old(states), x, y, k, b1, b2, b3, b4, b5);
      }
    }

    /** The innermost loop body: append the state for statuses b1..b5 at (x, y) unless two boxes are carried. */
    method AppendOne(x: int, y: int, b1: int, b2: int, b3: int, b4: int, b5: int)
      modifies this
      ensures states == old(states) + CellState(x, y, [b1, b2, b3, b4, b5])
    {
      // Skip adding the state if several boxes are carried
      if Count([b1, b2, b3, b4, b5], Carried) > 1 {
        return;
      }
      // the box id of the cell, from the box origins
      LocIdMeaning(x, y);
      if (x, y) !in BoxOrigins {
        states := states + [State(x, y, [b1, b2, b3, b4, b5], 0)];
      } else {
        states := states + [State(x, y, [b1, b2, b3, b4, b5], IndexOf(BoxOrigins, (x, y)) + 1)];
      }
    }
  }
}
