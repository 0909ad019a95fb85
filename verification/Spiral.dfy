/** The spiral fill of 11_arrays/ex04.c over a square of any side: four directed loops a ring, each of
    which starts on the corner that the previous one ended on. */
module Spiral {

  datatype Cell = Cell(row: int, col: int)

  predicate InSquare(t: nat, c: Cell) {
    0 <= c.row < t && 0 <= c.col < t
  }

  predicate Adjacent(a: Cell, b: Cell) {
    || (a.row == b.row && (a.col == b.col + 1 || b.col == a.col + 1))
    || (a.col == b.col && (a.row == b.row + 1 || b.row == a.row + 1))
  }

  function Min(a: int, b: int): int {
    if a < b then a else b
  }

  /** The ring of a cell: its distance from the border. */
  function Ring(t: nat, c: Cell): int {
    Min(Min(c.row, c.col), Min(t - 1 - c.row, t - 1 - c.col))
  }

  /** The number of steps along one side of ring `d`. */
  function Side(t: nat, d: int): int {
    t - 1 - 2 * d
  }

  /** The first value of ring `d`: the number of cells outside it. */
  function Base(t: nat, d: int): int {
    4 * (d * (t - d))
  }

  /** How far along its ring a cell is: along the top, down the right, back along the bottom, up the left. */
  function Offset(t: nat, c: Cell): int {
    var d := Ring(t, c);
    if c.row == d then c.col - d
    else if c.col == t - 1 - d then Side(t, d) + (c.row - d)
    else if c.row == t - 1 - d then 2 * Side(t, d) + (t - 1 - d - c.col)
    else 3 * Side(t, d) + (t - 1 - d - c.row)
  }

  /** The number that the spiral puts in a cell. */
  function Value(t: nat, c: Cell): int {
    Base(t, Ring(t, c)) + Offset(t, c)
  }

  // ---------------------------------------------------------------------------------------------
  // The spiral is a bijection along adjacent cells
  // ---------------------------------------------------------------------------------------------

  lemma BaseNext(t: nat, d: int)
    ensures Base(t, d + 1) == Base(t, d) + 4 * Side(t, d)
  {
    assert (d + 1) * (t - (d + 1)) == d * (t - d) + Side(t, d);
  }

  lemma {:induction false} BaseMonotone(t: nat, d: int, e: int)
    requires d <= e && 2 * e <= t + 1
    ensures Base(t, d) <= Base(t, e)
    decreases e - d
  {
    if d == e {
    } else {
      BaseMonotone(t, d, e - 1);
      BaseNext(t, e - 1);
    }
  }

  lemma BaseBelowSquare(t: nat, d: int)
    ensures t * t - Base(t, d) == (t - 2 * d) * (t - 2 * d) >= 0
  {
    var x := t - 2 * d;
    assert x * x >= 0;
    assert x * x == t * t - 4 * (d * t) + 4 * (d * d);
    assert d * (t - d) == d * t - d * d;
  }

  /** The values of a ring end where those of the next begin; the centre of an odd square is one cell. */
  lemma ValueInRing(t: nat, c: Cell)
    requires InSquare(t, c)
    ensures var d := Ring(t, c);
            && 0 <= Side(t, d)
            && Base(t, d) <= Value(t, c)
            && (Side(t, d) > 0 ==> Value(t, c) < Base(t, d + 1))
            && (Side(t, d) == 0 ==> Value(t, c) == Base(t, d))
  {
    BaseNext(t, Ring(t, c));
  }

  lemma ValueInRange(t: nat, c: Cell)
    requires InSquare(t, c)
    ensures 0 <= Value(t, c) < t * t
  {
    var d := Ring(t, c);
    ValueInRing(t, c);
    BaseBelowSquare(t, d);
    BaseBelowSquare(t, d + 1);
    BaseMonotone(t, 0, d);
  }

  lemma RingOrder(t: nat, a: Cell, b: Cell)
    requires InSquare(t, a) && InSquare(t, b) && Ring(t, a) < Ring(t, b)
    ensures Value(t, a) < Value(t, b)
  {
    ValueInRing(t, a);
    ValueInRing(t, b);
    BaseMonotone(t, Ring(t, a) + 1, Ring(t, b));
  }

  /** No number is put in two cells. */
  lemma ValueInjective(t: nat, a: Cell, b: Cell)
    requires InSquare(t, a) && InSquare(t, b) && Value(t, a) == Value(t, b)
    ensures a == b
  {
    if Ring(t, a) < Ring(t, b) {
      RingOrder(t, a, b);
    } else if Ring(t, b) < Ring(t, a) {
      RingOrder(t, b, a);
    }
  }

  /** The cell one step further along the spiral. */
  function Next(t: nat, c: Cell): Cell {
    var d := Ring(t, c);
    if c.row == d && c.col < t - 1 - d then Cell(c.row, c.col + 1)
    else if c.col == t - 1 - d && c.row < t - 1 - d then Cell(c.row + 1, c.col)
    else if c.row == t - 1 - d && c.col > d then Cell(c.row, c.col - 1)
    else if c.row > d + 1 then Cell(c.row - 1, c.col)
    else Cell(c.row, c.col + 1)
  }

  lemma NextValue(t: nat, c: Cell)
    requires InSquare(t, c) && Value(t, c) + 1 < t * t
    ensures InSquare(t, Next(t, c)) && Adjacent(c, Next(t, c)) && Value(t, Next(t, c)) == Value(t, c) + 1
  {
    var d := Ring(t, c);
    BaseNext(t, d);
    BaseBelowSquare(t, d);
    BaseBelowSquare(t, d + 1);
    if Side(t, d) > 0 && c.col == d && c.row == d + 1 {
      LastOfRing(t, c);
    }
  }

  lemma LastOfRing(t: nat, c: Cell)
    requires InSquare(t, c) && c.col == Ring(t, c) && c.row == c.col + 1 && Side(t, c.col) > 0
    requires Value(t, c) + 1 < t * t
    ensures Ring(t, Next(t, c)) == c.col + 1 && InSquare(t, Next(t, c))
  {
    BaseNext(t, c.col);
    BaseBelowSquare(t, c.col + 1);
  }

  /** Consecutive numbers lie in orthogonally adjacent cells. */
  lemma ConsecutiveAdjacent(t: nat, a: Cell, b: Cell)
    requires InSquare(t, a) && InSquare(t, b) && Value(t, b) == Value(t, a) + 1
    ensures Adjacent(a, b)
  {
    ValueInRange(t, b);
    NextValue(t, a);
    ValueInjective(t, b, Next(t, a));
  }

  /** The cell of a number: that many steps from the corner. */
  function CellOf(t: nat, v: nat): Cell {
    if v == 0 then Cell(0, 0) else Next(t, CellOf(t, v - 1))
  }

  /** Every number below t*t has a cell, and it is the inverse of `Value`. */
  lemma {:induction false} CellOfValue(t: nat, v: nat)
    requires v < t * t
    ensures InSquare(t, CellOf(t, v)) && Value(t, CellOf(t, v)) == v
  {
    if v == 0 {
      assert t >= 1;
    } else {
      CellOfValue(t, v - 1);
      NextValue(t, CellOf(t, v - 1));
    }
  }

  lemma ValueOfCellOf(t: nat, c: Cell)
    requires InSquare(t, c)
    ensures Value(t, c) >= 0 && CellOf(t, Value(t, c)) == c
  {
    ValueInRange(t, c);
    CellOfValue(t, Value(t, c));
    ValueInjective(t, c, CellOf(t, Value(t, c)));
  }

  // ---------------------------------------------------------------------------------------------
  // The fill
  // ---------------------------------------------------------------------------------------------

  /** Every number below `top` is in its cell. */
  ghost predicate FilledBelow(arr: array2<int>, t: nat, top: int)
    reads arr
  {
    && arr.Length0 == t && arr.Length1 == t
    && forall r, c :: 0 <= r < t && 0 <= c < t && Value(t, Cell(r, c)) < top ==> arr[r, c] == Value(t, Cell(r, c))
  }

  /** One assignment of the fill: a new number, or again the number that the cell already holds. */
  method Put(arr: array2<int>, t: nat, row: int, col: int, cnt: int, ghost top: int)
    requires FilledBelow(arr, t, top) && InSquare(t, Cell(row, col))
    requires cnt == Value(t, Cell(row, col)) <= top
    modifies arr
    ensures FilledBelow(arr, t, if cnt == top then top + 1 else top)
    ensures cnt < top ==> forall r, c :: 0 <= r < t && 0 <= c < t ==> arr[r, c] == old(arr[r, c])
  {
    arr[row, col] := cnt;
    forall r, c | 0 <= r < t && 0 <= c < t && Value(t, Cell(r, c)) == cnt ensures r == row && c == col {
      ValueInjective(t, Cell(r, c), Cell(row, col));
    }
  }

  /** The numbers along the four sides of ring `d`. */
  lemma SideValues(t: nat, d: nat, i: int)
    requires d <= i <= t - 1 - d
    ensures Value(t, Cell(d, i)) == Base(t, d) + (i - d)
    ensures Value(t, Cell(i, t - 1 - d)) == Base(t, d) + Side(t, d) + (i - d)
    ensures Value(t, Cell(t - 1 - d, i)) == Base(t, d) + 2 * Side(t, d) + (t - 1 - d - i)
    ensures i > d ==> Value(t, Cell(i, d)) == Base(t, d) + 3 * Side(t, d) + (t - 1 - d - i)
  {
  }

  /** The first two loops of one iteration: along the top and down the right. */
  method FillTopAndRight(arr: array2<int>, t: nat, step: nat, start: int, ghost top0: int)
    returns (cnt: int, ghost top: int)
    requires 2 * step <= t && FilledBelow(arr, t, top0) && start == top0 == Base(t, step)
    modifies arr
    ensures FilledBelow(arr, t, top) && cnt == Base(t, step) + 2 * Side(t, step)
    ensures top == if Side(t, step) < 0 then top0 else cnt + 1
  {
    cnt, top := start, top0;
    var i := step;
    while i < t - step
      invariant step <= i <= t - step
      invariant FilledBelow(arr, t, top)
      invariant cnt == top == Base(t, step) + (i - step)
    {
      SideValues(t, step, i);
      Put(arr, t, step, i, cnt, top);
      cnt, top := cnt + 1, top + 1;
      i := i + 1;
    }
    cnt := cnt - 1;
    i := step;
    while i < t - step
      invariant step <= i <= t - step
      invariant FilledBelow(arr, t, top)
      invariant cnt == Base(t, step) + Side(t, step) + (i - step)
      invariant top == if Side(t, step) < 0 then top0 else if i == step then cnt + 1 else cnt
    {
      SideValues(t, step, i);
      Put(arr, t, i, t - 1 - step, cnt, top);
      cnt, top := cnt + 1, if cnt == top then top + 1 else top;
      i := i + 1;
    }
    cnt := cnt - 1;
  }

  /** The last two loops of one iteration: back along the bottom and up the left. */
  method FillBottomAndLeft(arr: array2<int>, t: nat, step: nat, start: int, ghost top0: int)
    returns (cnt: int, ghost top: int)
    requires 2 * step <= t && FilledBelow(arr, t, top0) && start == Base(t, step) + 2 * Side(t, step)
    requires Side(t, step) >= 0 ==> top0 == start + 1
    modifies arr
    ensures FilledBelow(arr, t, top)
    ensures Side(t, step) < 0 ==> top == top0
    ensures Side(t, step) == 0 ==> top == Base(t, step) + 1
    ensures Side(t, step) > 0 ==> cnt == top == Base(t, step) + 4 * Side(t, step)
  {
    cnt, top := start, top0;
    var i := t - 1 - step;
    while i >= step
      invariant step - 1 <= i <= t - 1 - step
      invariant FilledBelow(arr, t, top)
      invariant cnt == Base(t, step) + 2 * Side(t, step) + (t - 1 - step - i)
      invariant top == if Side(t, step) < 0 then top0 else if i == t - 1 - step then cnt + 1 else cnt
    {
      SideValues(t, step, i);
      Put(arr, t, t - 1 - step, i, cnt, top);
      cnt, top := cnt + 1, if cnt == top then top + 1 else top;
      i := i - 1;
    }
    cnt := cnt - 1;
    i := t - 1 - step;
    while i > step
      invariant i <= t - 1 - step && (Side(t, step) >= 0 ==> step <= i)
      invariant FilledBelow(arr, t, top)
      invariant cnt == Base(t, step) + 3 * Side(t, step) + (t - 1 - step - i)
      invariant top == if Side(t, step) < 0 then top0 else if i == t - 1 - step then cnt + 1 else cnt
    {
      SideValues(t, step, i);
      Put(arr, t, i, step, cnt, top);
      cnt, top := cnt + 1, if cnt == top then top + 1 else top;
      i := i - 1;
    }
  }

  /** Where the next ring begins, and what the innermost one completes. */
  lemma RingFilled(t: nat, step: nat)
    ensures Base(t, step + 1) == Base(t, step) + 4 * Side(t, step)
    ensures 2 * step == t ==> Base(t, step) == t * t
    ensures 2 * step + 1 == t ==> Base(t, step) + 1 == t * t
  {
    BaseNext(t, step);
    BaseBelowSquare(t, step);
  }

  /** The loop of `main` over the rings, for a side of `t`. */
  method Fill(t: nat) returns (arr: array2<int>)
    requires t >= 1
    ensures arr.Length0 == t && arr.Length1 == t
    ensures forall r, c :: 0 <= r < t && 0 <= c < t ==> arr[r, c] == Value(t, Cell(r, c))
  {
    arr := new int[t, t];
    var cnt := 0;
    ghost var top := 0;
    ValuesFromZero(t);
    assert Base(t, 0) == 0;
    hide Base, Value;
    for step := 0 to t / 2 + 1
      invariant FilledBelow(arr, t, top)
      invariant if 2 * step <= t then cnt == top == Base(t, step) else top == t * t
    {
      cnt, top := FillTopAndRight(arr, t, step, cnt, top);
      cnt, top := FillBottomAndLeft(arr, t, step, cnt, top);
      RingFilled(t, step);
    }
    forall r, c | 0 <= r < t && 0 <= c < t ensures Value(t, Cell(r, c)) < top {
      ValueInRange(t, Cell(r, c));
    }
  }

  lemma ValuesFromZero(t: nat)
    ensures forall r, c :: 0 <= r < t && 0 <= c < t ==> Value(t, Cell(r, c)) >= 0
  {
    forall r, c | 0 <= r < t && 0 <= c < t ensures Value(t, Cell(r, c)) >= 0 {
      ValueInRange(t, Cell(r, c));
    }
  }
}
