/**
 * The per-cell layers of a pushing-puzzle board (utils.py, class PushPosition)
 * and the one-cell update that the reachability pass performs when it arrives
 * at a neighbouring cell (append_square).
 *
 * The source keeps the board as a size x size x 12 integer tensor. Here one
 * cell's twelve layers are a `Cell` value; the board itself is an array of
 * cells owned by the class in module Position.
 */
module Grid {

  datatype Option<T> = None | Some(value: T)

  /** Side length of every board (the module-level `size` of the source). */
  const Size: int := 20

  /** The four push directions: 0 = up (x-1), 1 = right (y+1), 2 = down (x+1), 3 = left (y-1). */
  type Dir = d: int | 0 <= d < 4

  datatype Pos = Pos(x: int, y: int)

  /** A pushwise move as recorded in the move log: target cell and direction. */
  datatype Move = Move(x: int, y: int, direction: Dir)

  function DX(d: Dir): int { if d == 0 then -1 else if d == 2 then 1 else 0 }
  function DY(d: Dir): int { if d == 1 then 1 else if d == 3 then -1 else 0 }

  /** The neighbour of `p` in direction `d`. */
  function Step(p: Pos, d: Dir): Pos { Pos(p.x + DX(d), p.y + DY(d)) }

  /** The cell from which a push in direction `d` onto `p` is made. */
  function Back(p: Pos, d: Dir): Pos { Pos(p.x - DX(d), p.y - DY(d)) }

  predicate InBounds(p: Pos) { 0 <= p.x < Size && 0 <= p.y < Size }

  /**
   * Layers 0..11 of one cell: the five terrain flags, the reachable flag,
   * the four directional push costs (each minus a number of moves, 0 when
   * unset), the best exit cost and the visit counter.
   */
  datatype Cell = Cell(unmovable: int, movable: int, character: int, win: int, empty: int,
                       reach: int, push0: int, push1: int, push2: int, push3: int,
                       exitCost: int, visits: int)
  {
    function Push(d: Dir): int
    {
      if d == 0 then push0 else if d == 1 then push1 else if d == 2 then push2 else push3
    }

    function WithPush(d: Dir, v: int): (c: Cell)
      ensures c.Push(d) == v
      ensures forall e: Dir :: e != d ==> c.Push(e) == Push(e)
      ensures SameTerrain(c, this) && c.reach == reach && c.exitCost == exitCost && c.visits == visits
    {
      if d == 0 then this.(push0 := v)
      else if d == 1 then this.(push1 := v)
      else if d == 2 then this.(push2 := v)
      else this.(push3 := v)
    }
  }

  predicate IsUnmovable(c: Cell) { c.unmovable == 1 }
  predicate IsMovable(c: Cell) { c.movable == 1 }
  predicate IsChar(c: Cell) { c.character == 1 }
  predicate IsWin(c: Cell) { c.win == 1 }
  predicate IsEmpty(c: Cell) { c.empty == 1 }

  /** Empty space that is not an exit: the pass walks through it. */
  predicate Open(c: Cell) { IsEmpty(c) && !IsWin(c) }

  /** An exit with nothing on it: reaching it wins without a push. */
  predicate OpenExit(c: Cell) { IsWin(c) && IsEmpty(c) }

  /** The terrain layers 0..4 agree. */
  predicate SameTerrain(a: Cell, b: Cell)
  {
    a.unmovable == b.unmovable && a.movable == b.movable && a.character == b.character &&
    a.win == b.win && a.empty == b.empty
  }

  function PushSum(c: Cell): int { c.push0 + c.push1 + c.push2 + c.push3 }

  predicate PushesNonpositive(c: Cell) { c.push0 <= 0 && c.push1 <= 0 && c.push2 <= 0 && c.push3 <= 0 }

  /** At most one of the four directional costs is set. */
  predicate AtMostOnePush(c: Cell)
  {
    forall d: Dir, e: Dir :: d != e ==> c.Push(d) == 0 || c.Push(e) == 0
  }

  /** The larger of two costs, where 0 means "unset". */
  function NonzeroMax(a: int, b: int): int
  {
    if a == 0 then b else if b == 0 then a else if a >= b then a else b
  }

  /** The cost of the shortest recorded approach (the largest nonzero cost), or 0. */
  function BestPush(c: Cell): int
  {
    NonzeroMax(NonzeroMax(NonzeroMax(c.push0, c.push1), c.push2), c.push3)
  }

  /** Layers 5..11 reset to zero, terrain kept. */
  function ClearDerived(c: Cell): (r: Cell)
    ensures SameTerrain(r, c)
    ensures r.reach == 0 && r.exitCost == 0 && r.visits == 0
    ensures forall d: Dir :: r.Push(d) == 0
  {
    c.(reach := 0, push0 := 0, push1 := 0, push2 := 0, push3 := 0, exitCost := 0, visits := 0)
  }

  /**
   * Layer 10 of a box standing on an exit when it is approached after `n`
   * moves, as utils.py:207 writes it: the maximum of the old value and -n.
   * The layer was cleared to 0 at the start of the pass, so this is 0.
   */
  function BoxExitCostAsWritten(old10: int, n: int): int
  {
    if old10 >= -n then old10 else -n
  }

  /**
   * Corrected form: 0 is "unset", so the first approach is recorded and a
   * later one replaces it only when it is shorter.
   */
  function BoxExitCost(old10: int, n: int): int
  {
    NonzeroMax(old10, -n)
  }

  /** The box on `target` can be pushed in the arrival direction: `beyond` is the next cell, if any. */
  predicate PushableWith(target: Cell, beyond: Option<Cell>)
  {
    !Open(target) && !OpenExit(target) && beyond.Some? && IsMovable(target) && IsEmpty(beyond.value)
  }

  datatype Arrival = Arrival(cell: Cell, enqueued: bool)

  /**
   * What one frontier edge of the pass does to the cell it reaches
   * (utils.py:181-207): `target` is that cell, `beyond` the next cell in
   * direction `d` (None when off the board), `n` the frontier number.
   */
  function Arrive(target: Cell, beyond: Option<Cell>, d: Dir, n: int): (r: Arrival)
    ensures SameTerrain(r.cell, target) && r.cell.visits == target.visits
    ensures r.enqueued <==> Open(target) && target.reach != 1
    ensures r.cell.reach == if r.enqueued then 1 else target.reach
    ensures forall e: Dir :: e != d ==> r.cell.Push(e) == target.Push(e)
    ensures r.cell.Push(d) == target.Push(d) || (r.cell.Push(d) == -n && (OpenExit(target) || PushableWith(target, beyond)))
    ensures OpenExit(target) && PushSum(target) == 0 ==> r.cell.Push(d) == -n && r.cell.exitCost == -n
    ensures PushableWith(target, beyond) ==> r.cell.Push(d) == -n
    ensures !Open(target) && !OpenExit(target) && !PushableWith(target, beyond) ==> r.cell == target
    ensures PushableWith(target, beyond) && IsWin(target) ==> r.cell.exitCost == BoxExitCost(target.exitCost, n)
    ensures r.cell.exitCost != target.exitCost ==> OpenExit(target) || (PushableWith(target, beyond) && IsWin(target))
  {
    if Open(target) then
      if target.reach == 1 then Arrival(target, false)
      else Arrival(target.(reach := 1), true)
    else if OpenExit(target) then
      if PushSum(target) != 0 then Arrival(target, false)
      else Arrival(target.WithPush(d, -n).(exitCost := -n), false)
    else if beyond.None? then Arrival(target, false)
    else if IsMovable(target) && IsEmpty(beyond.value) then
      var pushed := target.WithPush(d, -n);
      Arrival(if IsWin(target) then pushed.(exitCost := BoxExitCost(target.exitCost, n)) else pushed, false)
    else Arrival(target, false)
  }

  /**
   * One arrival exactly as utils.py:181-207 writes it: the same as `Arrive`
   * except that layer 10 of a box on an exit takes the as-written update.
   */
  function ArriveAsWritten(target: Cell, beyond: Option<Cell>, d: Dir, n: int): (r: Arrival)
    ensures r.enqueued == Arrive(target, beyond, d, n).enqueued
    ensures r.cell == Arrive(target, beyond, d, n).cell.(exitCost := r.cell.exitCost)
    ensures !(PushableWith(target, beyond) && IsWin(target)) ==> r == Arrive(target, beyond, d, n)
    ensures PushableWith(target, beyond) && IsWin(target) ==> r.cell.exitCost == BoxExitCostAsWritten(target.exitCost, n)
  {
    var a := Arrive(target, beyond, d, n);
    if PushableWith(target, beyond) && IsWin(target) then
      Arrival(a.cell.(exitCost := BoxExitCostAsWritten(target.exitCost, n)), a.enqueued)
    else a
  }

  /**
   * What layer 10 holds: for an exit with nothing on it, the one recorded
   * approach cost; for a box on an exit, the shortest recorded approach;
   * elsewhere nothing.
   */
  predicate ExitLayerOk(c: Cell)
  {
    if OpenExit(c) then AtMostOnePush(c) && c.exitCost == PushSum(c)
    else c.exitCost == if IsWin(c) then BestPush(c) else 0
  }

  /** Replacing an unset cost by v < 0 merges it into the best approach. */
  lemma BestPushAfterSet(c: Cell, d: Dir, v: int)
    requires c.Push(d) == 0 && v < 0
    ensures BestPush(c.WithPush(d, v)) == NonzeroMax(BestPush(c), v)
  {
  }

  /**
   * One arrival keeps layer 10 consistent with the directional costs, given
   * that the cost it may write was still unset: an exit records only its
   * first approach, a box on an exit keeps the shortest one.
   */
  lemma ArriveKeepsExitLayer(target: Cell, beyond: Option<Cell>, d: Dir, n: int)
    requires n >= 1
    requires PushesNonpositive(target) && ExitLayerOk(target) && target.Push(d) == 0
    ensures PushesNonpositive(Arrive(target, beyond, d, n).cell)
    ensures ExitLayerOk(Arrive(target, beyond, d, n).cell)
  {
    var r := Arrive(target, beyond, d, n).cell;
    if PushableWith(target, beyond) && IsWin(target) {
      BestPushAfterSet(target, d, -n);
    }
  }

  /** After an arrival, an exit with nothing on it has an approach cost recorded. */
  lemma ArriveRecordsExit(target: Cell, beyond: Option<Cell>, d: Dir, n: int)
    requires n >= 1 && OpenExit(target) && PushesNonpositive(target)
    ensures PushSum(Arrive(target, beyond, d, n).cell) < 0
  {
    var r := Arrive(target, beyond, d, n).cell;
    if PushSum(target) == 0 {
      assert target.push0 == 0 && target.push1 == 0 && target.push2 == 0 && target.push3 == 0;
      assert r.Push(d) == -n;
      assert forall e: Dir :: e != d ==> r.Push(e) == 0;
      assert r.push0 == r.Push(0) && r.push1 == r.Push(1) && r.push2 == r.Push(2) && r.push3 == r.Push(3);
    }
  }

  /**
   * An exit is entered from one direction only: once a cost is recorded,
   * later arrivals leave the cell unchanged.
   */
  lemma ExitFirstArrivalOnly(target: Cell, beyond: Option<Cell>, d: Dir, n: int)
    requires OpenExit(target) && PushesNonpositive(target)
    requires exists e: Dir :: target.Push(e) != 0
    ensures Arrive(target, beyond, d, n).cell == target
  {
    var e: Dir :| target.Push(e) != 0;
    assert PushSum(target) < 0;
  }

  /**
   * The source's layer-10 update for a box on an exit records nothing: the
   * layer is zero when the pass starts and max(0, -n) is 0, although the box
   * has just received the approach cost -n.
   */
  lemma BoxExitCostAsWrittenLosesApproach(c: Cell, beyond: Cell, d: Dir, n: int)
    requires n >= 1
    requires IsWin(c) && IsMovable(c) && !IsEmpty(c) && IsEmpty(beyond)
    ensures ArriveAsWritten(ClearDerived(c), Some(beyond), d, n).cell.Push(d) == -n
    ensures ArriveAsWritten(ClearDerived(c), Some(beyond), d, n).cell.exitCost == 0
    ensures !ExitLayerOk(ArriveAsWritten(ClearDerived(c), Some(beyond), d, n).cell)
    ensures Arrive(ClearDerived(c), Some(beyond), d, n).cell.exitCost == -n
  {
    var r := ArriveAsWritten(ClearDerived(c), Some(beyond), d, n).cell;
    assert r.Push(d) == -n && forall e: Dir :: e != d ==> r.Push(e) == 0;
    assert BestPush(r) == -n;
  }
}
