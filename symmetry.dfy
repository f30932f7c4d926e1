/**
 * The training-data symmetries of utils.py: `centered` pads a board to the
 * (2 * size - 1)-square frame with the character in the middle, and
 * `x_rotations` emits the eight dihedral images of such a state, rolling
 * the four directional cost layers with each quarter turn and flipping
 * them with the reflection. The labels of module Codec undergo the same
 * eight transformations; the lock-step lemmas below say that a cell and
 * its cost for a direction travel together with the label that names them.
 */
module Symmetry {
  import opened Grid
  import opened Codec
  import opened Position

  /** A grid of cells, indexed [row][column]. */
  type Tensor = seq<seq<Cell>>

  predicate IsSquare(t: Tensor, n: nat)
  {
    |t| == n && forall i :: 0 <= i < n ==> |t[i]| == n
  }

  /** The cell `centered` puts outside the copied board: unmovable, every other layer 0. */
  const Pad: Cell := Cell(1, 0, 0, 0, 0, 0, 0, 0, 0, 0, 0, 0)

  /** Row and column offsets at which `centered` copies the board. */
  function OffsetX(ch: Pos): int { Size - 1 - ch.x }
  function OffsetY(ch: Pos): int { Size - 1 - ch.y }

  function CenteredCell(g: Tensor, ch: Pos, i: int, j: int): Cell
    requires IsSquare(g, Size)
  {
    var x, y := i - OffsetX(ch), j - OffsetY(ch);
    if 0 <= x < Size && 0 <= y < Size then g[x][y] else Pad
  }

  /** centered (utils.py:266-277) for a board `g` whose character stands at `ch`. */
  function Centered(g: Tensor, ch: Pos): (r: Tensor)
    requires IsSquare(g, Size)
    ensures IsSquare(r, DSize)
  {
    seq(DSize, i requires 0 <= i < DSize => seq(DSize, j requires 0 <= j < DSize => CenteredCell(g, ch, i, j)))
  }

  /**
   * Board cell (x, y) lands where the label of a move at (x, y) points:
   * the label frame of module Codec and the centered board agree. In
   * particular the character's own cell lands at (Size - 1, Size - 1).
   */
  lemma CenteredPlacesBoard(g: Tensor, ch: Pos, m: Move)
    requires IsSquare(g, Size) && InBounds(ch) && InBounds(Pos(m.x, m.y))
    ensures var l := RelativeLabel(m, ch);
      InFrame(l) && Centered(g, ch)[l.x][l.y] == g[m.x][m.y]
    ensures Centered(g, ch)[Size - 1][Size - 1] == g[ch.x][ch.y]
  {
    var l := RelativeLabel(m, ch);
    assert Centered(g, ch)[l.x][l.y] == CenteredCell(g, ch, l.x, l.y);
    assert Centered(g, ch)[Size - 1][Size - 1] == CenteredCell(g, ch, Size - 1, Size - 1);
  }

  /** The board of a position as a grid of cells, indexed [row][column]. */
  ghost function BoardOf(pp: PushPosition): (t: Tensor)
    reads pp, pp.arr
    requires pp.Shaped()
    ensures IsSquare(t, Size)
    ensures forall x, y :: 0 <= x < Size && 0 <= y < Size ==> t[x][y] == pp.arr[x, y]
  {
    seq(Size, x requires 0 <= x < Size reads pp.arr =>
      seq(Size, y requires 0 <= y < Size reads pp.arr => pp.arr[x, y]))
  }

  /**
   * `centered` applied to a live position: the cell a move targets lands
   * where the move's label points, and the centre of the frame shows the
   * character. So the training pairs built from the centered state are
   * those of the current position.
   */
  lemma CenteredPosition(pp: PushPosition, m: Move)
    requires pp.Valid() && InBounds(Pos(m.x, m.y))
    ensures var l := RelativeLabel(m, pp.charLoc);
      InFrame(l) && Centered(BoardOf(pp), pp.charLoc)[l.x][l.y] == pp.At(Pos(m.x, m.y))
    ensures IsChar(Centered(BoardOf(pp), pp.charLoc)[Size - 1][Size - 1])
  {
    CenteredPlacesBoard(BoardOf(pp), pp.charLoc, m);
  }

  /** Every cell of the frame that is not a copied board cell is unmovable padding. */
  lemma CenteredPadding(g: Tensor, ch: Pos, i: int, j: int)
    requires IsSquare(g, Size) && 0 <= i < DSize && 0 <= j < DSize
    requires !InBounds(Pos(i - OffsetX(ch), j - OffsetY(ch)))
    ensures Centered(g, ch)[i][j] == Pad && IsUnmovable(Pad) && !IsEmpty(Pad)
  {
    assert Centered(g, ch)[i][j] == CenteredCell(g, ch, i, j);
  }

  /** Layers other than 6..9 agree. */
  predicate OtherLayersSame(a: Cell, b: Cell)
  {
    SameTerrain(a, b) && a.reach == b.reach && a.exitCost == b.exitCost && a.visits == b.visits
  }

  /** np.roll(layers 6..9, -1): the cost for direction d moves to direction d - 1. */
  function RollPushes(c: Cell): (r: Cell)
    ensures OtherLayersSame(r, c)
    ensures forall d: Dir :: r.Push((d + 3) % 4) == c.Push(d)
  {
    c.(push0 := c.push1, push1 := c.push2, push2 := c.push3, push3 := c.push0)
  }

  /** np.flip(layers 6..9): the cost for direction d moves to direction 3 - d. */
  function FlipPushes(c: Cell): (r: Cell)
    ensures OtherLayersSame(r, c)
    ensures forall d: Dir :: r.Push(3 - d) == c.Push(d)
  {
    c.(push0 := c.push3, push1 := c.push2, push2 := c.push1, push3 := c.push0)
  }

  /** One quarter turn of x_rotations (utils.py:287-289): np.rot90 on rows and columns, then the roll. */
  function RotateState(t: Tensor): (r: Tensor)
    requires IsSquare(t, |t|)
    ensures IsSquare(r, |t|)
  {
    var n := |t|;
    seq(n, i requires 0 <= i < n => seq(n, j requires 0 <= j < n => RollPushes(t[j][n - 1 - i])))
  }

  /** The reflection of x_rotations (utils.py:290-291): swapaxes(0, 1), then the flip. */
  function ReflectState(t: Tensor): (r: Tensor)
    requires IsSquare(t, |t|)
    ensures IsSquare(r, |t|)
  {
    var n := |t|;
    seq(n, i requires 0 <= i < n => seq(n, j requires 0 <= j < n => FlipPushes(t[j][i])))
  }

  function RotateStateN(t: Tensor, k: nat): (r: Tensor)
    requires IsSquare(t, |t|)
    ensures IsSquare(r, |t|)
  {
    if k == 0 then t else RotateState(RotateStateN(t, k - 1))
  }

  /** The k-th of the eight states x_rotations emits, k in 0..7 (utils.py:284-295). */
  function StateVariant(t: Tensor, k: nat): Tensor
    requires IsSquare(t, |t|) && k < 8
  {
    if k < 4 then RotateStateN(t, k) else RotateStateN(ReflectState(RotateStateN(t, 4)), k - 4)
  }

  lemma RotateStateAt(t: Tensor, i: int, j: int)
    requires IsSquare(t, |t|) && 0 <= i < |t| && 0 <= j < |t|
    ensures RotateState(t)[i][j] == RollPushes(t[j][|t| - 1 - i])
  {
  }

  lemma RollFourTimes(c: Cell)
    ensures RollPushes(RollPushes(RollPushes(RollPushes(c)))) == c
  {
  }

  function FourTurns(t: Tensor): (r: Tensor)
    requires IsSquare(t, |t|)
    ensures IsSquare(r, |t|)
  {
    RotateState(RotateState(RotateState(RotateState(t))))
  }

  lemma FourTurnsAt(t: Tensor, i: int, j: int)
    requires IsSquare(t, |t|) && 0 <= i < |t| && 0 <= j < |t|
    ensures FourTurns(t)[i][j] == t[i][j]
  {
    var n := |t|;
    var r1 := RotateState(t);
    var r2 := RotateState(r1);
    var r3 := RotateState(r2);
    RotateStateAt(r3, i, j);
    RotateStateAt(r2, j, n - 1 - i);
    RotateStateAt(r1, n - 1 - i, n - 1 - j);
    RotateStateAt(t, n - 1 - j, i);
    RollFourTimes(t[i][j]);
  }

  /** Four quarter turns give back the state: four rolls of the cost layers cancel. */
  lemma RotateStateFourTimes(t: Tensor)
    requires IsSquare(t, |t|)
    ensures RotateStateN(t, 4) == t
  {
    var n := |t|;
    assert RotateStateN(t, 4) == FourTurns(t) by {
      assert RotateStateN(t, 0) == t;
      assert RotateStateN(t, 1) == RotateState(t);
      assert RotateStateN(t, 2) == RotateState(RotateState(t));
      assert RotateStateN(t, 3) == RotateState(RotateState(RotateState(t)));
    }
    var r := FourTurns(t);
    forall i | 0 <= i < n ensures r[i] == t[i] {
      forall j | 0 <= j < n ensures r[i][j] == t[i][j] {
        FourTurnsAt(t, i, j);
      }
    }
  }

  /** The reflection is an involution. */
  lemma ReflectStateTwice(t: Tensor)
    requires IsSquare(t, |t|)
    ensures ReflectState(ReflectState(t)) == t
  {
    var n := |t|;
    var r := ReflectState(t);
    var rr := ReflectState(r);
    forall i, j | 0 <= i < n && 0 <= j < n
      ensures rr[i][j] == t[i][j]
    {
      assert rr[i][j] == FlipPushes(r[j][i]);
      assert r[j][i] == FlipPushes(t[i][j]);
    }
    forall i | 0 <= i < n ensures rr[i] == t[i] {
    }
  }

  /** State `u` shows at label `m` what state `t` shows at label `l`: the same cell, with the cost for l's direction under m's direction. */
  predicate SameAt(t: Tensor, l: Label, u: Tensor, m: Label)
    requires IsSquare(t, DSize) && IsSquare(u, DSize) && InFrame(l) && InFrame(m)
  {
    OtherLayersSame(u[m.x][m.y], t[l.x][l.y]) && u[m.x][m.y].Push(m.direction) == t[l.x][l.y].Push(l.direction)
  }

  /** A quarter turn of the state and rotate_once on the label move together. */
  lemma RotateLockStep(t: Tensor, l: Label)
    requires IsSquare(t, DSize) && InFrame(l)
    ensures InFrame(RotateOnce(l)) && SameAt(t, l, RotateState(t), RotateOnce(l))
  {
    var m := RotateOnce(l);
    LabelMapsInFrame(l);
    assert RotateState(t)[m.x][m.y] == RollPushes(t[l.x][l.y]);
    assert m.direction == (l.direction + 3) % 4;
  }

  /** The reflection of the state and that of the label move together. */
  lemma ReflectLockStep(t: Tensor, l: Label)
    requires IsSquare(t, DSize) && InFrame(l)
    ensures InFrame(ReflectLabel(l)) && SameAt(t, l, ReflectState(t), ReflectLabel(l))
  {
    var m := ReflectLabel(l);
    LabelMapsInFrame(l);
    assert ReflectState(t)[m.x][m.y] == FlipPushes(t[l.x][l.y]);
  }

  lemma SameAtTrans(t: Tensor, l: Label, u: Tensor, m: Label, v: Tensor, o: Label)
    requires IsSquare(t, DSize) && IsSquare(u, DSize) && IsSquare(v, DSize)
    requires InFrame(l) && InFrame(m) && InFrame(o)
    requires SameAt(t, l, u, m) && SameAt(u, m, v, o)
    ensures SameAt(t, l, v, o)
  {
  }

  lemma {:induction false} RotateNLockStep(t: Tensor, l: Label, k: nat)
    requires IsSquare(t, DSize) && InFrame(l)
    ensures InFrame(RotateLabelN(l, k)) && SameAt(t, l, RotateStateN(t, k), RotateLabelN(l, k))
  {
    if k > 0 {
      RotateNLockStep(t, l, k - 1);
      var u, m := RotateStateN(t, k - 1), RotateLabelN(l, k - 1);
      RotateLockStep(u, m);
      SameAtTrans(t, l, u, m, RotateState(u), RotateOnce(m));
    }
  }

  /**
   * The k-th state of x_rotations and the k-th label of y_rotations name
   * the same push: the cell at the transformed label is the original cell,
   * and its cost for the transformed direction is the original cost.
   */
  lemma VariantLockStep(t: Tensor, l: Label, k: nat)
    requires IsSquare(t, DSize) && InFrame(l) && k < 8
    ensures InFrame(LabelVariant(l, k)) && IsSquare(StateVariant(t, k), DSize)
    ensures SameAt(t, l, StateVariant(t, k), LabelVariant(l, k))
  {
    if k < 4 {
      RotateNLockStep(t, l, k);
    } else {
      var u, m := RotateStateN(t, 4), RotateLabelN(l, 4);
      RotateNLockStep(t, l, 4);
      ReflectLockStep(u, m);
      SameAtTrans(t, l, u, m, ReflectState(u), ReflectLabel(m));
      RotateNLockStep(ReflectState(u), ReflectLabel(m), k - 4);
      SameAtTrans(t, l, ReflectState(u), ReflectLabel(m),
                  RotateStateN(ReflectState(u), k - 4), RotateLabelN(ReflectLabel(m), k - 4));
    }
  }

  /**
   * The cell a push moves its box onto travels with the label as well: in
   * the k-th state the cell beyond the k-th label is the original cell
   * beyond the original label, so the eight training pairs agree on where
   * the box goes, not only on where it stands.
   */
  lemma VariantBeyondLockStep(t: Tensor, l: Label, k: nat)
    requires IsSquare(t, DSize) && InFrame(l) && k < 8
    requires var b := LabelBeyond(l); 0 <= b.x < DSize && 0 <= b.y < DSize
    ensures var b, b' := LabelBeyond(l), LabelBeyond(LabelVariant(l, k));
      0 <= b'.x < DSize && 0 <= b'.y < DSize && OtherLayersSame(StateVariant(t, k)[b'.x][b'.y], t[b.x][b.y])
  {
    var b := LabelBeyond(l);
    var lb := Label(b.x, b.y, 0);
    VariantLockStep(t, lb, k);
    LabelVariantCells(lb, k);
    LabelVariantCells(l, k);
  }

  /**
   * x_rotations (utils.py:280-297): appends the eight images of the state,
   * four quarter turns and then four quarter turns of the reflection.
   */
  method XRotations(t: Tensor, dataX: seq<Tensor>) returns (out: seq<Tensor>)
    requires IsSquare(t, |t|)
    ensures |out| == |dataX| + 8 && out[..|dataX|] == dataX
    ensures forall k :: 0 <= k < 8 ==> out[|dataX| + k] == StateVariant(t, k)
  {
    out := dataX;
    var cur := t;
    for i := 0 to 4
      invariant cur == RotateStateN(t, i)
      invariant |out| == |dataX| + i && out[..|dataX|] == dataX
      invariant forall k :: 0 <= k < i ==> out[|dataX| + k] == StateVariant(t, k)
    {
      out := out + [cur];
      cur := RotateState(cur);
    }
    cur := ReflectState(cur);
    ghost var base := cur;
    for i := 0 to 4
      invariant IsSquare(cur, |t|) && cur == RotateStateN(base, i)
      invariant |out| == |dataX| + 4 + i && out[..|dataX|] == dataX
      invariant forall k :: 0 <= k < 4 + i ==> out[|dataX| + k] == StateVariant(t, k)
    {
      out := out + [cur];
      cur := RotateState(cur);
    }
    cur := ReflectState(cur);
  }
}
