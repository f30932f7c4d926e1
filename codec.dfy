/**
 * Move labels for the move-prediction network (utils.py: make_move_number,
 * rotate_once, the index arithmetic of y_rotations, onehot).
 *
 * A push at board cell (x, y) in direction d, made while the character
 * stands at (cx, cy), is labelled in the centered frame of side
 * DSize = 2 * Size - 1 by the triple (x - cx + Size - 1, y - cy + Size - 1, d),
 * and that triple is flattened to 4 * DSize * x' + 4 * y' + d.
 */
module Codec {
  import opened Grid

  const DSize: int := 2 * Size - 1

  /** Length of a one-hot label vector. */
  const NumLabels: int := DSize * DSize * 4

  /** A move in the centered frame: row, column and push direction. */
  datatype Label = Label(x: int, y: int, direction: Dir)

  predicate InFrame(l: Label) { 0 <= l.x < DSize && 0 <= l.y < DSize }

  /** The label index that y_rotations one-hot encodes (utils.py:314). */
  function EncodeLabel(l: Label): int
  {
    4 * DSize * l.x + 4 * l.y + l.direction
  }

  /** The label of board move `m` relative to the character at `ch`. */
  function RelativeLabel(m: Move, ch: Pos): Label
  {
    Label(m.x - ch.x + Size - 1, m.y - ch.y + Size - 1, m.direction)
  }

  /**
   * Decoding of a network move number (utils.py:132-134). Python's // and %
   * floor; for the positive divisors used here that is Dafny's / and %.
   */
  function DecodeMove(move: int, ch: Pos): Move
  {
    Move(move / (DSize * 4) + ch.x - (Size - 1),
         (move % (DSize * 4)) / 4 + ch.y - (Size - 1),
         move % 4)
  }

  lemma EncodeInRange(l: Label)
    requires InFrame(l)
    ensures 0 <= EncodeLabel(l) < NumLabels
  {
  }

  /** Encode, then decode against the same character location: the move comes back. */
  lemma DecodeEncode(m: Move, ch: Pos)
    requires InFrame(RelativeLabel(m, ch))
    ensures DecodeMove(EncodeLabel(RelativeLabel(m, ch)), ch) == m
  {
    var l := RelativeLabel(m, ch);
    var r := 4 * l.y + l.direction;
    assert EncodeLabel(l) == DSize * 4 * l.x + r;
    assert EncodeLabel(l) / (DSize * 4) == l.x && EncodeLabel(l) % (DSize * 4) == r;
    assert r / 4 == l.y && EncodeLabel(l) % 4 == l.direction;
  }

  /** Every move number in range decodes to a move whose label encodes back to it. */
  lemma EncodeDecode(move: int, ch: Pos)
    requires 0 <= move < NumLabels
    ensures InFrame(RelativeLabel(DecodeMove(move, ch), ch))
    ensures EncodeLabel(RelativeLabel(DecodeMove(move, ch), ch)) == move
  {
    var a, r := move / (DSize * 4), move % (DSize * 4);
    var b, d := r / 4, r % 4;
    assert move == DSize * 4 * a + r;
    assert r == 4 * b + d;
    assert 0 <= a < DSize;
    assert move % 4 == d;
  }

  /**
   * A move number outside [0, 39·39·4) decodes, against a character on the
   * board, to a target off the board: its row is the character's row plus
   * at least 20 or minus at least 20.
   */
  lemma DecodeOutOfRange(move: int, ch: Pos)
    requires InBounds(ch) && (move < 0 || move >= NumLabels)
    ensures !InBounds(Pos(DecodeMove(move, ch).x, DecodeMove(move, ch).y))
  {
  }

  /** `v` is the one-hot vector of label `l`. */
  predicate IsOnehotOf(v: seq<int>, l: Label)
  {
    InFrame(l) && v == Onehot(NumLabels, EncodeLabel(l))
  }

  /** A one-hot vector of the given length (utils.py:367-370). */
  function Onehot(length: nat, ind: int): (v: seq<int>)
    requires 0 <= ind < length
    ensures |v| == length && v[ind] == 1
    ensures forall i :: 0 <= i < length && i != ind ==> v[i] == 0
  {
    seq(length, i => if i == ind then 1 else 0)
  }

  /** The network label index of a one-hot vector: its only 1 entry. */
  lemma OnehotDeterminesIndex(length: nat, i: int, j: int)
    requires 0 <= i < length && 0 <= j < length
    requires Onehot(length, i) == Onehot(length, j)
    ensures i == j
  {
    assert Onehot(length, i)[j] == 1;
  }

  /** The frame cell a label names: where the pushed box stands. */
  function LabelCell(l: Label): Pos { Pos(l.x, l.y) }

  /** The frame cell the box of a label is pushed onto. */
  function LabelBeyond(l: Label): Pos { Step(LabelCell(l), l.direction) }

  /** Where a frame cell goes under one quarter turn of the centered board. */
  function RotatePos(p: Pos): Pos { Pos(DSize - 1 - p.y, p.x) }

  /** Where a frame cell goes under reflection in the main diagonal. */
  function ReflectPos(p: Pos): Pos { Pos(p.y, p.x) }

  function RotatePosN(p: Pos, k: nat): Pos
  {
    if k == 0 then p else RotatePos(RotatePosN(p, k - 1))
  }

  /** The image of a frame cell under the k-th of the eight symmetries, k in 0..7. */
  function PosVariant(p: Pos, k: nat): Pos
    requires k < 8
  {
    if k < 4 then RotatePosN(p, k) else RotatePosN(ReflectPos(RotatePosN(p, 4)), k - 4)
  }

  /**
   * The label of the same push after the centered board is rotated by
   * 90 degrees (utils.py:300-302): both the box's cell and the cell it is
   * pushed onto turn with the board, so the new direction still points
   * from the one to the other.
   */
  function RotateOnce(l: Label): Label
  {
    Label(DSize - l.y - 1, l.x, (l.direction - 1) % 4)
  }

  lemma RotateOnceCells(l: Label)
    ensures LabelCell(RotateOnce(l)) == RotatePos(LabelCell(l))
    ensures LabelBeyond(RotateOnce(l)) == RotatePos(LabelBeyond(l))
  {
  }

  /**
   * The label of the same push after reflection in the main diagonal
   * (utils.py:316-317): the box's cell and the cell beyond it are both
   * reflected.
   */
  function ReflectLabel(l: Label): Label
  {
    Label(l.y, l.x, 3 - l.direction)
  }

  lemma ReflectLabelCells(l: Label)
    ensures LabelCell(ReflectLabel(l)) == ReflectPos(LabelCell(l))
    ensures LabelBeyond(ReflectLabel(l)) == ReflectPos(LabelBeyond(l))
  {
  }

  function RotateLabelN(l: Label, k: nat): Label
  {
    if k == 0 then l else RotateOnce(RotateLabelN(l, k - 1))
  }

  /** k quarter turns move the box's cell and the cell beyond it as k turns of the board do. */
  lemma {:induction false} RotateLabelNCells(l: Label, k: nat)
    ensures LabelCell(RotateLabelN(l, k)) == RotatePosN(LabelCell(l), k)
    ensures LabelBeyond(RotateLabelN(l, k)) == RotatePosN(LabelBeyond(l), k)
  {
    if k > 0 {
      RotateLabelNCells(l, k - 1);
      RotateOnceCells(RotateLabelN(l, k - 1));
    }
  }

  lemma LabelMapsInFrame(l: Label)
    requires InFrame(l)
    ensures InFrame(RotateOnce(l)) && InFrame(ReflectLabel(l))
  {
  }

  lemma {:induction false} RotateLabelNInFrame(l: Label, k: nat)
    requires InFrame(l)
    ensures InFrame(RotateLabelN(l, k))
  {
    if k > 0 {
      RotateLabelNInFrame(l, k - 1);
      LabelMapsInFrame(RotateLabelN(l, k - 1));
    }
  }

  /** rotate_once has order 4. */
  lemma RotateFourTimes(l: Label)
    ensures RotateLabelN(l, 4) == l
  {
    var d := l.direction;
    assert RotateLabelN(l, 1) == RotateOnce(l);
    assert RotateLabelN(l, 2) == RotateOnce(RotateLabelN(l, 1));
    assert RotateLabelN(l, 3) == RotateOnce(RotateLabelN(l, 2));
    assert RotateLabelN(l, 4) == RotateOnce(RotateLabelN(l, 3));
    assert RotateLabelN(l, 2) == Label(DSize - 1 - l.x, DSize - 1 - l.y, if d < 2 then d + 2 else d - 2);
    assert RotateLabelN(l, 3) == Label(l.y, DSize - 1 - l.x, if d < 3 then d + 1 else 0);
  }

  /** The reflection of labels is an involution. */
  lemma ReflectTwice(l: Label)
    ensures ReflectLabel(ReflectLabel(l)) == l
  {
  }

  /** The k-th of the eight labels y_rotations emits, k in 0..7 (utils.py:313-320). */
  function LabelVariant(l: Label, k: nat): Label
    requires k < 8
  {
    if k < 4 then RotateLabelN(l, k) else RotateLabelN(ReflectLabel(RotateLabelN(l, 4)), k - 4)
  }

  /**
   * The k-th label of y_rotations names the image of the original push
   * under the k-th symmetry: its box cell and the cell beyond it are the
   * images of the original ones.
   */
  lemma LabelVariantCells(l: Label, k: nat)
    requires k < 8
    ensures LabelCell(LabelVariant(l, k)) == PosVariant(LabelCell(l), k)
    ensures LabelBeyond(LabelVariant(l, k)) == PosVariant(LabelBeyond(l), k)
  {
    if k < 4 {
      RotateLabelNCells(l, k);
    } else {
      var m := RotateLabelN(l, 4);
      RotateLabelNCells(l, 4);
      ReflectLabelCells(m);
      RotateLabelNCells(ReflectLabel(m), k - 4);
    }
  }

  lemma LabelVariantInFrame(l: Label, k: nat)
    requires InFrame(l) && k < 8
    ensures InFrame(LabelVariant(l, k))
  {
    RotateLabelNInFrame(l, 4);
    RotateLabelNInFrame(l, k % 4);
    LabelMapsInFrame(RotateLabelN(l, 4));
    RotateLabelNInFrame(ReflectLabel(RotateLabelN(l, 4)), k % 4);
  }

  /**
   * y_rotations: appends the one-hot vectors of the eight symmetric images
   * of the label, four rotations and then four rotations of the reflection.
   */
  method YRotations(l: Label, dataY: seq<seq<int>>) returns (out: seq<seq<int>>)
    requires InFrame(l)
    ensures |out| == |dataY| + 8 && out[..|dataY|] == dataY
    ensures forall k :: 0 <= k < 8 ==>
      IsOnehotOf(out[|dataY| + k], LabelVariant(l, k))
  {
    out := dataY;
    var cur := l;
    for i := 0 to 4
      invariant cur == RotateLabelN(l, i) && InFrame(cur)
      invariant |out| == |dataY| + i && out[..|dataY|] == dataY
      invariant forall k :: 0 <= k < i ==>
        IsOnehotOf(out[|dataY| + k], LabelVariant(l, k))
    {
      EncodeInRange(cur);
      out := out + [Onehot(NumLabels, EncodeLabel(cur))];
      LabelMapsInFrame(cur);
      cur := RotateOnce(cur);
    }
    cur := ReflectLabel(cur);
    ghost var base := cur;
    LabelMapsInFrame(RotateLabelN(l, 4));
    for i := 0 to 4
      invariant cur == RotateLabelN(base, i) && InFrame(cur)
      invariant |out| == |dataY| + 4 + i && out[..|dataY|] == dataY
      invariant forall k :: 0 <= k < 4 + i ==>
        IsOnehotOf(out[|dataY| + k], LabelVariant(l, k))
    {
      EncodeInRange(cur);
      out := out + [Onehot(NumLabels, EncodeLabel(cur))];
      LabelMapsInFrame(cur);
      cur := RotateOnce(cur);
    }
    cur := ReflectLabel(cur);
  }
}
