/**
 * The board position of utils.py (class PushPosition): the layered grid,
 * the breadth-first reachability pass that annotates it (assign_pushes,
 * append_square) and the two kinds of move (make_move, make_move_number,
 * move_in_direction).
 */
module Position {
  import opened Grid
  import opened Codec

  /** The three results of a pushwise move: ILLEGAL = -1, PUSH = 2, WIN = 10000. */
  datatype Outcome = Illegal | Pushed | Won

  /** `p` comes before `b` in the row-major order of the constructor's nested loops. */
  predicate ScanBefore(p: Pos, b: Pos)
  {
    p.x < b.x || (p.x == b.x && p.y < b.y)
  }

  /** Layer 2 (character) or layer 3 (exit) of a cell is set. */
  predicate HasFlag(c: Cell, layer: int)
    requires layer == 2 || layer == 3
  {
    if layer == 2 then IsChar(c) else IsWin(c)
  }

  /**
   * `r` is the last cell scanned before `bound` whose flag `layer` is set,
   * or None if no such cell exists.
   */
  ghost predicate LastMatch(a: array2<Cell>, layer: int, bound: Pos, r: Option<Pos>)
    reads a
    requires a.Length0 == Size && a.Length1 == Size && (layer == 2 || layer == 3)
  {
    match r
    case None =>
      forall x, y :: 0 <= x < Size && 0 <= y < Size && ScanBefore(Pos(x, y), bound) ==> !HasFlag(a[x, y], layer)
    case Some(p) =>
      InBounds(p) && ScanBefore(p, bound) && HasFlag(a[p.x, p.y], layer) &&
      forall x, y :: 0 <= x < Size && 0 <= y < Size && ScanBefore(p, Pos(x, y)) && ScanBefore(Pos(x, y), bound) ==> !HasFlag(a[x, y], layer)
  }

  /** Both results of the scan up to `bound`. */
  ghost predicate ScannedTo(a: array2<Cell>, bound: Pos, ch: Option<Pos>, ex: Option<Pos>)
    reads a
    requires a.Length0 == Size && a.Length1 == Size
  {
    LastMatch(a, 2, bound, ch) && LastMatch(a, 3, bound, ex)
  }

  lemma ScanStep(a: array2<Cell>, x: int, y: int, ch: Option<Pos>, ex: Option<Pos>, ch': Option<Pos>, ex': Option<Pos>)
    requires a.Length0 == Size && a.Length1 == Size && 0 <= x < Size && 0 <= y < Size
    requires ScannedTo(a, Pos(x, y), ch, ex)
    requires ch' == if IsChar(a[x, y]) then Some(Pos(x, y)) else ch
    requires ex' == if IsWin(a[x, y]) then Some(Pos(x, y)) else ex
    ensures ScannedTo(a, Pos(x, y + 1), ch', ex')
  {
  }

  lemma ScanRow(a: array2<Cell>, x: int, ch: Option<Pos>, ex: Option<Pos>)
    requires a.Length0 == Size && a.Length1 == Size
    requires ScannedTo(a, Pos(x, Size), ch, ex)
    ensures ScannedTo(a, Pos(x + 1, 0), ch, ex)
  {
  }

  /**
   * The constructor's scan (utils.py:46-51): the last cell with the
   * character flag and the last cell with the exit flag.
   */
  method ScanBoard(a: array2<Cell>) returns (ch: Option<Pos>, ex: Option<Pos>)
    requires a.Length0 == Size && a.Length1 == Size
    ensures LastMatch(a, 2, Pos(Size, 0), ch)
    ensures LastMatch(a, 3, Pos(Size, 0), ex)
  {
    ch, ex := None, None;
    for x := 0 to Size
      invariant ScannedTo(a, Pos(x, 0), ch, ex)
    {
      ch, ex := ScanLine(a, x, ch, ex);
      ScanRow(a, x, ch, ex);
    }
  }

  /** The inner loop of the scan: row `x`, cell by cell. */
  method ScanLine(a: array2<Cell>, x: int, ch0: Option<Pos>, ex0: Option<Pos>) returns (ch: Option<Pos>, ex: Option<Pos>)
    requires a.Length0 == Size && a.Length1 == Size && 0 <= x < Size
    requires ScannedTo(a, Pos(x, 0), ch0, ex0)
    ensures ScannedTo(a, Pos(x, Size), ch, ex)
  {
    ch, ex := ch0, ex0;
    for y := 0 to Size
      invariant ScannedTo(a, Pos(x, y), ch, ex)
    {
      ghost var chBefore, exBefore := ch, ex;
      if IsChar(a[x, y]) {
        ch := Some(Pos(x, y));
      }
      if IsWin(a[x, y]) {
        ex := Some(Pos(x, y));
      }
      ScanStep(a, x, y, chBefore, exBefore, ch, ex);
    }
  }

  /** s has no repeated element. */
  ghost predicate Distinct(s: seq<Pos>)
  {
    forall i, j :: 0 <= i < j < |s| ==> s[i] != s[j]
  }

  ghost function Elems(s: seq<Pos>): set<Pos>
  {
    set p | p in s
  }

  ghost function AllCells(): set<Pos>
  {
    set x, y | 0 <= x < Size && 0 <= y < Size :: Pos(x, y)
  }

  lemma InAllCells(p: Pos)
    requires InBounds(p)
    ensures p in AllCells()
  {
    assert p == Pos(p.x, p.y);
  }

  lemma {:induction false} SubsetCard(a: set<Pos>, b: set<Pos>)
    requires a <= b
    ensures |a| <= |b|
  {
    if a != {} {
      var x :| x in a;
      SubsetCard(a - {x}, b - {x});
    }
  }

  /** Finishing a non-empty frontier of unfinished cells shrinks the set of unfinished cells. */
  lemma FrontierShrinks(all: set<Pos>, done: set<Pos>, frontier: set<Pos>)
    requires frontier != {} && frontier <= all && frontier !! done
    ensures |all - (done + frontier)| < |all - done|
  {
    var p :| p in frontier;
    SubsetCard(all - (done + frontier), (all - done) - {p});
  }

  /** `a` and `b` are neighbours on the grid. */
  predicate Adjacent(a: Pos, b: Pos)
  {
    (a.x == b.x && (a.y - b.y == 1 || b.y - a.y == 1)) || (a.y == b.y && (a.x - b.x == 1 || b.x - a.x == 1))
  }

  /**
   * `dist` and `via` witness how the pass reached the cells of `visited`
   * from `ch`: every other cell was entered in direction `via[p]` from a
   * reached cell of the previous frontier.
   */
  ghost predicate SpanningTree(ch: Pos, visited: set<Pos>, dist: map<Pos, nat>, via: map<Pos, Dir>)
  {
    && dist.Keys == visited && ch in visited && dist[ch] == 0
    && forall p | p in visited && p != ch ::
         p in via && Back(p, via[p]) in visited && dist[Back(p, via[p])] + 1 == dist[p]
  }

  /** `dist'` keeps every entry of `dist` and gives each new cell the frontier number `n`. */
  ghost predicate Extends(dist: map<Pos, nat>, dist': map<Pos, nat>, n: int)
  {
    && (forall p | p in dist :: p in dist' && dist'[p] == dist[p])
    && (forall p | p in dist' && p !in dist :: dist'[p] == n)
  }

  /** The four neighbours of `s`. */
  function Neighbours(s: Pos): set<Pos>
  {
    {Step(s, 0), Step(s, 1), Step(s, 2), Step(s, 3)}
  }

  /** The cells next to some cell of `S`. */
  ghost function Around(S: set<Pos>): set<Pos>
  {
    set s, d: Dir | s in S :: Step(s, d)
  }

  lemma NeighboursAround(S: set<Pos>, s: Pos, before: set<Pos>, after: set<Pos>)
    requires s in S && before <= Around(S) && after <= before + Neighbours(s)
    ensures after <= Around(S)
  {
    forall c | c in Neighbours(s) ensures c in Around(S) {
      var d: Dir :| c == Step(s, d);
    }
  }

  /** A direction in which `c` is entered from a cell of `S`. */
  ghost function EntryDir(c: Pos, S: set<Pos>): (d: Dir)
    requires c in Around(S)
    ensures Back(c, d) in S
  {
    var s, d: Dir :| s in S && c == Step(s, d); d
  }

  /**
   * The tree after frontier n: the cells of `S` belong to frontier n - 1,
   * and every newly reached cell is a neighbour of one of them.
   */
  lemma TreeFrontier(ch: Pos, visited: set<Pos>, reached: set<Pos>, dist: map<Pos, nat>, via: map<Pos, Dir>,
                     S: set<Pos>, n: nat)
    returns (dist': map<Pos, nat>, via': map<Pos, Dir>)
    requires SpanningTree(ch, visited, dist, via) && S <= visited
    requires forall s | s in S :: dist[s] + 1 == n
    requires visited <= reached && reached - visited <= Around(S)
    ensures SpanningTree(ch, reached, dist', via') && Extends(dist, dist', n)
  {
    dist' := map p | p in reached :: if p in visited then dist[p] else n;
    via' := map p | p in reached && p != ch :: if p in visited then via[p] else EntryDir(p, S);
    forall p | p in reached && p != ch
      ensures p in via' && Back(p, via'[p]) in reached && dist'[Back(p, via'[p])] + 1 == dist'[p]
    {
      if p !in visited {
        var q := Back(p, EntryDir(p, S));
        assert q in S && dist[q] + 1 == n;
      }
    }
  }

  /** Edge (s, d) of the pass has been explored. */
  ghost predicate Expanded(s: Pos, d: Dir, done: set<Pos>, cur: Pos, k: int)
  {
    s in done || (s == cur && d < k)
  }

  /** The terrain after the six layer writes of a push (utils.py:115-120). */
  function PushedCell(c: Cell, p: Pos, ch: Pos, target: Pos, dest: Pos): Cell
  {
    var c1 := MovedChar(c, p, ch, target);
    var c2 := if p == target then c1.(movable := 0, empty := 1) else c1;
    if p == dest then c2.(empty := 0, movable := 1) else c2
  }

  /** The character layer after a step from `from` to `to` (utils.py:154-155). */
  function MovedChar(c: Cell, p: Pos, from: Pos, to: Pos): Cell
  {
    var c1 := if p == from then c.(character := 0) else c;
    if p == to then c1.(character := 1) else c1
  }

  /** What make_move adds to the penalty for a legal move onto `c` in direction `d` (utils.py:107-110). */
  function PushPenalty(c: Cell, d: Dir): int
  {
    if IsWin(c) && !IsMovable(c) then c.exitCost else c.Push(d)
  }

  /** Layer 11 after the pass adds the reachable layer into it (utils.py:91). */
  function AddReach(c: Cell): Cell
  {
    c.(visits := c.visits + c.reach)
  }

  /**
   * One edge of the pass: start cell `ch`, the cells reached before and
   * after the arrival, the finished squares, the square being expanded,
   * the direction and the frontier number.
   */
  datatype PassEdge = PassEdge(ch: Pos, visited: set<Pos>, reached: set<Pos>, done: set<Pos>,
                               cur: Pos, k: Dir, n: int)

  lemma AddReachKeepsExitLayer(c: Cell)
    ensures ExitLayerOk(AddReach(c)) == ExitLayerOk(c)
  {
    var r := AddReach(c);
    assert forall d: Dir :: r.Push(d) == c.Push(d);
    assert AtMostOnePush(r) == AtMostOnePush(c);
  }

  class PushPosition {
    const arr: array2<Cell>
    var charLoc: Pos
    var exitLoc: Option<Pos>
    var moves: seq<Move>
    var movesPenalty: int

    ghost predicate Shaped()
    {
      arr.Length0 == Size && arr.Length1 == Size
    }

    function At(p: Pos): Cell
      reads arr
      requires Shaped() && InBounds(p)
    {
      arr[p.x, p.y]
    }

    /** The next cell in direction `d`, None when it is off the board. */
    function BeyondOf(p: Pos, d: Dir): Option<Cell>
      reads arr
      requires Shaped()
    {
      if InBounds(Step(p, d)) then Some(At(Step(p, d))) else None
    }

    /** The cell at `q` holds a box that can be pushed in direction `d`. */
    ghost predicate PushableFrom(q: Pos, d: Dir)
      reads arr
      requires Shaped() && InBounds(q)
    {
      PushableWith(At(q), BeyondOf(q, d))
    }

    /** A cost for direction `d` may be recorded at `p` (utils.py:189-202). */
    ghost predicate Marked(p: Pos, d: Dir)
      reads arr
      requires Shaped() && InBounds(p)
    {
      OpenExit(At(p)) || PushableFrom(p, d)
    }

    // ---------------------------------------------------------------
    // Invariants of a pass in progress

    ghost predicate CellInv(p: Pos, visited: set<Pos>)
      reads arr
      requires Shaped() && InBounds(p)
    {
      At(p).reach == (if p in visited then 1 else 0) && At(p).visits == 0 && ExitLayerOk(At(p))
    }

    ghost predicate CostInv(p: Pos, d: Dir, done: set<Pos>, cur: Pos, k: int)
      reads arr
      requires Shaped() && InBounds(p)
    {
      At(p).Push(d) <= 0 &&
      (At(p).Push(d) != 0 ==> InBounds(Back(p, d)) && Expanded(Back(p, d), d, done, cur, k) && Marked(p, d))
    }

    ghost predicate EdgeHandled(s: Pos, d: Dir, visited: set<Pos>)
      reads arr
      requires Shaped()
    {
      var q := Step(s, d);
      InBounds(q) ==>
        (Open(At(q)) ==> q in visited) &&
        (OpenExit(At(q)) ==> PushSum(At(q)) != 0) &&
        (PushableFrom(q, d) ==> At(q).Push(d) != 0)
    }

    /** Every cell reached so far lies on the board and is the start cell or open space. */
    ghost predicate VisitedOpen(ch: Pos, visited: set<Pos>)
      reads arr
      requires Shaped()
    {
      forall p | p in visited :: InBounds(p) && (p == ch || Open(At(p)))
    }

    ghost predicate AllCellInv(visited: set<Pos>)
      reads arr
      requires Shaped()
    {
      forall p | InBounds(p) :: CellInv(p, visited)
    }

    ghost predicate AllCostInv(done: set<Pos>, cur: Pos, k: int)
      reads arr
      requires Shaped()
    {
      forall p, d | InBounds(p) :: CostInv(p, d, done, cur, k)
    }

    ghost predicate AllEdgesHandled(done: set<Pos>, cur: Pos, k: int, visited: set<Pos>)
      reads arr
      requires Shaped()
    {
      forall s, d | Expanded(s, d, done, cur, k) :: EdgeHandled(s, d, visited)
    }

    /**
     * The pass has finished the squares in `done`, has explored directions
     * 0..k-1 of `cur`, and has reached the cells in `visited`.
     */
    ghost predicate PassInv(ch: Pos, visited: set<Pos>, done: set<Pos>, cur: Pos, k: int)
      reads arr
      requires Shaped()
    {
      && ch in visited && done <= visited
      && VisitedOpen(ch, visited)
      && AllCellInv(visited)
      && AllCostInv(done, cur, k)
      && AllEdgesHandled(done, cur, k, visited)
    }

    // ---------------------------------------------------------------
    // What a finished pass guarantees

    /** A cell's reachable flag, visit counter and exit layer after a pass. */
    ghost predicate Settled(p: Pos, ch: Pos)
      reads arr
      requires Shaped() && InBounds(p)
    {
      (At(p).reach == 0 || At(p).reach == 1) &&
      At(p).visits == At(p).reach &&
      (At(p).reach == 1 ==> p == ch || Open(At(p))) &&
      ExitLayerOk(At(p))
    }

    /** A recorded cost is non-positive and belongs to a reachable approach cell. */
    ghost predicate CostSound(p: Pos, d: Dir)
      reads arr
      requires Shaped() && InBounds(p)
    {
      At(p).Push(d) <= 0 &&
      (At(p).Push(d) != 0 ==> InBounds(Back(p, d)) && At(Back(p, d)).reach == 1 && Marked(p, d))
    }

    /** From reachable `s`, the neighbour in direction `d` was handled. */
    ghost predicate EdgeDone(s: Pos, d: Dir)
      reads arr
      requires Shaped()
    {
      var q := Step(s, d);
      InBounds(q) ==>
        (Open(At(q)) ==> At(q).reach == 1) &&
        (OpenExit(At(q)) ==> PushSum(At(q)) != 0) &&
        (PushableFrom(q, d) ==> At(q).Push(d) != 0)
    }

    /** The cells whose reachable flag is set. */
    ghost function Flagged(): set<Pos>
      reads arr
      requires Shaped()
    {
      set x, y | 0 <= x < Size && 0 <= y < Size && arr[x, y].reach == 1 :: Pos(x, y)
    }

    lemma InFlagged(p: Pos)
      requires Shaped()
      ensures p in Flagged() <==> InBounds(p) && At(p).reach == 1
    {
      if InBounds(p) && At(p).reach == 1 {
        assert p == Pos(p.x, p.y);
      }
    }

    /** Per-cell facts about the layers after a pass from `ch`: flags, costs and handled edges. */
    ghost predicate LayersFrom(ch: Pos)
      reads arr
      requires Shaped()
    {
      && InBounds(ch) && At(ch).reach == 1
      && (forall p | InBounds(p) :: Settled(p, ch))
      && (forall p, d | InBounds(p) :: CostSound(p, d))
      && (forall s, d | InBounds(s) && At(s).reach == 1 :: EdgeDone(s, d))
    }

    /**
     * The derived layers are those a pass from `ch` computes: the layer
     * facts hold, and the flagged cells are spanned by a tree rooted at `ch`.
     */
    ghost predicate AnnotatedFrom(ch: Pos)
      reads arr
      requires Shaped()
    {
      && LayersFrom(ch)
      && exists dist: map<Pos, nat>, via: map<Pos, Dir> :: SpanningTree(ch, Flagged(), dist, via)
    }

    /** `w` starts at `ch` and moves one cell at a time through open space on the board. */
    ghost predicate OpenWalk(ch: Pos, w: seq<Pos>)
      reads arr
      requires Shaped()
    {
      && |w| >= 1 && w[0] == ch
      && forall i | 0 < i < |w| :: InBounds(w[i]) && Open(At(w[i])) && Adjacent(w[i - 1], w[i])
    }

    /** Following the tree back from a flagged cell gives a walk from `ch` to it. */
    lemma WalkBack(ch: Pos, dist: map<Pos, nat>, via: map<Pos, Dir>, p: Pos) returns (w: seq<Pos>)
      requires Shaped() && LayersFrom(ch) && SpanningTree(ch, Flagged(), dist, via) && p in Flagged()
      ensures OpenWalk(ch, w) && w[|w| - 1] == p
      decreases dist[p]
    {
      if p == ch {
        w := [ch];
      } else {
        var q := Back(p, via[p]);
        var w0 := WalkBack(ch, dist, via, q);
        InFlagged(p);
        assert Settled(p, ch);
        w := w0 + [p];
        assert w[|w| - 2] == q;
      }
    }

    /**
     * Every flagged cell of an annotated board is reached from the
     * character by a walk through open space.
     */
    lemma FlaggedReachable(p: Pos) returns (w: seq<Pos>)
      requires Valid() && InBounds(p) && At(p).reach == 1
      ensures OpenWalk(charLoc, w) && w[|w| - 1] == p
    {
      var dist, via :| SpanningTree(charLoc, Flagged(), dist, via);
      InFlagged(p);
      w := WalkBack(charLoc, dist, via, p);
    }

    /**
     * The class invariant: the derived layers are those of a pass from the
     * character, and the character flag is set where `charLoc` points.
     */
    ghost predicate Valid()
      reads this, arr
    {
      Shaped() && AnnotatedFrom(charLoc) && IsChar(At(charLoc))
    }

    // ---------------------------------------------------------------
    // Operations

    /** Resets layers 5..11 of every cell (utils.py:53 and utils.py:78). */
    method ClearDerivedLayers()
      requires Shaped()
      modifies arr
      ensures forall x, y :: 0 <= x < Size && 0 <= y < Size ==> arr[x, y] == ClearDerived(old(arr[x, y]))
    {
      for x := 0 to Size
        invariant forall i, j :: 0 <= i < Size && 0 <= j < Size ==>
          arr[i, j] == if i < x then ClearDerived(old(arr[i, j])) else old(arr[i, j])
      {
        for y := 0 to Size
          invariant forall i, j :: 0 <= i < Size && 0 <= j < Size ==>
            arr[i, j] == if i < x || (i == x && j < y) then ClearDerived(old(arr[i, j])) else old(arr[i, j])
        {
          arr[x, y] := ClearDerived(arr[x, y]);
        }
      }
    }

    /**
     * append_square (utils.py:167-207): examines the neighbour of `square`
     * in direction `d` during frontier `numMoves`, records an arrival there
     * and appends it to the next frontier when it is newly reached open space.
     */
    method AppendSquare(newSquares: seq<Pos>, square: Pos, d: Dir, numMoves: int) returns (ns: seq<Pos>)
      requires Shaped()
      modifies arr
      ensures var c := Step(square, d);
        if !InBounds(c) then ns == newSquares && unchanged(arr)
        else
          var a := Arrive(old(At(c)), old(BeyondOf(c, d)), d, numMoves);
          arr[c.x, c.y] == a.cell && ns == newSquares + (if a.enqueued then [c] else [])
      ensures forall x, y :: 0 <= x < Size && 0 <= y < Size && Pos(x, y) != Step(square, d) ==>
        arr[x, y] == old(arr[x, y])
    {
      var x, y := square.x + DX(d), square.y + DY(d);
      ns := newSquares;
      if !InBounds(Pos(x, y)) {
        return;
      }
      var cell := arr[x, y];
      if IsEmpty(cell) && !IsWin(cell) {
        if cell.reach == 1 {
          return;
        }
        arr[x, y] := cell.(reach := 1);
        ns := newSquares + [Pos(x, y)];
        return;
      }
      if IsWin(cell) && IsEmpty(cell) {
        if PushSum(cell) != 0 {
          return;
        }
        arr[x, y] := cell.WithPush(d, -numMoves).(exitCost := -numMoves);
        return;
      }
      if !InBounds(Pos(x + DX(d), y + DY(d))) {
        return;
      }
      if IsMovable(cell) && IsEmpty(arr[x + DX(d), y + DY(d)]) {
        var pushed := cell.WithPush(d, -numMoves);
        if IsWin(cell) {
          pushed := pushed.(exitCost := BoxExitCost(pushed.exitCost, numMoves));
        }
        arr[x, y] := pushed;
      }
    }

    /**
     * The heap changed from the old state by one arrival of the pass: the
     * neighbour of `e.cur` in direction `e.k` received `Arrive` during
     * frontier `e.n`, and `e.reached` is `e.visited` plus that cell when it
     * was enqueued.
     */
    twostate predicate ArrivalStep(e: PassEdge)
      reads arr
      requires Shaped()
    {
      var c := Step(e.cur, e.k);
      && (forall x, y :: 0 <= x < Size && 0 <= y < Size && Pos(x, y) != c ==> arr[x, y] == old(arr[x, y]))
      && (!InBounds(c) ==> e.reached == e.visited)
      && (InBounds(c) ==>
            At(c) == Arrive(old(At(c)), old(BeyondOf(c, e.k)), e.k, e.n).cell &&
            e.reached == e.visited + (if Arrive(old(At(c)), old(BeyondOf(c, e.k)), e.k, e.n).enqueued then {c} else {}))
    }

    /** The arrival's preconditions: the pass invariant held before it and it changed the heap as ArrivalStep says. */
    twostate predicate ArrivalFrom(e: PassEdge)
      reads arr
      requires Shaped()
    {
      e.n >= 1 && e.cur !in e.done && e.cur in e.visited &&
      old(PassInv(e.ch, e.visited, e.done, e.cur, e.k)) && ArrivalStep(e)
    }

    twostate lemma ArrivalTerrain(e: PassEdge)
      requires Shaped() && ArrivalStep(e)
      ensures forall q | InBounds(q) :: SameTerrain(At(q), old(At(q)))
      ensures forall q, d: Dir | InBounds(q) :: Marked(q, d) == old(Marked(q, d))
      ensures forall q, d: Dir | InBounds(q) :: PushableFrom(q, d) == old(PushableFrom(q, d))
    {
      var c := Step(e.cur, e.k);
      forall q | InBounds(q)
        ensures SameTerrain(At(q), old(At(q)))
      {
        if q != c {
          assert arr[q.x, q.y] == old(arr[q.x, q.y]);
        }
      }
      forall q, d: Dir | InBounds(q)
        ensures Marked(q, d) == old(Marked(q, d)) && PushableFrom(q, d) == old(PushableFrom(q, d))
      {
        if InBounds(Step(q, d)) {
          assert SameTerrain(At(Step(q, d)), old(At(Step(q, d))));
        }
        assert SameTerrain(At(q), old(At(q)));
      }
    }

    /** The cost about to be written by the arrival is still unset, and the cell's costs are non-positive. */
    twostate lemma ArrivalTargetUnset(e: PassEdge)
      requires Shaped() && ArrivalFrom(e) && InBounds(Step(e.cur, e.k))
      ensures old(At(Step(e.cur, e.k))).Push(e.k) == 0
      ensures PushesNonpositive(old(At(Step(e.cur, e.k))))
    {
      var c := Step(e.cur, e.k);
      assert Back(c, e.k) == e.cur;
      assert old(CostInv(c, 0, e.done, e.cur, e.k) && CostInv(c, 1, e.done, e.cur, e.k));
      assert old(CostInv(c, 2, e.done, e.cur, e.k) && CostInv(c, 3, e.done, e.cur, e.k));
      assert old(CostInv(c, e.k, e.done, e.cur, e.k));
    }

    twostate lemma ArrivalKeepsVisited(e: PassEdge)
      requires Shaped() && ArrivalFrom(e)
      ensures VisitedOpen(e.ch, e.reached)
    {
      ArrivalTerrain(e);
      forall p | p in e.reached
        ensures InBounds(p) && (p == e.ch || Open(At(p)))
      {
        if p in e.visited {
          assert old(InBounds(p) && (p == e.ch || Open(At(p))));
          assert SameTerrain(At(p), old(At(p)));
        }
      }
    }

    twostate lemma ArrivalKeepsCells(e: PassEdge)
      requires Shaped() && ArrivalFrom(e)
      ensures AllCellInv(e.reached)
    {
      var c := Step(e.cur, e.k);
      if InBounds(c) {
        ArrivalTargetUnset(e);
        ArriveKeepsExitLayer(old(At(c)), old(BeyondOf(c, e.k)), e.k, e.n);
        assert old(CellInv(c, e.visited));
      }
      forall p | InBounds(p) ensures CellInv(p, e.reached) {
        if p != c {
          assert old(CellInv(p, e.visited));
          assert At(p) == old(At(p));
        }
      }
    }

    twostate lemma ArrivalKeepsCosts(e: PassEdge)
      requires Shaped() && ArrivalFrom(e)
      ensures AllCostInv(e.done, e.cur, e.k + 1)
    {
      var c := Step(e.cur, e.k);
      var k1 := e.k + 1;
      assert Back(c, e.k) == e.cur && InBounds(e.cur);
      ArrivalTerrain(e);
      if InBounds(c) {
        ArrivalTargetUnset(e);
      }
      forall p, d: Dir | InBounds(p) ensures CostInv(p, d, e.done, e.cur, k1) {
        assert old(CostInv(p, d, e.done, e.cur, e.k));
        assert Marked(p, d) == old(Marked(p, d));
        if p != c {
          assert At(p) == old(At(p));
        }
      }
    }

    /** The edge just explored is handled. */
    twostate lemma ArrivalHandlesEdge(e: PassEdge)
      requires Shaped() && ArrivalFrom(e)
      ensures EdgeHandled(e.cur, e.k, e.reached)
    {
      var c := Step(e.cur, e.k);
      if InBounds(c) {
        ArrivalTerrain(e);
        ArrivalTargetUnset(e);
        assert old(CellInv(c, e.visited));
        assert PushableFrom(c, e.k) == old(PushableFrom(c, e.k));
        if OpenExit(old(At(c))) {
          ArriveRecordsExit(old(At(c)), old(BeyondOf(c, e.k)), e.k, e.n);
        }
      }
    }

    /** Edges handled before the arrival stay handled. */
    twostate lemma ArrivalKeepsOldEdges(e: PassEdge)
      requires Shaped() && ArrivalFrom(e)
      ensures AllEdgesHandled(e.done, e.cur, e.k, e.reached)
    {
      var c := Step(e.cur, e.k);
      ArrivalTerrain(e);
      forall s, d: Dir | Expanded(s, d, e.done, e.cur, e.k)
        ensures EdgeHandled(s, d, e.reached)
      {
        var q := Step(s, d);
        assert old(EdgeHandled(s, d, e.visited));
        if InBounds(q) {
          assert PushableFrom(q, d) == old(PushableFrom(q, d));
          if q != c {
            assert At(q) == old(At(q));
          }
        }
      }
    }

    twostate lemma ArrivalKeepsEdges(e: PassEdge)
      requires Shaped() && ArrivalFrom(e)
      ensures AllEdgesHandled(e.done, e.cur, e.k + 1, e.reached)
    {
      ArrivalHandlesEdge(e);
      ArrivalKeepsOldEdges(e);
      var k1 := e.k + 1;
      forall s, d: Dir | Expanded(s, d, e.done, e.cur, k1)
        ensures EdgeHandled(s, d, e.reached)
      {
        if !(s == e.cur && d == e.k) {
          assert Expanded(s, d, e.done, e.cur, e.k);
        }
      }
    }

    /** One arrival keeps the pass invariant and completes edge (cur, k). */
    twostate lemma ArrivalKeepsPassInv(e: PassEdge)
      requires Shaped() && ArrivalFrom(e)
      ensures PassInv(e.ch, e.reached, e.done, e.cur, e.k + 1)
      ensures e.reached == e.visited || Step(e.cur, e.k) !in e.visited
      ensures TerrainKept()
    {
      ArrivalTerrain(e);
      var c := Step(e.cur, e.k);
      if InBounds(c) {
        assert old(CellInv(c, e.visited));
      }
      forall x, y | 0 <= x < Size && 0 <= y < Size ensures SameTerrain(arr[x, y], old(arr[x, y])) {
        assert InBounds(Pos(x, y));
      }
      ArrivalKeepsVisited(e);
      ArrivalKeepsCells(e);
      ArrivalKeepsCosts(e);
      ArrivalKeepsEdges(e);
    }

    // ---------------------------------------------------------------
    // The whole pass

    /** The board just after clearing layers 5..11 and marking the start cell reachable. */
    ghost predicate Fresh(ch: Pos)
      reads arr
      requires Shaped()
    {
      forall p | InBounds(p) ::
        At(p).reach == (if p == ch then 1 else 0) && At(p).visits == 0 && At(p).exitCost == 0 &&
        At(p).push0 == 0 && At(p).push1 == 0 && At(p).push2 == 0 && At(p).push3 == 0
    }

    lemma StartInv(ch: Pos)
      requires Shaped() && InBounds(ch) && Fresh(ch)
      ensures PassInv(ch, {ch}, {}, ch, 0)
    {
      forall p | InBounds(p) ensures CellInv(p, {ch}) {
        assert At(p).exitCost == 0;
      }
    }

    /** With no direction explored, which square is current does not matter. */
    lemma SwitchCur(ch: Pos, visited: set<Pos>, done: set<Pos>, a: Pos, b: Pos)
      requires Shaped() && PassInv(ch, visited, done, a, 0)
      ensures PassInv(ch, visited, done, b, 0)
    {
      forall p, d: Dir | InBounds(p) ensures CostInv(p, d, done, b, 0) {
        assert CostInv(p, d, done, a, 0);
      }
      forall s, d: Dir | Expanded(s, d, done, b, 0) ensures EdgeHandled(s, d, visited) {
        assert Expanded(s, d, done, a, 0);
      }
    }

    /** Once its four directions are explored, a square is finished. */
    lemma FinishSquare(ch: Pos, visited: set<Pos>, done: set<Pos>, cur: Pos)
      requires Shaped() && cur in visited && PassInv(ch, visited, done, cur, 4)
      ensures PassInv(ch, visited, done + {cur}, ch, 0)
    {
      var done' := done + {cur};
      forall p, d: Dir | InBounds(p) ensures CostInv(p, d, done', ch, 0) {
        assert CostInv(p, d, done, cur, 4);
      }
      forall s, d: Dir | Expanded(s, d, done', ch, 0) ensures EdgeHandled(s, d, visited) {
        assert Expanded(s, d, done, cur, 4);
      }
    }

    /** Layers 0..4 are those of the state on entry. */
    twostate predicate TerrainKept()
      reads arr
      requires Shaped()
    {
      forall x, y :: 0 <= x < Size && 0 <= y < Size ==> SameTerrain(arr[x, y], old(arr[x, y]))
    }

    /** Adds layer 5 into layer 11 (utils.py:91). */
    method AddReachLayer()
      requires Shaped()
      modifies arr
      ensures forall x, y :: 0 <= x < Size && 0 <= y < Size ==> arr[x, y] == AddReach(old(arr[x, y]))
    {
      for x := 0 to Size
        invariant forall i, j :: 0 <= i < Size && 0 <= j < Size ==>
          arr[i, j] == if i < x then AddReach(old(arr[i, j])) else old(arr[i, j])
      {
        for y := 0 to Size
          invariant forall i, j :: 0 <= i < Size && 0 <= j < Size ==>
            arr[i, j] == if i < x || (i == x && j < y) then AddReach(old(arr[i, j])) else old(arr[i, j])
        {
          arr[x, y] := AddReach(arr[x, y]);
        }
      }
    }

    /**
     * A pass that has finished every square it reached (`e.done` is
     * `e.visited`), followed by adding layer 5 into layer 11, leaves the
     * board annotated from `e.ch`.
     */
    twostate lemma PassDone(e: PassEdge)
      requires Shaped() && e.done == e.visited
      requires old(PassInv(e.ch, e.visited, e.done, e.ch, 0))
      requires forall x, y :: 0 <= x < Size && 0 <= y < Size ==> arr[x, y] == AddReach(old(arr[x, y]))
      ensures LayersFrom(e.ch) && Flagged() == e.visited
    {
      forall p | InBounds(p) ensures At(p) == AddReach(old(At(p))) && old(CellInv(p, e.visited)) {
        assert arr[p.x, p.y] == AddReach(old(arr[p.x, p.y]));
      }
      forall q, d: Dir | InBounds(q) ensures Marked(q, d) == old(Marked(q, d)) {
        if InBounds(Step(q, d)) {
          assert At(Step(q, d)) == AddReach(old(At(Step(q, d))));
        }
      }
      forall p | InBounds(p) ensures Settled(p, e.ch) {
        AddReachKeepsExitLayer(old(At(p)));
        if At(p).reach == 1 {
          assert old(p == e.ch || Open(At(p)));
        }
      }
      forall p, d: Dir | InBounds(p) ensures CostSound(p, d) {
        assert old(CostInv(p, d, e.done, e.ch, 0));
        if At(p).Push(d) != 0 {
          assert old(CellInv(Back(p, d), e.visited));
        }
      }
      forall s, d: Dir | InBounds(s) && At(s).reach == 1 ensures EdgeDone(s, d) {
        assert old(CellInv(s, e.visited));
        assert old(EdgeHandled(s, d, e.visited));
        var q := Step(s, d);
        if InBounds(q) {
          assert old(CellInv(q, e.visited));
          assert PushableFrom(q, d) == old(PushableFrom(q, d)) by {
            if InBounds(Step(q, d)) {
              assert At(Step(q, d)) == AddReach(old(At(Step(q, d))));
            }
          }
        }
      }
      forall p | p in e.visited ensures p in Flagged() {
        InFlagged(p);
      }
      forall p | p in Flagged() ensures p in e.visited {
        InFlagged(p);
      }
    }

    /**
     * One append_square call of the pass together with its proof: the pass
     * invariant advances from direction `m` to `m + 1` of `square`.
     */
    method ExploreEdge(ns: seq<Pos>, square: Pos, m: Dir, numberMoves: int,
                       ghost visited: set<Pos>, ghost done: set<Pos>)
      returns (ns': seq<Pos>, ghost reached: set<Pos>)
      requires Shaped() && numberMoves >= 1 && square in visited && square !in done
      requires PassInv(charLoc, visited, done, square, m)
      requires Distinct(ns) && Elems(ns) <= visited
      modifies arr
      ensures PassInv(charLoc, reached, done, square, m + 1) && TerrainKept()
      ensures Distinct(ns') && Elems(ns) <= Elems(ns')
      ensures reached == visited + Elems(ns') && reached - visited == Elems(ns') - Elems(ns)
      ensures reached == visited || (Step(square, m) !in visited && reached == visited + {Step(square, m)})
    {
      ns' := AppendSquare(ns, square, m, numberMoves);
      reached := visited;
      if |ns'| > |ns| {
        reached := reached + {Step(square, m)};
      }
      ArrivalKeepsPassInv(PassEdge(charLoc, visited, reached, done, square, m, numberMoves));
      if |ns'| > |ns| {
        assert Elems(ns') == Elems(ns) + {Step(square, m)};
      } else {
        assert ns' == ns;
      }
    }

    /**
     * The four append_square calls for one square of the frontier
     * (utils.py:87-89). `visited` and `reached` are the cells reached
     * before and after; the new ones are appended to the next frontier.
     */
    method ExpandSquare(square: Pos, numberMoves: int, newSquares: seq<Pos>,
                        ghost visited: set<Pos>, ghost done: set<Pos>)
      returns (ns: seq<Pos>, ghost reached: set<Pos>)
      requires Shaped() && numberMoves >= 1 && square in visited && square !in done
      requires PassInv(charLoc, visited, done, charLoc, 0)
      requires Distinct(newSquares) && Elems(newSquares) <= visited
      modifies arr
      ensures PassInv(charLoc, reached, done + {square}, charLoc, 0) && TerrainKept()
      ensures Distinct(ns) && Elems(newSquares) <= Elems(ns)
      ensures reached == visited + Elems(ns) && reached - visited == Elems(ns) - Elems(newSquares)
      ensures reached - visited <= Neighbours(square) && Elems(ns) <= Elems(newSquares) + Neighbours(square)
    {
      SwitchCur(charLoc, visited, done, charLoc, square);
      ns, reached := newSquares, visited;
      for m := 0 to 4
        invariant PassInv(charLoc, reached, done, square, m) && TerrainKept()
        invariant Distinct(ns) && Elems(newSquares) <= Elems(ns)
        invariant reached == visited + Elems(ns) && reached - visited == Elems(ns) - Elems(newSquares)
        invariant reached - visited <= Neighbours(square)
      {
        label Before:
        ns, reached := ExploreEdge(ns, square, m, numberMoves, reached, done);
        forall x, y | 0 <= x < Size && 0 <= y < Size ensures SameTerrain(arr[x, y], old(arr[x, y])) {
          assert SameTerrain(old@Before(arr[x, y]), old(arr[x, y]));
        }
      }
      FinishSquare(charLoc, reached, done, square);
    }

    /**
     * One frontier of assign_pushes (utils.py:84-90): every square of
     * `squares` is expanded in turn; returns the next frontier.
     */
    method ExpandFrontier(squares: seq<Pos>, numberMoves: int, ghost visited: set<Pos>, ghost done: set<Pos>)
      returns (newSquares: seq<Pos>, ghost reached: set<Pos>)
      requires Shaped() && numberMoves >= 1
      requires PassInv(charLoc, visited, done, charLoc, 0)
      requires visited == done + Elems(squares) && done !! Elems(squares) && Distinct(squares)
      modifies arr
      ensures PassInv(charLoc, reached, done + Elems(squares), charLoc, 0) && TerrainKept()
      ensures reached == done + Elems(squares) + Elems(newSquares)
      ensures Elems(newSquares) !! done + Elems(squares) && Distinct(newSquares)
      ensures Elems(newSquares) <= Around(Elems(squares))
    {
      newSquares, reached := [], visited;
      ghost var finished := done;
      for i := 0 to |squares|
        invariant PassInv(charLoc, reached, finished, charLoc, 0) && TerrainKept()
        invariant Elems(newSquares) <= Around(Elems(squares))
        invariant finished == done + Elems(squares[..i])
        invariant reached == done + Elems(squares) + Elems(newSquares)
        invariant Elems(newSquares) !! done + Elems(squares) && Distinct(newSquares)
      {
        var square := squares[i];
        assert square !in finished;
        assert Elems(squares[..i + 1]) == Elems(squares[..i]) + {square} by {
          assert squares[..i + 1] == squares[..i] + [square];
        }
        label Expand:
        var ns;
        ns, reached := ExpandSquare(square, numberMoves, newSquares, reached, finished);
        NeighboursAround(Elems(squares), square, Elems(newSquares), Elems(ns));
        forall x, y | 0 <= x < Size && 0 <= y < Size ensures SameTerrain(arr[x, y], old(arr[x, y])) {
          assert SameTerrain(old@Expand(arr[x, y]), old(arr[x, y]));
        }
        finished := finished + {square};
        newSquares := ns;
      }
      assert squares[..|squares|] == squares;
    }

    /**
     * The frontier loop of assign_pushes (utils.py:80-90), from the start
     * cell alone until no square is left; returns the set of cells reached.
     */
    method Search() returns (ghost visited: set<Pos>, ghost dist: map<Pos, nat>, ghost via: map<Pos, Dir>)
      requires Shaped() && InBounds(charLoc) && PassInv(charLoc, {charLoc}, {}, charLoc, 0)
      modifies arr
      ensures PassInv(charLoc, visited, visited, charLoc, 0) && TerrainKept()
      ensures SpanningTree(charLoc, visited, dist, via)
    {
      visited, dist, via := {charLoc}, map[charLoc := 0], map[];
      ghost var done: set<Pos> := {};
      var numberMoves := 0;
      var squares := [charLoc];
      while |squares| > 0
        invariant PassInv(charLoc, visited, done, charLoc, 0) && TerrainKept()
        invariant visited == done + Elems(squares) && done !! Elems(squares) && Distinct(squares)
        invariant numberMoves >= 0
        invariant SpanningTree(charLoc, visited, dist, via)
        invariant forall s | s in Elems(squares) :: dist[s] == numberMoves
        decreases |AllCells() - done|
      {
        numberMoves := numberMoves + 1;
        label Frontier:
        var newSquares;
        ghost var reached;
        newSquares, reached := ExpandFrontier(squares, numberMoves, visited, done);
        ghost var dist', via' := TreeFrontier(charLoc, visited, reached, dist, via, Elems(squares), numberMoves);
        forall x, y | 0 <= x < Size && 0 <= y < Size ensures SameTerrain(arr[x, y], old(arr[x, y])) {
          assert SameTerrain(old@Frontier(arr[x, y]), old(arr[x, y]));
        }
        forall p | p in visited ensures p in AllCells() {
          InAllCells(p);
        }
        assert squares[0] in Elems(squares);
        FrontierShrinks(AllCells(), done, Elems(squares));
        done, visited, dist, via := done + Elems(squares), reached, dist', via';
        squares := newSquares;
      }
    }

    /**
     * assign_pushes (utils.py:72-91): clears the derived layers, then runs
     * the breadth-first pass from the character, frontier by frontier, and
     * finally adds the reachable layer into the visit counter.
     */
    method AssignPushes()
      requires Shaped() && InBounds(charLoc)
      modifies arr
      ensures AnnotatedFrom(charLoc) && TerrainKept()
    {
      ClearDerivedLayers();
      arr[charLoc.x, charLoc.y] := arr[charLoc.x, charLoc.y].(reach := 1);
      StartInv(charLoc);
      label Cleared:
      ghost var visited, dist, via := Search();
      label Searched:
      AddReachLayer();
      PassDone@Searched(PassEdge(charLoc, visited, visited, visited, charLoc, 0, 0));
      assert SpanningTree(charLoc, Flagged(), dist, via);
      forall x, y | 0 <= x < Size && 0 <= y < Size ensures SameTerrain(arr[x, y], old(arr[x, y])) {
        assert SameTerrain(old@Searched(arr[x, y]), old@Cleared(arr[x, y]));
      }
    }

    // ---------------------------------------------------------------
    // Construction and moves

    /**
     * __init__ (utils.py:33-55): the board array is taken over (and
     * updated in place), the character and the exit are located by the
     * row-major scan, the derived layers are cleared and the pass is run.
     */
    constructor (init: array2<Cell>)
      requires init.Length0 == Size && init.Length1 == Size
      requires exists x, y :: 0 <= x < Size && 0 <= y < Size && IsChar(init[x, y])
      modifies init
      ensures arr == init && Valid()
      ensures LastMatch(arr, 2, Pos(Size, 0), Some(charLoc)) && LastMatch(arr, 3, Pos(Size, 0), exitLoc)
      ensures moves == [] && movesPenalty == 0
      ensures forall x, y :: 0 <= x < Size && 0 <= y < Size ==> SameTerrain(arr[x, y], old(init[x, y]))
    {
      var ch, ex := ScanBoard(init);
      if ch.None? {
        assert false;
      }
      arr := init;
      charLoc := ch.value;
      exitLoc := ex;
      moves := [];
      movesPenalty := 0;
      new;
      ClearDerivedLayers();
      label Cleared:
      AssignPushes();
      forall x, y | 0 <= x < Size && 0 <= y < Size
        ensures SameTerrain(arr[x, y], old(init[x, y]))
        ensures HasFlag(arr[x, y], 2) == HasFlag(old(init[x, y]), 2)
        ensures HasFlag(arr[x, y], 3) == HasFlag(old(init[x, y]), 3)
      {
        assert SameTerrain(old@Cleared(arr[x, y]), old(init[x, y]));
      }
    }

    /** The move (x, y, d) has a cost recorded: make_move accepts it (utils.py:100). */
    ghost predicate Legal(p: Pos, d: Dir)
      reads arr
      requires Shaped()
    {
      InBounds(p) && At(p).Push(d) != 0
    }

    /**
     * In an annotated board a recorded push onto a cell that is not an exit
     * is a box with empty space behind it, on the board.
     */
    lemma LegalPushHasRoom(p: Pos, d: Dir)
      requires Valid() && Legal(p, d) && !IsWin(At(p))
      ensures InBounds(Step(p, d)) && IsMovable(At(p)) && IsEmpty(At(Step(p, d)))
    {
      assert CostSound(p, d);
    }

    /**
     * The six layer writes of a push (utils.py:115-120): the character
     * leaves `from` for `target`, whose box moves on to `dest`.
     */
    method PushWrites(from: Pos, target: Pos, dest: Pos)
      requires Shaped() && InBounds(from) && InBounds(target) && InBounds(dest)
      modifies arr
      ensures forall i, j :: 0 <= i < Size && 0 <= j < Size ==>
        arr[i, j] == PushedCell(old(arr[i, j]), Pos(i, j), from, target, dest)
    {
      arr[from.x, from.y] := arr[from.x, from.y].(character := 0);
      arr[target.x, target.y] := arr[target.x, target.y].(movable := 0, character := 1, empty := 1);
      arr[dest.x, dest.y] := arr[dest.x, dest.y].(empty := 0, movable := 1);
    }

    /**
     * make_move (utils.py:96-124): a pushwise move at (x, y) in direction
     * `d`. Illegal moves change nothing. A legal move is logged and its
     * recorded cost is added to the penalty (layer 10 for an exit with
     * nothing on it). A move onto an exit wins without changing the board;
     * otherwise the box moves one cell on, the character takes its place
     * and the pass is rerun.
     */
    method MakeMove(x: int, y: int, d: Dir) returns (o: Outcome)
      requires Valid()
      modifies this, arr
      ensures Valid() && exitLoc == old(exitLoc)
      ensures o == Illegal <==> !old(Legal(Pos(x, y), d))
      ensures o == Illegal ==>
        unchanged(this) && unchanged(arr)
      ensures o != Illegal ==>
        moves == old(moves) + [Move(x, y, d)] &&
        movesPenalty == old(movesPenalty) + PushPenalty(old(At(Pos(x, y))), d)
      ensures o == Won <==> o != Illegal && old(IsWin(At(Pos(x, y))))
      ensures o == Won ==> charLoc == old(charLoc) && unchanged(arr)
      ensures o == Pushed ==>
        charLoc == Pos(x, y) &&
        forall i, j :: 0 <= i < Size && 0 <= j < Size ==>
          SameTerrain(arr[i, j], PushedCell(old(arr[i, j]), Pos(i, j), old(charLoc), Pos(x, y), Step(Pos(x, y), d)))
    {
      var p := Pos(x, y);
      if !InBounds(p) || arr[x, y].Push(d) == 0 {
        return Illegal;
      }
      moves := moves + [Move(x, y, d)];
      if IsWin(arr[x, y]) && !IsMovable(arr[x, y]) {
        movesPenalty := movesPenalty + arr[x, y].exitCost;
        return Won;
      }
      movesPenalty := movesPenalty + arr[x, y].Push(d);
      if IsWin(arr[x, y]) {
        return Won;
      }
      LegalPushHasRoom(p, d);
      var dest := Step(p, d);
      PushWrites(charLoc, p, dest);
      label Moved:
      charLoc := p;
      AssignPushes();
      forall i, j | 0 <= i < Size && 0 <= j < Size
        ensures SameTerrain(arr[i, j], PushedCell(old(arr[i, j]), Pos(i, j), old(charLoc), p, dest))
      {
        assert SameTerrain(old@Moved(arr[i, j]), PushedCell(old(arr[i, j]), Pos(i, j), old(charLoc), p, dest));
      }
      return Pushed;
    }

    /**
     * make_move_number (utils.py:126-135): decodes a network move number
     * relative to the character and makes that move.
     */
    method MakeMoveNumber(move: int) returns (o: Outcome)
      requires Valid()
      modifies this, arr
      ensures Valid() && exitLoc == old(exitLoc)
      ensures var m := DecodeMove(move, old(charLoc));
        && (o == Illegal <==> !old(Legal(Pos(m.x, m.y), m.direction)))
        && (o != Illegal ==>
              moves == old(moves) + [m] &&
              movesPenalty == old(movesPenalty) + PushPenalty(old(At(Pos(m.x, m.y))), m.direction))
      ensures o == Illegal ==> unchanged(this) && unchanged(arr)
      ensures var m := DecodeMove(move, old(charLoc));
        o == Won <==> o != Illegal && old(IsWin(At(Pos(m.x, m.y))))
      ensures o == Won ==> charLoc == old(charLoc) && unchanged(arr)
      ensures var m := DecodeMove(move, old(charLoc)); var p := Pos(m.x, m.y);
        o == Pushed ==>
          charLoc == p &&
          forall i, j :: 0 <= i < Size && 0 <= j < Size ==>
            SameTerrain(arr[i, j], PushedCell(old(arr[i, j]), Pos(i, j), old(charLoc), p, Step(p, m.direction)))
      ensures move < 0 || move >= NumLabels ==> o == Illegal
    {
      var m := DecodeMove(move, charLoc);
      if move < 0 || move >= NumLabels {
        DecodeOutOfRange(move, charLoc);
      }
      o := MakeMove(m.x, m.y, m.direction);
    }

    /**
     * The plain step of move_in_direction (utils.py:154-159): the character
     * walks to `q`, the pass is rerun and one move of penalty is charged.
     */
    method StepTo(q: Pos)
      requires Shaped() && InBounds(charLoc) && InBounds(q)
      modifies this, arr
      ensures Valid() && exitLoc == old(exitLoc)
      ensures charLoc == q && moves == old(moves) && movesPenalty == old(movesPenalty) + 1
      ensures forall i, j :: 0 <= i < Size && 0 <= j < Size ==>
        SameTerrain(arr[i, j], MovedChar(old(arr[i, j]), Pos(i, j), old(charLoc), q))
    {
      arr[charLoc.x, charLoc.y] := arr[charLoc.x, charLoc.y].(character := 0);
      arr[q.x, q.y] := arr[q.x, q.y].(character := 1);
      label Stepped:
      charLoc := q;
      AssignPushes();
      movesPenalty := movesPenalty + 1;
      forall i, j | 0 <= i < Size && 0 <= j < Size
        ensures SameTerrain(arr[i, j], MovedChar(old(arr[i, j]), Pos(i, j), old(charLoc), q))
      {
        assert SameTerrain(old@Stepped(arr[i, j]), MovedChar(old(arr[i, j]), Pos(i, j), old(charLoc), q));
      }
    }

    /**
     * move_in_direction (utils.py:137-164): a single step of the character
     * for gameplay. A step onto a cell without a recorded cost in that
     * direction walks there unless the cell holds a box or a wall; a step
     * with a recorded cost is made as the push (or win) at that cell. Both
     * cost one move of penalty.
     */
    method MoveInDirection(d: Dir) returns (legal: bool)
      requires Valid()
      modifies this, arr
      ensures Valid() && exitLoc == old(exitLoc)
      ensures var q := Step(old(charLoc), d);
        legal <==> (InBounds(q) && (old(Legal(q, d)) || !(old(IsUnmovable(At(q))) || old(IsMovable(At(q))))))
      ensures !legal ==> unchanged(this) && unchanged(arr)
      ensures var q := Step(old(charLoc), d);
        legal && !old(Legal(q, d)) ==>
          && charLoc == q && moves == old(moves) && movesPenalty == old(movesPenalty) + 1
          && forall i, j :: 0 <= i < Size && 0 <= j < Size ==>
               SameTerrain(arr[i, j], MovedChar(old(arr[i, j]), Pos(i, j), old(charLoc), q))
      ensures var q := Step(old(charLoc), d);
        old(Legal(q, d)) ==>
          moves == old(moves) + [Move(q.x, q.y, d)] &&
          movesPenalty == old(movesPenalty) + 1 + PushPenalty(old(At(q)), d)
    {
      var q := Step(charLoc, d);
      if !InBounds(q) {
        return false;
      }
      if arr[q.x, q.y].Push(d) == 0 {
        if IsUnmovable(arr[q.x, q.y]) || IsMovable(arr[q.x, q.y]) {
          return false;
        }
        StepTo(q);
        return true;
      }
      movesPenalty := movesPenalty + 1;
      var _ := MakeMove(q.x, q.y, d);
      return true;
    }
  }
}
