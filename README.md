# Pushing-puzzle board engine, modelled in Dafny

This project models the board engine of a Sokoban-style pushing puzzle (`utils.py`).
The engine is used to generate training data for a move-prediction network.

- **Board.** A 20 × 20 grid of cells. Each cell carries twelve integer layers:
  - terrain flags: unmovable, movable box, character, exit ("win") and empty;
  - a reachable flag;
  - four directional push costs, each minus the number of moves needed to push from that side;
  - a best-exit cost;
  - a visit counter.
- **Other state.** The character's location, a log of pushwise moves and a running move penalty.

The project has four modules:

- `Grid` (grid.dfy)
  - Holds the cell datatype, the four directions and their offsets, and the terrain predicates.
  - `Arrive` is the one-cell update that the reachability pass makes when it reaches a neighbouring cell (`append_square`).
- `Position` (position.dfy)
  - Holds the class `PushPosition`, whose board is an `array2<Cell>` updated in place.
  - The constructor scans for the character and the exit.
  - `AssignPushes` is the frontier-by-frontier reachability pass. It is split along the source's own loops: `Search` is the `while` loop, `ExpandFrontier` the loop over a frontier, `ExpandSquare` the loop over the four directions, and `ExploreEdge` one `append_square` call.
  - It also holds the pushwise move `MakeMove`, the move-number move `MakeMoveNumber` and the single step `MoveInDirection`.
  - `AssignPushes` is proved to leave the board *annotated*:
    - the reachable flags mark exactly the cells reached through open space from the character: every flagged cell is the end of a walk of adjacent open cells from the character, and every open neighbour of a flagged cell is flagged;
    - every recorded push cost is non-positive, belongs to an edge from a reachable cell, and is recorded only for an empty exit or for a box with empty space behind it;
    - every edge out of a reachable cell was handled;
    - layer 10 agrees with the push costs under the corrected update of a box on an exit (see Findings);
    - the visit counter equals the reachable flag.
  - Every move keeps the board annotated and keeps the character flag at the stored character location.
- `Codec` (codec.dfy)
  - Move labels relative to the character, in the centered frame of side 39.
  - Their flattening into a network index, and its decoding in `make_move_number`.
  - The label rotation `rotate_once` and the reflection of `y_rotations`, and the matching maps of frame cells: a transformed label names the transformed box cell and the transformed cell beyond it.
  - One-hot vectors.
- `Symmetry` (symmetry.dfy)
  - `centered`, of any board and of the live board of a position.
  - The eight dihedral images of a state that `x_rotations` appends: quarter turns that roll the cost layers, and a reflection that flips them.
  - Lock-step lemmas: the k-th image of a state and the k-th label of `y_rotations` name the same cell and the same push cost.

Four behaviours of the code are easy to misread; the model follows the code:

- The penalty adds the stored cost, which is negative, so it decreases.
- A push onto a box that already stands on an exit returns WIN and moves nothing.
- Pushing a box onto an exit returns PUSH.
- Layer 11 is cleared with the other derived layers at the start of every pass, so it equals the reachable flag afterwards rather than counting passes.

## Model

| member | source | states |
|---|---|---|
| `Grid.InBounds` | utils.py:93-94 | Holds exactly when both coordinates lie in `[0, 20)`. |
| `Grid.IsUnmovable` | utils.py:57-58 | Holds exactly when layer 0 (wall) of the cell is 1. |
| `Grid.IsMovable` | utils.py:60-61 | Holds exactly when layer 1 (box) of the cell is 1. |
| `Grid.IsChar` | utils.py:63-64 | Holds exactly when layer 2 (character) of the cell is 1. |
| `Grid.IsWin` | utils.py:66-67 | Holds exactly when layer 3 (exit) of the cell is 1. |
| `Grid.IsEmpty` | utils.py:69-70 | Holds exactly when layer 4 (empty) of the cell is 1. |
| `Grid.ClearDerived` | utils.py:78 | Sets layers 5 to 11 of a cell to 0. Its ensures state that the terrain is kept and that the reachable flag, the four costs, layer 10 and the visit counter are all 0. |
| `Grid.Arrive` | utils.py:176-207 | One arrival leaves the terrain alone. It enqueues exactly the open cells not yet reached, and sets their flag. It writes at most the cost for the arrival direction, as `-n`, and only on an exit with nothing on it or on a box with empty space beyond. An unmarked exit gets that cost on layer 10 too. A pushable box always gets it. Layer 10 changes only for an unmarked exit or a pushable box on an exit, which gets the corrected update `-n` when unset and the larger cost otherwise. Any other cell is unchanged. |
| `Grid.ArriveKeepsExitLayer` | utils.py:189-207 | When the cost being written is still unset, an arrival keeps every cost non-positive and layer 10 consistent: an empty exit has at most one cost, equal to layer 10. A box on an exit has layer 10 equal to its best (shortest) recorded approach. |
| `Grid.ArriveRecordsExit` | utils.py:189-197 | After any arrival at an empty exit, some approach cost is recorded there. |
| `Grid.ArriveAsWritten` | utils.py:176-207 | The arrival exactly as the code writes it. It enqueues the same cells and writes the same cell as `Arrive`, except layer 10. The two differ only for a pushable box on an exit, where layer 10 becomes `max(layer10, -n)`. |
| `Grid.ExitFirstArrivalOnly` | utils.py:189-192 | Once an empty exit has a cost, later arrivals from any direction leave the cell unchanged. |
| `Grid.BoxExitCostAsWritten` | utils.py:207 | Computes `max(layer10, -n)`, as the code writes it. `BoxExitCostAsWrittenLosesApproach` shows that after the clear of the pass it leaves 0. |
| `Grid.BoxExitCostAsWrittenLosesApproach` | utils.py:206-207 | As written, layer 10 of a box on an exit stays 0, although the box gets push cost `-n`. The corrected update records `-n` on layer 10. |
| `Codec.EncodeLabel` | utils.py:314 | Computes the index `4·39·x + 4·y + d` of a label. `EncodeInRange` bounds it for labels in the frame. `DecodeEncode` and `EncodeDecode` show that `DecodeMove` inverts it. |
| `Codec.DecodeMove` | utils.py:132-134 | Splits a move number into `number / 156`, `(number % 156) / 4` and `number % 4`, and shifts the first two by the character's location minus 19. Its properties are `DecodeEncode` and `EncodeDecode`. |
| `Codec.EncodeInRange` | utils.py:312-314 | Every label in the centered frame encodes to an index in `[0, 39·39·4)`. |
| `Codec.DecodeEncode` | utils.py:132-134 | Decoding the index of a move's relative label against the same character location gives back the move `(x, y, direction)`. |
| `Codec.EncodeDecode` | utils.py:132-134 | Every index in range decodes to a move whose relative label is in the frame and encodes back to that index. |
| `Codec.DecodeOutOfRange` | utils.py:132-134 | Against a character on the board, a move number outside `[0, 39·39·4)` decodes to a target off the board. |
| `Codec.Onehot` | utils.py:367-370 | The vector has the requested length, a 1 at the index and 0 everywhere else. |
| `Codec.OnehotDeterminesIndex` | utils.py:367-370 | Equal one-hot vectors have equal indices, so a label vector determines its label. |
| `Codec.RotateOnce` | utils.py:300-302 | Maps the label `(x, y, d)` to `(38 - y, x, (d - 1) mod 4)`. Its properties are `LabelMapsInFrame`, `RotateOnceCells`, `RotateFourTimes` and, with the state, `Symmetry.RotateLockStep`. |
| `Codec.ReflectLabel` | utils.py:316-317 | Maps the label `(x, y, d)` to `(y, x, 3 - d)`. Its properties are `LabelMapsInFrame`, `ReflectLabelCells`, `ReflectTwice` and, with the state, `Symmetry.ReflectLockStep`. |
| `Codec.RotateOnceCells` | utils.py:300-302 | After `rotate_once`, the label names the quarter-turned box cell and the quarter-turned cell beyond it. |
| `Codec.ReflectLabelCells` | utils.py:316-317 | After the reflection, the label names the reflected box cell and the reflected cell beyond it. |
| `Codec.LabelMapsInFrame` | utils.py:300-317 | The rotation and the reflection map labels in the centered frame into it. |
| `Codec.RotateFourTimes` | utils.py:300-302 | `rotate_once` applied four times is the identity on `(x, y, direction)`. |
| `Codec.ReflectTwice` | utils.py:316-317 | The reflection `(x, y, d) -> (y, x, 3 - d)` is an involution. |
| `Codec.LabelVariantInFrame` | utils.py:313-320 | All eight labels that `y_rotations` emits lie in the frame. |
| `Codec.RotateLabelNCells` | utils.py:300-302 | k applications of `rotate_once` move the label's box cell and the cell beyond it as k quarter turns of the frame do. |
| `Codec.LabelVariantCells` | utils.py:313-320 | The k-th label of `y_rotations` names the k-th symmetric image of the box cell and of the cell beyond it. |
| `Codec.YRotations` | utils.py:305-322 | Appends exactly eight vectors and keeps the earlier ones. Vector k is the one-hot vector of the k-th symmetric image of the label. |
| `Position.PushedCell` | utils.py:115-120 | Computes one cell after the writes of a push: the character flag leaves the old character cell and is set on the target, the target loses its box and becomes empty, and the cell beyond gets the box and stops being empty. `PushWrites` and `MakeMove` state the board through it. |
| `Position.MovedChar` | utils.py:154-155 | Computes one cell after the character flag moves: cleared on the old cell, set on the new one. `StepTo` and `MoveInDirection` state the board through it. |
| `Position.PushPenalty` | utils.py:107-110 | The cost a legal move adds to the penalty: layer 10 for an exit without a box, the cost for the direction otherwise. `MakeMove` and `MakeMoveNumber` state the penalty through it. |
| `Position.AddReach` | utils.py:91 | Adds the reachable flag into the visit counter of a cell. `AddReachLayer` and `AddReachKeepsExitLayer` are stated through it. |
| `Position.ScanBoard` | utils.py:46-51 | Returns the last cell in row-major order with the character flag and the last with the exit flag, or None when there is none. |
| `Position.ScanLine` | utils.py:47-51 | Scans row `x` cell by cell. If the scan results were right up to the start of the row, they are right up to its end: the last cell with each flag, or None. |
| `Position.FrontierShrinks` | utils.py:83-90 | Finishing a non-empty frontier of unfinished cells strictly shrinks the set of unfinished board cells. This is the termination measure of the pass. |
| `Position.TreeFrontier` | utils.py:84-90 | Cells first reached from a frontier at distance n - 1 extend a spanning tree of the reached cells: each new cell gets distance n and a direction back to a frontier cell. Earlier entries are kept. |
| `Position.AddReachKeepsExitLayer` | utils.py:91 | Adding the reachable flag into the visit counter leaves the exit-layer consistency unchanged. |
| `Position.PushPosition.ClearDerivedLayers` | utils.py:78 | Every cell's layers 5 to 11 become 0 and its terrain is kept. |
| `Position.PushPosition.AppendSquare` | utils.py:167-207 | An off-board neighbour changes nothing. Otherwise the neighbour becomes `Arrive` of its old value and the cell beyond it, and it is appended to the next frontier exactly when `Arrive` enqueues it. No other cell changes. |
| `Position.PushPosition.ArrivalKeepsPassInv` | utils.py:176-207 | One arrival keeps the pass invariant: reached cells are open, flags match the reached set, costs belong to explored edges, and explored edges are handled. It marks edge (square, direction) as explored and keeps the terrain. A newly reached cell was not reached before. |
| `Position.PushPosition.ExploreEdge` | utils.py:88-89 | One `append_square` call advances the pass invariant by one direction. The next frontier gains at most the neighbour in that direction, only when it was not reached before, without repeats. |
| `Position.PushPosition.ExpandSquare` | utils.py:86-89 | The four calls for one square explore all its edges and finish the square. The next frontier gains exactly the newly reached cells, all neighbours of the square, without repeats. |
| `Position.PushPosition.ExpandFrontier` | utils.py:84-90 | Expanding a frontier finishes all of its squares. The next frontier is exactly the newly reached cells, without repeats, disjoint from all earlier ones, and each is a neighbour of some square of the frontier. |
| `Position.PushPosition.Search` | utils.py:80-90 | The frontier loop terminates with every reached cell finished, the invariant kept and the terrain unchanged. The reached cells carry a spanning tree rooted at the start cell, whose distances grow by one along each recorded direction. |
| `Position.PushPosition.AddReachLayer` | utils.py:91 | Every cell's layer 11 grows by its layer 5. Nothing else changes. |
| `Position.PushPosition.PassDone` | utils.py:91 | A pass that finished every cell it reached, followed by adding layer 5 into layer 11, leaves the board annotated from the start cell, with exactly the reached cells flagged. |
| `Position.PushPosition.WalkBack` | utils.py:79-90 | Following the recorded directions back from a flagged cell gives a walk of adjacent open cells from the start cell to it. |
| `Position.PushPosition.FlaggedReachable` | utils.py:79-90 | On a valid position every cell with the reachable flag is the end of a walk of adjacent open cells from the character. |
| `Position.PushPosition.AssignPushes` | utils.py:72-91 | The pass leaves the board annotated from the character's cell (flags, cost provenance and completeness, exit layer, visits) and keeps every terrain layer. The flagged cells carry a spanning tree rooted at the character, so each is reachable through open space. |
| `Position.PushPosition.constructor` | utils.py:33-55 | The position takes over the given array. It is annotated, and the character flag is set at the stored character location. The character and exit locations are the last flagged cells of the scan. The log is empty, the penalty 0, and the terrain is that of the input. |
| `Position.PushPosition.LegalPushHasRoom` | utils.py:114-120 | On an annotated board, a recorded push onto a cell that is not an exit is a box with an empty, in-bounds cell beyond it. So the source's writes stay on the board. |
| `Position.PushPosition.PushWrites` | utils.py:115-120 | The character leaves its cell for the target, the box leaves the target (now empty), and the cell beyond gets the box and stops being empty. No other cell changes. |
| `Position.PushPosition.Legal` | utils.py:100 | A move at `(x, y)` in direction d is legal exactly when the target is on the board and its cost for d is nonzero. `MakeMove`'s ILLEGAL case is stated through it. |
| `Position.PushPosition.MakeMove` | utils.py:96-124 | The exit location is kept. The result is ILLEGAL exactly when the target is off the board or has no cost for the direction, and then nothing changes. Otherwise the move is logged and its cost is added to the penalty: layer 10 for an empty exit, the directional cost otherwise. WIN occurs exactly for a target on an exit, and then leaves the board and character alone. PUSH moves the character and the box and re-annotates the board. |
| `Position.PushPosition.MakeMoveNumber` | utils.py:126-135 | The move number is decoded relative to the character. ILLEGAL occurs exactly when the decoded move has no recorded cost, and then nothing changes. A legal move is logged with its cost, and the board stays annotated. A move number outside `[0, 39·39·4)` gives ILLEGAL and changes nothing. WIN occurs exactly for a legal decoded target on an exit, and leaves the board and character alone. PUSH moves the character onto the target and the box beyond it. The exit location is kept. |
| `Position.PushPosition.MoveInDirection` | utils.py:137-164 | Returns true exactly when the next cell is on the board and either has a recorded push or holds neither a wall nor a box. False changes nothing. The exit location is kept. A plain step moves the character, logs nothing and adds 1 to the penalty. A push is logged and adds 1 plus its cost. |
| `Position.PushPosition.StepTo` | utils.py:154-159 | A plain step: the character flag moves from the old cell to the new one, the board is re-annotated, the log is unchanged and the penalty grows by 1. The exit location is kept. |
| `Symmetry.Centered` | utils.py:266-277 | The centered board is a 39 × 39 grid. |
| `Symmetry.CenteredPlacesBoard` | utils.py:272-276 | Board cell (x, y) lands where the label of a move at (x, y) points, and the character's cell lands at the centre (19, 19). |
| `Symmetry.BoardOf` | utils.py:266-277 | The board of a live position as a 20 × 20 grid of cells, cell (x, y) being the board's cell (x, y). This is the array `centered` reads. |
| `Symmetry.CenteredPosition` | utils.py:266-277 | For a valid position, the cell a move targets lands in the centered board where the move's label points, and the centre of the frame holds the character. |
| `Symmetry.CenteredPadding` | utils.py:272-273 | Every frame cell outside the copied board is unmovable padding with nothing else set. |
| `Symmetry.RollPushes` | utils.py:289 | The roll moves the cost for direction d to direction d - 1 (mod 4) and keeps every other layer. |
| `Symmetry.FlipPushes` | utils.py:291 | The flip moves the cost for direction d to direction 3 - d and keeps every other layer. |
| `Symmetry.RotateState` | utils.py:287-289 | Builds the square state whose cell (i, j) is the rolled cell (j, n - 1 - i) of the input, which is `np.rot90` followed by the roll. Its properties are `RotateStateFourTimes` and `RotateLockStep`. |
| `Symmetry.ReflectState` | utils.py:290-291 | Builds the square state whose cell (i, j) is the flipped cell (j, i) of the input. Its properties are `ReflectStateTwice` and `ReflectLockStep`. |
| `Symmetry.RotateStateFourTimes` | utils.py:285-289 | Four quarter turns with their rolls give back the state. |
| `Symmetry.ReflectStateTwice` | utils.py:290-291 | The reflection of states (swap axes, flip costs) is an involution. |
| `Symmetry.RotateLockStep` | utils.py:287-289 | A quarter turn of the state shows, at the `rotate_once` image of a label, the cell the label named, with the cost for its direction. |
| `Symmetry.ReflectLockStep` | utils.py:290-291 | The same holds for the reflection of the state and of the label. |
| `Symmetry.VariantLockStep` | utils.py:284-296 | The k-th state of `x_rotations` and the k-th label of `y_rotations` name the same cell and the same push cost, for k = 0..7. |
| `Symmetry.XRotations` | utils.py:280-297 | Appends exactly eight states and keeps the earlier ones. State k is the k-th dihedral image of the input. |
| `Symmetry.VariantBeyondLockStep` | utils.py:284-296 | In the k-th state, the cell beyond the k-th label is the original cell beyond the original label, with the same terrain, flag, exit layer and visits. |

## Left out

- Position.PushPosition.AssignPushes: does not prove that a recorded cost is minus the length of a *shortest* approach, nor that it equals the distance in the spanning tree. It proves where costs come from (explored edges from reached cells, the right kind of cell), that every reachable push and exit is recorded, and that every flagged cell is reachable through open space.
- Position.PushPosition.AssignPushes: layer 10 of a box on an exit gets the corrected update (`-n` when unset, the larger cost otherwise). The code at utils.py:207 leaves it 0 there; `Grid.ArriveAsWritten` models that write and the Findings table records the difference.
- Grid.Arrive: uses the same corrected layer-10 update for a pushable box on an exit, unlike utils.py:207.
- Position.PushPosition.AppendSquare: writes `Arrive`, so it uses the corrected layer-10 update for a pushable box on an exit, unlike utils.py:207.
- Position.PushPosition.MoveInDirection: in the push case it does not restate the terrain after the delegated `make_move`. That is `MakeMove`'s contract, and the source ignores the outcome of that call.
- Position.PushPosition.constructor: requires a cell with the character flag. Without one the source fails with an attribute error when it reads the unset character location. The constructor also does not model padding an input with fewer than twelve layers (utils.py:39-42): a cell always has all twelve.
- The sizes `self.size` and the module-level `size` are one constant, 20. The source mixes them in `make_move_number` and `centered`.
- The exit location is scanned and stored, but nothing in the core reads it.
- The `notifying_illegal` flag and the "Illegal move" message are not modelled, because they only print output.
- The layers are numpy floats in the source. Every stored value is a small integer, so the model uses `int`.
- Some functions are I/O or randomness and are not modelled:
  - `prettystring` (text output);
  - `append_level_data` and `load_levels` (pickle files and dataset collection);
  - `import_raw_level` (text level files);
  - `shuffle_in_unison` (random shuffling).
- `get_position` and `set_up_position` are thin replays and constructors over `PushPosition`, and are not modelled.
- The deep copies made in `x_rotations` are implicit, because states are values (`seq`). The final flip and axis swap after the eighth image (utils.py:296-297) are modelled as one more reflection, whose result the source discards.

## Findings

| source | as written | input that shows it | evidently intended | confidence | as-written member | corrected member |
|---|---|---|---|---|---|---|
| utils.py:207 | Layer 10 of a box on an exit becomes `max(layer10, -n)`. Layer 10 was cleared to 0 at the start of the pass (utils.py:78), so it stays 0. | A box on an exit, with an empty cell beyond it, reached at frontier n ≥ 1: the box gets push cost `-n` but layer 10 stays 0. | 0 means "unset": record the first approach, and keep the shorter (larger) cost afterwards. | not executed | `Grid.ArriveAsWritten`, `Grid.BoxExitCostAsWrittenLosesApproach` | `Grid.Arrive`, `Grid.ArriveKeepsExitLayer` |
