# A* path finding on a grid of cells

The program is a small pygame visualiser of the A* search. The window holds a
20 × 20 grid of cells. Each cell is walkable (`path`) or blocked, chosen at
random when the grid is built. A left click chooses the start cell and a right
click the end cell. The space key does two things: it recomputes every cell's
neighbour list (the walkable cells above, right of, below and left of it, in
that order), and it runs `astar` from start to end. `astar` keeps a priority
queue of `(f_score, count, cell)` entries, a copy of its cells, and the
`g_score`, `f_score` and `previous` tables. Every move costs one, and the
heuristic is the Manhattan distance. When it pops the end cell it follows
`previous` back from the end (`backtrack_path`) and flags those cells as the
shortest path. While it runs it flags the queued cells `in_queue` and the
expanded cells `out_queue`.

This project models that core and proves properties of the model:

- `grid.dfy` (module `Grid`): the matrix of walkable cells; the bounds test
  `valid_neighbor`; the neighbour lists `get_neighbors` builds; the heuristic
  `h`; and walks through the neighbour lists.
- `search.dfy` (module `SearchLoop`): the `while` loop of `astar` as a state
  machine over values.
  - `Step` is one turn of the loop; `Run` runs turns until the loop returns,
    and `Search` is `astar` from its first line.
  - `Inv` is the invariant that every turn keeps.
  - The cell flags are the sets of cells whose `in_queue` / `out_queue` flag
    is true.
  - A `Policy` parameter selects either the source's behaviour (`AsWritten`)
    or the correction described under "Findings" (`DecreaseKey`).
- `links.dfy` (module `Links`): the predecessor links `previous` holds while
  the loop runs, and why the chain of `end` is tight when it is popped.
- `path.dfy` (module `Path`): the chain `backtrack_path` follows, and what the
  result of `astar` means.
- `board.dfy` (module `Game`): the grid and the variables of `main` as a class
  whose methods change them in place. The methods are the neighbour
  precomputation, `astar` with its loops, `backtrack_path`, the two mouse
  selections and the space key. `AStar` and its helpers are proved against
  `SearchLoop.Search`, `Step`, `Relax` and `RelaxOne`. `BacktrackPath` is
  proved against `Path.Chain`. The neighbour methods are proved against
  `Grid.Neighbors`. The selections are proved against their guards and the
  class invariant `Valid`.
- `maze.dfy` (module `Maze`) and `counterexample.dfy` (module
  `Counterexample`): the run of the as-written search on one maze, turn by
  turn. That run returns a path two steps longer than the shortest one.

A cell is identified by its place in the matrix, `Pos(r, c)` for
`grid[r][c]`. The source builds `Cell(col, row)`, so its `Cell.row` holds the
column. The model calls `valid_neighbor` and `h` with the arguments in the
order the source passes them.

## Model

| member | source | states |
|---|---|---|
| Grid.Around | main.py:69-72 | the four cells `get_neighbors` asks `valid_neighbor` for, top, right, bottom, left; `NeighborsUnfold` and `NeighborsExact` state what the list built from them holds |
| Grid.KeepOpen | main.py:74-81 | keeps, in order, the asked cells that are inside the grid and walkable; `KeepOpenExact` and `KeepOpenDistinct` state its membership and that it adds no repeats |
| Grid.Neighbors | main.py:67-81 | the neighbour list of a cell, `KeepOpen` of `Around`; its properties are the rows `NeighborsExact` to `NeighborsSymmetric` |
| Grid.H | main.py:84-85 | the Manhattan distance `abs(x1 - x2) + abs(y1 - y2)`; `HZero` and `HSymmetric` state what it means |
| Grid.HTo | main.py:149 | the heuristic from a cell to `end`, called with the arguments in the source's order (`Cell.row` first); `HStep` and `WalkAtLeastManhattan` state that it is consistent and admissible |
| Grid.ValidNeighbor | main.py:60-64 | a cell comes back exactly when (col, row) is inside the grid, and it is the cell at `grid[row][col]`; the tests come before the indexing, so a negative index never wraps round |
| Grid.NeighborsExact | main.py:67-81 | a cell is in another's neighbour list exactly when it is walkable and shares a side with it |
| Grid.NeighborsUnfold | main.py:67-81 | the list is the four tests top, right, bottom, left, each appending its cell when walkable, in that order |
| Grid.NeighborsDistinct | main.py:67-81 | a neighbour list has at most four entries and no repeats |
| Grid.NeighborsSymmetric | main.py:67-81 | a walkable cell is in the neighbour list of each of its neighbours |
| Grid.HZero | main.py:84-85 | the Manhattan distance is zero exactly between a point and itself |
| Grid.HSymmetric | main.py:84-85 | the distance does not depend on the order of its two points |
| Grid.HStep | main.py:84-85 | between cells that share a side the heuristic to `end` changes by exactly one (it is consistent for unit moves) |
| Grid.WalkAtLeastManhattan | main.py:84-85 | no walk between two cells is shorter than the heuristic between them (it is admissible) |
| SearchLoop.MinIndex | main.py:135 | `open_set.get()` takes an entry that precedes every entry of the queue in `(f_score, count)` order |
| SearchLoop.PopOrder | main.py:108-110 | the popped entry has the least `f_score`, and among equal `f_score`s it is the one queued first |
| SearchLoop.MinIndexUnique | main.py:108-110 | with distinct counts, the entry preceding all others is the one popped |
| SearchLoop.RemoveAt | main.py:135 | popping removes exactly the chosen entry and keeps the others in order |
| SearchLoop.Unset | main.py:113-123 | the initial tables give every cell of the grid an infinite score |
| SearchLoop.Init | main.py:107-128 | the state before the first turn: one queue entry `(0, 0, start)`, `open_set_copy = {start}`, count 0, every score infinite but `g_score[start] = 0` and `f_score[start] = h(start, end)`, no predecessors, and the earlier flags; `InitInv`, `InitFlags` and `Links.InitSound` state what it satisfies |
| SearchLoop.RelaxOne | main.py:146-156 | one pass of the inner loop: nothing changes unless `g_score[curr] + 1` is below the neighbour's score; then its scores and predecessor are set, and it is queued with `f_score` and the next count, and flagged `in_queue`, only when it is not in `open_set_copy`; `RelaxOneLowers` and `RelaxOneKeeps` state both cases field by field |
| SearchLoop.Relax | main.py:144-156 | the inner `for` loop, the passes of `RelaxOne` over `curr.neighbors` in order; `RelaxAllInv`, `RelaxFlags` and `Links.RelaxSound` state what it keeps |
| SearchLoop.Step | main.py:130-159 | one turn of the `while` loop: an empty queue ends the search, popping `end` ends it with True and clears `in_queue` on `end`, any other cell is relaxed and then flagged `out_queue` unless it is `start`; `StepExpands`, `StepInv`, `StepFlags` and `Links.StepSound` state its properties |
| SearchLoop.InitInv | main.py:107-128 | the state before the first turn (start queued with priority 0, `g_score[start] = 0`, `f_score[start] = h`) meets the loop invariant |
| SearchLoop.RelaxOneKeeps | main.py:146-147 | an edge that does not improve its far end leaves the whole state alone |
| SearchLoop.StepInv | main.py:130-161 | every turn keeps the invariant, and a turn that does not return makes a measure drop (a cell is reached, a score falls, or the queue shrinks), so the loop ends |
| SearchLoop.ReachableKeepsOpen | main.py:130-161 | while `end` has not been popped, a reachable `end` keeps the queue non-empty |
| SearchLoop.PopsShortest | main.py:135-142 | under the decrease-key correction, the `g_score` of `end` when it is popped is no more than the length of any walk to it |
| SearchLoop.Run | main.py:130-161 | the loop reaches a final state, and that state keeps the invariant |
| SearchLoop.Search | main.py:107-161 | `astar` returns, with the invariant holding on its final state |
| SearchLoop.SearchFlags | main.py:141-159 | on return `in_queue` is set on exactly the cells queued (every cell with a finite score except `start`, plus the earlier flags), less `end` when found; `out_queue` is set on every cell that is closed at return (reached and not in `open_set_copy`) other than `start` and `end`, only on queued cells other than `end`, and on every cell flagged before |
| Links.RelaxOneSound | main.py:146-156 | after one pass of the inner loop every predecessor link is tight (`g_score` one above its predecessor's, the predecessor closed) or its predecessor is queued with an `f_score` at least two below what the link allows, and no entry of `end` is below its `g_score` |
| Links.StepSound | main.py:130-159 | every turn keeps those links sound, and the turn that pops `end` leaves its chain tight |
| Links.ChainTightFrom | main.py:135-142 | when no queue entry is below `g_score[end]`, a loose link on the chain of `end` is impossible, since the heuristic changes by one per step |
| Links.SearchSound | main.py:107-161 | under either policy, when `astar` returns True the scores rise by exactly one along the chain `backtrack_path` follows from `end` |
| Path.Chain | main.py:96-98 | the cells `backtrack_path` visits, from a cell without a predecessor to the cell it starts from |
| Path.ChainLinks | main.py:96-98 | each cell of the chain is the predecessor of the next and scores rise strictly along it, so the loop of `backtrack_path` ends |
| Path.ChainDistinct | main.py:96-98 | no cell is visited twice |
| Path.ChainExact | main.py:96-98 | along a tight chain the number of steps is exactly the score drop from its first cell |
| Path.ChainIsWalk | main.py:96-98 | the chain from a reached cell starts at `start` and is a walk through the neighbour lists no longer than its score |
| Path.SearchFindsIffReachable | main.py:107-161 | `astar` returns True exactly when `end` can be reached from `start`, and False exactly when it cannot |
| Path.FoundPathIsWalk | main.py:138-142 | on True, under either policy, the flagged chain is a walk from `start` to `end` of exactly `g_score[end]` steps |
| Path.CorrectedPathIsShortest | main.py:152-156 | with the decrease-key correction the chain has exactly `g_score[end]` steps and no walk from `start` to `end` is shorter |
| Maze.ShortWalk | main.py:67-81 | the maze of the finding has a walk of 17 steps from its start to its end |
| Counterexample.AsWrittenNotShortest | main.py:152-156 | on that maze the as-written search returns True with `g_score[end] = 19`, and the chain it flags has 19 steps, although a walk of 17 exists, so no-shorter-walk fails |
| Game.Board.constructor | main.py:164-176 | the grid starts with every flag false, empty neighbour lists and no selection |
| Game.Board.NeighborList | main.py:67-81 | the list built by the four `valid_neighbor` tests is the neighbour list of the cell |
| Game.Board.GetNeighbors | main.py:67-81 | `get_neighbors` replaces the cell's list with its neighbour list and changes nothing else |
| Game.Board.PrecomputeNeighbors | main.py:215-217 | after the nested loops every cell's list is its neighbour list; the selection and the flags are unchanged |
| Game.Board.BacktrackPath | main.py:96-104 | the cells flagged `shortest_path` are those flagged before plus the chain from the cell back, less its last cell, where `start` on the chain ends unflagged |
| Game.Board.AllInfinite | main.py:113-117 | the nested loops build a table with every cell infinite |
| Game.Board.InitTables | main.py:107-128 | the tables, queue, count and open-set copy are the search's initial state |
| Game.Board.RelaxEdge | main.py:146-156 | one pass of the inner loop changes the tables, queue and flags exactly as one relaxation of the model |
| Game.Board.RelaxNeighbors | main.py:144-156 | the inner `for` loop over `curr.neighbors` is the model's relaxation of all of them, in order |
| Game.Board.ExpandTurn | main.py:135-159 | a turn that does not pop `end` is one `Step` of the model |
| Game.Board.FinishFound | main.py:138-142 | popping `end` flags the chain from `end` and clears `in_queue` on `end` |
| Game.Board.AStar | main.py:107-161 | the method returns what `Search` returns, leaves the flags as `Search` does, on True flags the chain of `end`, and on False leaves `shortest_path` as it was |
| Game.Board.SelectStart | main.py:191-200 | a left click chooses the cell as start exactly when no start is chosen, the cell is walkable and it is not the end; otherwise nothing changes; start and end stay distinct |
| Game.Board.SelectEnd | main.py:202-210 | a right click chooses the end under the mirrored guard |
| Game.Board.PressSpace | main.py:212-217 | with both cells chosen the neighbours are recomputed and `astar` runs; its result is True exactly when `end` is reachable from `start`; on True the cells flagged `shortest_path` are the earlier ones plus the chain of `end` (a walk from `start` of `g_score[end]` steps) less its last cell, with `start` unflagged; on False the `shortest_path` flags are unchanged; with a cell missing nothing changes |
| Game.RelaxKeepsStatus | main.py:144-156 | relaxing edges never ends the search |

## Left out

- Drawing, the window caption, the event loop and the quit events (I/O) are
  not modelled. That includes the `pygame.event.get()` poll inside the loop of
  `astar`.
- The random choice of walkable cells is not modelled. The matrix of walkable
  cells is a parameter of the model.
- The grid size is the matrix's own, not the constant 20 × 20: the model holds
  for every rectangular grid. The counterexample maze is 13 × 5. The model does
  not prove that its run is the same once the maze is padded with blocked
  cells to 20 × 20.
- `get_mouse_pos` (pixel to cell) is not modelled. The selections take a cell
  inside the grid. The window is 402 pixels wide with 20-pixel squares, so a
  click on the last two pixel rows or columns gives index 20, which is outside
  the grid; that case is not covered.
- `PriorityQueue` is modelled as a sequence in insertion order, and `get` as
  the removal of the least `(f_score, count)` entry. Its heap is not modelled.
- `float("inf")` is the `Inf` score. Scores are unbounded naturals, so there
  is no floating-point rounding.
- The queue, the open-set copy, `count` and the `g_score`, `f_score` and
  `previous` tables are local to `astar` (main.py:107-128) and are built afresh
  on every run. The cell flags `in_queue`, `out_queue` and `shortest_path` and
  the neighbour lists live on the cells and keep their values from one press
  of the space key to the next. The model passes the earlier
  `in_queue`/`out_queue` flags into `Search` as parameters. `AStar` states the
  new `shortest_path` flags in terms of the earlier ones.
- SearchLoop.SearchFlags: does not say that `out_queue` is set on an expanded
  cell that, under the as-written policy, is queued again and is still in the
  open set at return; that cell keeps the flag (main.py:158-159), but the model
  does not record the set of expanded cells, only the closed ones.

## Findings

| source | as written | input that shows it | evidently intended | confidence | as-written member | corrected member |
|---|---|---|---|---|---|---|
| main.py:152-156 | when a cell already in the open set gets a better `g_score`, its queue entry keeps the old, larger `f_score`, so the heap can pop `end` before a better route to it is finished and `astar` flags a path that is not the shortest | the 13 × 5 maze in `Maze.M` (rows top to bottom `E..##`, `##.##`, `##.##`, `...##`, `.#..#`, `..#..`, `#.##.`, `#.##.`, `#.#..`, `#....`, `##.#.`, `##...`, `###S#`), start in row 12 column 3, end in row 0 column 0: the flagged path has 19 steps, a walk of 17 exists | the queued entry is updated to the new `f_score` (decrease-key), after which A* with this consistent heuristic returns a shortest path | not executed | Counterexample.AsWrittenNotShortest | Path.CorrectedPathIsShortest |
