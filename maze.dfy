/** The maze on which the search as written returns a longer path than the
    shortest one, and the facts about its tables that the run in
    `Counterexample` looks up: the scores and predecessors before each turn,
    the entry each turn pops, the neighbour lists, and the shortest walk.

    The run has 32 states, numbered 0 to 31; turn `K` goes from state `K`
    to state `K + 1`. The numbered members are:
    - `GK`, `PK`: the `g_score` and `previous` tables of state `K`.
    - `LookK_J`: the two scores that relaxation `J` of turn `K` compares,
      the expanded cell's and its neighbour's.
    - `PopK`: the entry turn `K` pops and the queue and open set without it.
    - `AroundK`: the neighbour list of the cell turn `K` expands.
    - `KeptK`: turn `K` leaves every other cell's score and predecessor as
      they were.
    - `LinkJ`: cell `J` of `Drawn` has the chain predecessor it has in the
      final tables `P31`, carried through every turn by the `KeptK` lemmas.
    - `WalkJ`: the first `J + 1` cells of `W` form a walk. */
module Maze {
  import opened Grid
  import opened SearchLoop

  /** Row 0 at the top (`E` is the end cell, `S` the start cell):
      `E..##`, `##.##`, `##.##`, `...##`, `.#..#`, `..#..`, `#.##.`, `#.##.`, `#.#..`, `#....`, `##.#.`, `##...`, `###S#`. */
  const M: Matrix := [
    [true, true, true, false, false],
    [false, false, true, false, false],
    [false, false, true, false, false],
    [true, true, true, false, false],
    [true, false, true, true, false],
    [true, true, false, true, true],
    [false, true, false, false, true],
    [false, true, false, false, true],
    [false, true, false, true, true],
    [false, true, true, true, true],
    [false, false, true, false, true],
    [false, false, true, true, true],
    [false, false, false, true, false]
  ]

  const S: Pos := Pos(12, 3)
  const E: Pos := Pos(0, 0)

  lemma MazeSetting()
    ensures Setting(M, S, E)
  {
  }

  /** A cell not reached yet still has the infinite score. */
  lemma UnsetCell(n: Pos)
    requires InBounds(M, n)
    ensures n in Unset(M) && Unset(M)[n] == Inf
  {
  }

  const G0: map<Pos, Score> := Unset(M)[Pos(12, 3) := Fin(0)]
  const P0: map<Pos, Pos> := map[]

  const G1: map<Pos, Score> := Unset(M)[Pos(12, 3) := Fin(0)][Pos(11, 3) := Fin(1)]
  const P1: map<Pos, Pos> := map[][Pos(11, 3) := Pos(12, 3)]

  const G2: map<Pos, Score> := Unset(M)[Pos(12, 3) := Fin(0)][Pos(11, 3) := Fin(1)][Pos(11, 4) := Fin(2)][Pos(11, 2) := Fin(2)]
  const P2: map<Pos, Pos> := map[][Pos(11, 3) := Pos(12, 3)][Pos(11, 4) := Pos(11, 3)][Pos(11, 2) := Pos(11, 3)]

  const G3: map<Pos, Score> := Unset(M)[Pos(12, 3) := Fin(0)][Pos(11, 3) := Fin(1)][Pos(11, 4) := Fin(2)][Pos(11, 2) := Fin(2)][Pos(10, 2) := Fin(3)]
  const P3: map<Pos, Pos> := map[][Pos(11, 3) := Pos(12, 3)][Pos(11, 4) := Pos(11, 3)][Pos(11, 2) := Pos(11, 3)][Pos(10, 2) := Pos(11, 2)]

  const G4: map<Pos, Score> := Unset(M)[Pos(12, 3) := Fin(0)][Pos(11, 3) := Fin(1)][Pos(11, 4) := Fin(2)][Pos(11, 2) := Fin(2)][Pos(10, 2) := Fin(3)][Pos(9, 2) := Fin(4)]
  const P4: map<Pos, Pos> := map[][Pos(11, 3) := Pos(12, 3)][Pos(11, 4) := Pos(11, 3)][Pos(11, 2) := Pos(11, 3)][Pos(10, 2) := Pos(11, 2)][Pos(9, 2) := Pos(10, 2)]

  const G5: map<Pos, Score> := Unset(M)[Pos(12, 3) := Fin(0)][Pos(11, 3) := Fin(1)][Pos(11, 4) := Fin(2)][Pos(11, 2) := Fin(2)][Pos(10, 2) := Fin(3)][Pos(9, 2) := Fin(4)][Pos(9, 3) := Fin(5)][Pos(9, 1) := Fin(5)]
  const P5: map<Pos, Pos> := map[][Pos(11, 3) := Pos(12, 3)][Pos(11, 4) := Pos(11, 3)][Pos(11, 2) := Pos(11, 3)][Pos(10, 2) := Pos(11, 2)][Pos(9, 2) := Pos(10, 2)][Pos(9, 3) := Pos(9, 2)][Pos(9, 1) := Pos(9, 2)]

  const G6: map<Pos, Score> := Unset(M)[Pos(12, 3) := Fin(0)][Pos(11, 3) := Fin(1)][Pos(11, 4) := Fin(2)][Pos(11, 2) := Fin(2)][Pos(10, 2) := Fin(3)][Pos(9, 2) := Fin(4)][Pos(9, 3) := Fin(5)][Pos(9, 1) := Fin(5)][Pos(8, 1) := Fin(6)]
  const P6: map<Pos, Pos> := map[][Pos(11, 3) := Pos(12, 3)][Pos(11, 4) := Pos(11, 3)][Pos(11, 2) := Pos(11, 3)][Pos(10, 2) := Pos(11, 2)][Pos(9, 2) := Pos(10, 2)][Pos(9, 3) := Pos(9, 2)][Pos(9, 1) := Pos(9, 2)][Pos(8, 1) := Pos(9, 1)]

  const G7: map<Pos, Score> := Unset(M)[Pos(12, 3) := Fin(0)][Pos(11, 3) := Fin(1)][Pos(11, 4) := Fin(2)][Pos(11, 2) := Fin(2)][Pos(10, 2) := Fin(3)][Pos(9, 2) := Fin(4)][Pos(9, 3) := Fin(5)][Pos(9, 1) := Fin(5)][Pos(8, 1) := Fin(6)][Pos(7, 1) := Fin(7)]
  const P7: map<Pos, Pos> := map[][Pos(11, 3) := Pos(12, 3)][Pos(11, 4) := Pos(11, 3)][Pos(11, 2) := Pos(11, 3)][Pos(10, 2) := Pos(11, 2)][Pos(9, 2) := Pos(10, 2)][Pos(9, 3) := Pos(9, 2)][Pos(9, 1) := Pos(9, 2)][Pos(8, 1) := Pos(9, 1)][Pos(7, 1) := Pos(8, 1)]

  const G8: map<Pos, Score> := Unset(M)[Pos(12, 3) := Fin(0)][Pos(11, 3) := Fin(1)][Pos(11, 4) := Fin(2)][Pos(11, 2) := Fin(2)][Pos(10, 2) := Fin(3)][Pos(9, 2) := Fin(4)][Pos(9, 3) := Fin(5)][Pos(9, 1) := Fin(5)][Pos(8, 1) := Fin(6)][Pos(7, 1) := Fin(7)][Pos(6, 1) := Fin(8)]
  const P8: map<Pos, Pos> := map[][Pos(11, 3) := Pos(12, 3)][Pos(11, 4) := Pos(11, 3)][Pos(11, 2) := Pos(11, 3)][Pos(10, 2) := Pos(11, 2)][Pos(9, 2) := Pos(10, 2)][Pos(9, 3) := Pos(9, 2)][Pos(9, 1) := Pos(9, 2)][Pos(8, 1) := Pos(9, 1)][Pos(7, 1) := Pos(8, 1)][Pos(6, 1) := Pos(7, 1)]

  const G9: map<Pos, Score> := Unset(M)[Pos(12, 3) := Fin(0)][Pos(11, 3) := Fin(1)][Pos(11, 4) := Fin(2)][Pos(11, 2) := Fin(2)][Pos(10, 2) := Fin(3)][Pos(9, 2) := Fin(4)][Pos(9, 3) := Fin(5)][Pos(9, 1) := Fin(5)][Pos(8, 1) := Fin(6)][Pos(7, 1) := Fin(7)][Pos(6, 1) := Fin(8)][Pos(5, 1) := Fin(9)]
  const P9: map<Pos, Pos> := map[][Pos(11, 3) := Pos(12, 3)][Pos(11, 4) := Pos(11, 3)][Pos(11, 2) := Pos(11, 3)][Pos(10, 2) := Pos(11, 2)][Pos(9, 2) := Pos(10, 2)][Pos(9, 3) := Pos(9, 2)][Pos(9, 1) := Pos(9, 2)][Pos(8, 1) := Pos(9, 1)][Pos(7, 1) := Pos(8, 1)][Pos(6, 1) := Pos(7, 1)][Pos(5, 1) := Pos(6, 1)]

  const G10: map<Pos, Score> := Unset(M)[Pos(12, 3) := Fin(0)][Pos(11, 3) := Fin(1)][Pos(11, 4) := Fin(2)][Pos(11, 2) := Fin(2)][Pos(10, 2) := Fin(3)][Pos(9, 2) := Fin(4)][Pos(9, 3) := Fin(5)][Pos(9, 1) := Fin(5)][Pos(8, 1) := Fin(6)][Pos(7, 1) := Fin(7)][Pos(6, 1) := Fin(8)][Pos(5, 1) := Fin(9)][Pos(5, 0) := Fin(10)]
  const P10: map<Pos, Pos> := map[][Pos(11, 3) := Pos(12, 3)][Pos(11, 4) := Pos(11, 3)][Pos(11, 2) := Pos(11, 3)][Pos(10, 2) := Pos(11, 2)][Pos(9, 2) := Pos(10, 2)][Pos(9, 3) := Pos(9, 2)][Pos(9, 1) := Pos(9, 2)][Pos(8, 1) := Pos(9, 1)][Pos(7, 1) := Pos(8, 1)][Pos(6, 1) := Pos(7, 1)][Pos(5, 1) := Pos(6, 1)][Pos(5, 0) := Pos(5, 1)]

  const G11: map<Pos, Score> := Unset(M)[Pos(12, 3) := Fin(0)][Pos(11, 3) := Fin(1)][Pos(11, 4) := Fin(2)][Pos(11, 2) := Fin(2)][Pos(10, 2) := Fin(3)][Pos(9, 2) := Fin(4)][Pos(9, 3) := Fin(5)][Pos(9, 1) := Fin(5)][Pos(8, 1) := Fin(6)][Pos(7, 1) := Fin(7)][Pos(6, 1) := Fin(8)][Pos(5, 1) := Fin(9)][Pos(5, 0) := Fin(10)][Pos(4, 0) := Fin(11)]
  const P11: map<Pos, Pos> := map[][Pos(11, 3) := Pos(12, 3)][Pos(11, 4) := Pos(11, 3)][Pos(11, 2) := Pos(11, 3)][Pos(10, 2) := Pos(11, 2)][Pos(9, 2) := Pos(10, 2)][Pos(9, 3) := Pos(9, 2)][Pos(9, 1) := Pos(9, 2)][Pos(8, 1) := Pos(9, 1)][Pos(7, 1) := Pos(8, 1)][Pos(6, 1) := Pos(7, 1)][Pos(5, 1) := Pos(6, 1)][Pos(5, 0) := Pos(5, 1)][Pos(4, 0) := Pos(5, 0)]

  const G12: map<Pos, Score> := Unset(M)[Pos(12, 3) := Fin(0)][Pos(11, 3) := Fin(1)][Pos(11, 4) := Fin(2)][Pos(11, 2) := Fin(2)][Pos(10, 2) := Fin(3)][Pos(9, 2) := Fin(4)][Pos(9, 3) := Fin(5)][Pos(9, 1) := Fin(5)][Pos(8, 1) := Fin(6)][Pos(7, 1) := Fin(7)][Pos(6, 1) := Fin(8)][Pos(5, 1) := Fin(9)][Pos(5, 0) := Fin(10)][Pos(4, 0) := Fin(11)][Pos(3, 0) := Fin(12)]
  const P12: map<Pos, Pos> := map[][Pos(11, 3) := Pos(12, 3)][Pos(11, 4) := Pos(11, 3)][Pos(11, 2) := Pos(11, 3)][Pos(10, 2) := Pos(11, 2)][Pos(9, 2) := Pos(10, 2)][Pos(9, 3) := Pos(9, 2)][Pos(9, 1) := Pos(9, 2)][Pos(8, 1) := Pos(9, 1)][Pos(7, 1) := Pos(8, 1)][Pos(6, 1) := Pos(7, 1)][Pos(5, 1) := Pos(6, 1)][Pos(5, 0) := Pos(5, 1)][Pos(4, 0) := Pos(5, 0)][Pos(3, 0) := Pos(4, 0)]

  const G13: map<Pos, Score> := Unset(M)[Pos(12, 3) := Fin(0)][Pos(11, 3) := Fin(1)][Pos(11, 4) := Fin(2)][Pos(11, 2) := Fin(2)][Pos(10, 2) := Fin(3)][Pos(9, 2) := Fin(4)][Pos(9, 3) := Fin(5)][Pos(9, 1) := Fin(5)][Pos(8, 1) := Fin(6)][Pos(7, 1) := Fin(7)][Pos(6, 1) := Fin(8)][Pos(5, 1) := Fin(9)][Pos(5, 0) := Fin(10)][Pos(4, 0) := Fin(11)][Pos(3, 0) := Fin(12)][Pos(3, 1) := Fin(13)]
  const P13: map<Pos, Pos> := map[][Pos(11, 3) := Pos(12, 3)][Pos(11, 4) := Pos(11, 3)][Pos(11, 2) := Pos(11, 3)][Pos(10, 2) := Pos(11, 2)][Pos(9, 2) := Pos(10, 2)][Pos(9, 3) := Pos(9, 2)][Pos(9, 1) := Pos(9, 2)][Pos(8, 1) := Pos(9, 1)][Pos(7, 1) := Pos(8, 1)][Pos(6, 1) := Pos(7, 1)][Pos(5, 1) := Pos(6, 1)][Pos(5, 0) := Pos(5, 1)][Pos(4, 0) := Pos(5, 0)][Pos(3, 0) := Pos(4, 0)][Pos(3, 1) := Pos(3, 0)]

  const G14: map<Pos, Score> := Unset(M)[Pos(12, 3) := Fin(0)][Pos(11, 3) := Fin(1)][Pos(11, 4) := Fin(2)][Pos(11, 2) := Fin(2)][Pos(10, 2) := Fin(3)][Pos(9, 2) := Fin(4)][Pos(9, 3) := Fin(5)][Pos(9, 1) := Fin(5)][Pos(8, 1) := Fin(6)][Pos(7, 1) := Fin(7)][Pos(6, 1) := Fin(8)][Pos(5, 1) := Fin(9)][Pos(5, 0) := Fin(10)][Pos(4, 0) := Fin(11)][Pos(3, 0) := Fin(12)][Pos(3, 1) := Fin(13)][Pos(10, 4) := Fin(3)]
  const P14: map<Pos, Pos> := map[][Pos(11, 3) := Pos(12, 3)][Pos(11, 4) := Pos(11, 3)][Pos(11, 2) := Pos(11, 3)][Pos(10, 2) := Pos(11, 2)][Pos(9, 2) := Pos(10, 2)][Pos(9, 3) := Pos(9, 2)][Pos(9, 1) := Pos(9, 2)][Pos(8, 1) := Pos(9, 1)][Pos(7, 1) := Pos(8, 1)][Pos(6, 1) := Pos(7, 1)][Pos(5, 1) := Pos(6, 1)][Pos(5, 0) := Pos(5, 1)][Pos(4, 0) := Pos(5, 0)][Pos(3, 0) := Pos(4, 0)][Pos(3, 1) := Pos(3, 0)][Pos(10, 4) := Pos(11, 4)]

  const G15: map<Pos, Score> := Unset(M)[Pos(12, 3) := Fin(0)][Pos(11, 3) := Fin(1)][Pos(11, 4) := Fin(2)][Pos(11, 2) := Fin(2)][Pos(10, 2) := Fin(3)][Pos(9, 2) := Fin(4)][Pos(9, 3) := Fin(5)][Pos(9, 1) := Fin(5)][Pos(8, 1) := Fin(6)][Pos(7, 1) := Fin(7)][Pos(6, 1) := Fin(8)][Pos(5, 1) := Fin(9)][Pos(5, 0) := Fin(10)][Pos(4, 0) := Fin(11)][Pos(3, 0) := Fin(12)][Pos(3, 1) := Fin(13)][Pos(10, 4) := Fin(3)][Pos(8, 3) := Fin(6)][Pos(9, 4) := Fin(6)]
  const P15: map<Pos, Pos> := map[][Pos(11, 3) := Pos(12, 3)][Pos(11, 4) := Pos(11, 3)][Pos(11, 2) := Pos(11, 3)][Pos(10, 2) := Pos(11, 2)][Pos(9, 2) := Pos(10, 2)][Pos(9, 3) := Pos(9, 2)][Pos(9, 1) := Pos(9, 2)][Pos(8, 1) := Pos(9, 1)][Pos(7, 1) := Pos(8, 1)][Pos(6, 1) := Pos(7, 1)][Pos(5, 1) := Pos(6, 1)][Pos(5, 0) := Pos(5, 1)][Pos(4, 0) := Pos(5, 0)][Pos(3, 0) := Pos(4, 0)][Pos(3, 1) := Pos(3, 0)][Pos(10, 4) := Pos(11, 4)][Pos(8, 3) := Pos(9, 3)][Pos(9, 4) := Pos(9, 3)]

  const G16: map<Pos, Score> := Unset(M)[Pos(12, 3) := Fin(0)][Pos(11, 3) := Fin(1)][Pos(11, 4) := Fin(2)][Pos(11, 2) := Fin(2)][Pos(10, 2) := Fin(3)][Pos(9, 2) := Fin(4)][Pos(9, 3) := Fin(5)][Pos(9, 1) := Fin(5)][Pos(8, 1) := Fin(6)][Pos(7, 1) := Fin(7)][Pos(6, 1) := Fin(8)][Pos(5, 1) := Fin(9)][Pos(5, 0) := Fin(10)][Pos(4, 0) := Fin(11)][Pos(3, 0) := Fin(12)][Pos(3, 1) := Fin(13)][Pos(10, 4) := Fin(3)][Pos(8, 3) := Fin(6)][Pos(9, 4) := Fin(6)][Pos(3, 2) := Fin(14)]
  const P16: map<Pos, Pos> := map[][Pos(11, 3) := Pos(12, 3)][Pos(11, 4) := Pos(11, 3)][Pos(11, 2) := Pos(11, 3)][Pos(10, 2) := Pos(11, 2)][Pos(9, 2) := Pos(10, 2)][Pos(9, 3) := Pos(9, 2)][Pos(9, 1) := Pos(9, 2)][Pos(8, 1) := Pos(9, 1)][Pos(7, 1) := Pos(8, 1)][Pos(6, 1) := Pos(7, 1)][Pos(5, 1) := Pos(6, 1)][Pos(5, 0) := Pos(5, 1)][Pos(4, 0) := Pos(5, 0)][Pos(3, 0) := Pos(4, 0)][Pos(3, 1) := Pos(3, 0)][Pos(10, 4) := Pos(11, 4)][Pos(8, 3) := Pos(9, 3)][Pos(9, 4) := Pos(9, 3)][Pos(3, 2) := Pos(3, 1)]

  const G17: map<Pos, Score> := Unset(M)[Pos(12, 3) := Fin(0)][Pos(11, 3) := Fin(1)][Pos(11, 4) := Fin(2)][Pos(11, 2) := Fin(2)][Pos(10, 2) := Fin(3)][Pos(9, 2) := Fin(4)][Pos(9, 3) := Fin(5)][Pos(9, 1) := Fin(5)][Pos(8, 1) := Fin(6)][Pos(7, 1) := Fin(7)][Pos(6, 1) := Fin(8)][Pos(5, 1) := Fin(9)][Pos(5, 0) := Fin(10)][Pos(4, 0) := Fin(11)][Pos(3, 0) := Fin(12)][Pos(3, 1) := Fin(13)][Pos(10, 4) := Fin(3)][Pos(8, 3) := Fin(6)][Pos(9, 4) := Fin(6)][Pos(3, 2) := Fin(14)][Pos(9, 4) := Fin(4)]
  const P17: map<Pos, Pos> := map[][Pos(11, 3) := Pos(12, 3)][Pos(11, 4) := Pos(11, 3)][Pos(11, 2) := Pos(11, 3)][Pos(10, 2) := Pos(11, 2)][Pos(9, 2) := Pos(10, 2)][Pos(9, 3) := Pos(9, 2)][Pos(9, 1) := Pos(9, 2)][Pos(8, 1) := Pos(9, 1)][Pos(7, 1) := Pos(8, 1)][Pos(6, 1) := Pos(7, 1)][Pos(5, 1) := Pos(6, 1)][Pos(5, 0) := Pos(5, 1)][Pos(4, 0) := Pos(5, 0)][Pos(3, 0) := Pos(4, 0)][Pos(3, 1) := Pos(3, 0)][Pos(10, 4) := Pos(11, 4)][Pos(8, 3) := Pos(9, 3)][Pos(9, 4) := Pos(9, 3)][Pos(3, 2) := Pos(3, 1)][Pos(9, 4) := Pos(10, 4)]

  const G18: map<Pos, Score> := Unset(M)[Pos(12, 3) := Fin(0)][Pos(11, 3) := Fin(1)][Pos(11, 4) := Fin(2)][Pos(11, 2) := Fin(2)][Pos(10, 2) := Fin(3)][Pos(9, 2) := Fin(4)][Pos(9, 3) := Fin(5)][Pos(9, 1) := Fin(5)][Pos(8, 1) := Fin(6)][Pos(7, 1) := Fin(7)][Pos(6, 1) := Fin(8)][Pos(5, 1) := Fin(9)][Pos(5, 0) := Fin(10)][Pos(4, 0) := Fin(11)][Pos(3, 0) := Fin(12)][Pos(3, 1) := Fin(13)][Pos(10, 4) := Fin(3)][Pos(8, 3) := Fin(6)][Pos(9, 4) := Fin(6)][Pos(3, 2) := Fin(14)][Pos(9, 4) := Fin(4)][Pos(8, 4) := Fin(7)]
  const P18: map<Pos, Pos> := map[][Pos(11, 3) := Pos(12, 3)][Pos(11, 4) := Pos(11, 3)][Pos(11, 2) := Pos(11, 3)][Pos(10, 2) := Pos(11, 2)][Pos(9, 2) := Pos(10, 2)][Pos(9, 3) := Pos(9, 2)][Pos(9, 1) := Pos(9, 2)][Pos(8, 1) := Pos(9, 1)][Pos(7, 1) := Pos(8, 1)][Pos(6, 1) := Pos(7, 1)][Pos(5, 1) := Pos(6, 1)][Pos(5, 0) := Pos(5, 1)][Pos(4, 0) := Pos(5, 0)][Pos(3, 0) := Pos(4, 0)][Pos(3, 1) := Pos(3, 0)][Pos(10, 4) := Pos(11, 4)][Pos(8, 3) := Pos(9, 3)][Pos(9, 4) := Pos(9, 3)][Pos(3, 2) := Pos(3, 1)][Pos(9, 4) := Pos(10, 4)][Pos(8, 4) := Pos(8, 3)]

  const G19: map<Pos, Score> := Unset(M)[Pos(12, 3) := Fin(0)][Pos(11, 3) := Fin(1)][Pos(11, 4) := Fin(2)][Pos(11, 2) := Fin(2)][Pos(10, 2) := Fin(3)][Pos(9, 2) := Fin(4)][Pos(9, 3) := Fin(5)][Pos(9, 1) := Fin(5)][Pos(8, 1) := Fin(6)][Pos(7, 1) := Fin(7)][Pos(6, 1) := Fin(8)][Pos(5, 1) := Fin(9)][Pos(5, 0) := Fin(10)][Pos(4, 0) := Fin(11)][Pos(3, 0) := Fin(12)][Pos(3, 1) := Fin(13)][Pos(10, 4) := Fin(3)][Pos(8, 3) := Fin(6)][Pos(9, 4) := Fin(6)][Pos(3, 2) := Fin(14)][Pos(9, 4) := Fin(4)][Pos(8, 4) := Fin(7)][Pos(8, 4) := Fin(5)]
  const P19: map<Pos, Pos> := map[][Pos(11, 3) := Pos(12, 3)][Pos(11, 4) := Pos(11, 3)][Pos(11, 2) := Pos(11, 3)][Pos(10, 2) := Pos(11, 2)][Pos(9, 2) := Pos(10, 2)][Pos(9, 3) := Pos(9, 2)][Pos(9, 1) := Pos(9, 2)][Pos(8, 1) := Pos(9, 1)][Pos(7, 1) := Pos(8, 1)][Pos(6, 1) := Pos(7, 1)][Pos(5, 1) := Pos(6, 1)][Pos(5, 0) := Pos(5, 1)][Pos(4, 0) := Pos(5, 0)][Pos(3, 0) := Pos(4, 0)][Pos(3, 1) := Pos(3, 0)][Pos(10, 4) := Pos(11, 4)][Pos(8, 3) := Pos(9, 3)][Pos(9, 4) := Pos(9, 3)][Pos(3, 2) := Pos(3, 1)][Pos(9, 4) := Pos(10, 4)][Pos(8, 4) := Pos(8, 3)][Pos(8, 4) := Pos(9, 4)]

  const G20: map<Pos, Score> := Unset(M)[Pos(12, 3) := Fin(0)][Pos(11, 3) := Fin(1)][Pos(11, 4) := Fin(2)][Pos(11, 2) := Fin(2)][Pos(10, 2) := Fin(3)][Pos(9, 2) := Fin(4)][Pos(9, 3) := Fin(5)][Pos(9, 1) := Fin(5)][Pos(8, 1) := Fin(6)][Pos(7, 1) := Fin(7)][Pos(6, 1) := Fin(8)][Pos(5, 1) := Fin(9)][Pos(5, 0) := Fin(10)][Pos(4, 0) := Fin(11)][Pos(3, 0) := Fin(12)][Pos(3, 1) := Fin(13)][Pos(10, 4) := Fin(3)][Pos(8, 3) := Fin(6)][Pos(9, 4) := Fin(6)][Pos(3, 2) := Fin(14)][Pos(9, 4) := Fin(4)][Pos(8, 4) := Fin(7)][Pos(8, 4) := Fin(5)][Pos(2, 2) := Fin(15)][Pos(4, 2) := Fin(15)]
  const P20: map<Pos, Pos> := map[][Pos(11, 3) := Pos(12, 3)][Pos(11, 4) := Pos(11, 3)][Pos(11, 2) := Pos(11, 3)][Pos(10, 2) := Pos(11, 2)][Pos(9, 2) := Pos(10, 2)][Pos(9, 3) := Pos(9, 2)][Pos(9, 1) := Pos(9, 2)][Pos(8, 1) := Pos(9, 1)][Pos(7, 1) := Pos(8, 1)][Pos(6, 1) := Pos(7, 1)][Pos(5, 1) := Pos(6, 1)][Pos(5, 0) := Pos(5, 1)][Pos(4, 0) := Pos(5, 0)][Pos(3, 0) := Pos(4, 0)][Pos(3, 1) := Pos(3, 0)][Pos(10, 4) := Pos(11, 4)][Pos(8, 3) := Pos(9, 3)][Pos(9, 4) := Pos(9, 3)][Pos(3, 2) := Pos(3, 1)][Pos(9, 4) := Pos(10, 4)][Pos(8, 4) := Pos(8, 3)][Pos(8, 4) := Pos(9, 4)][Pos(2, 2) := Pos(3, 2)][Pos(4, 2) := Pos(3, 2)]

  const G21: map<Pos, Score> := Unset(M)[Pos(12, 3) := Fin(0)][Pos(11, 3) := Fin(1)][Pos(11, 4) := Fin(2)][Pos(11, 2) := Fin(2)][Pos(10, 2) := Fin(3)][Pos(9, 2) := Fin(4)][Pos(9, 3) := Fin(5)][Pos(9, 1) := Fin(5)][Pos(8, 1) := Fin(6)][Pos(7, 1) := Fin(7)][Pos(6, 1) := Fin(8)][Pos(5, 1) := Fin(9)][Pos(5, 0) := Fin(10)][Pos(4, 0) := Fin(11)][Pos(3, 0) := Fin(12)][Pos(3, 1) := Fin(13)][Pos(10, 4) := Fin(3)][Pos(8, 3) := Fin(6)][Pos(9, 4) := Fin(6)][Pos(3, 2) := Fin(14)][Pos(9, 4) := Fin(4)][Pos(8, 4) := Fin(7)][Pos(8, 4) := Fin(5)][Pos(2, 2) := Fin(15)][Pos(4, 2) := Fin(15)][Pos(7, 4) := Fin(6)]
  const P21: map<Pos, Pos> := map[][Pos(11, 3) := Pos(12, 3)][Pos(11, 4) := Pos(11, 3)][Pos(11, 2) := Pos(11, 3)][Pos(10, 2) := Pos(11, 2)][Pos(9, 2) := Pos(10, 2)][Pos(9, 3) := Pos(9, 2)][Pos(9, 1) := Pos(9, 2)][Pos(8, 1) := Pos(9, 1)][Pos(7, 1) := Pos(8, 1)][Pos(6, 1) := Pos(7, 1)][Pos(5, 1) := Pos(6, 1)][Pos(5, 0) := Pos(5, 1)][Pos(4, 0) := Pos(5, 0)][Pos(3, 0) := Pos(4, 0)][Pos(3, 1) := Pos(3, 0)][Pos(10, 4) := Pos(11, 4)][Pos(8, 3) := Pos(9, 3)][Pos(9, 4) := Pos(9, 3)][Pos(3, 2) := Pos(3, 1)][Pos(9, 4) := Pos(10, 4)][Pos(8, 4) := Pos(8, 3)][Pos(8, 4) := Pos(9, 4)][Pos(2, 2) := Pos(3, 2)][Pos(4, 2) := Pos(3, 2)][Pos(7, 4) := Pos(8, 4)]

  const G22: map<Pos, Score> := Unset(M)[Pos(12, 3) := Fin(0)][Pos(11, 3) := Fin(1)][Pos(11, 4) := Fin(2)][Pos(11, 2) := Fin(2)][Pos(10, 2) := Fin(3)][Pos(9, 2) := Fin(4)][Pos(9, 3) := Fin(5)][Pos(9, 1) := Fin(5)][Pos(8, 1) := Fin(6)][Pos(7, 1) := Fin(7)][Pos(6, 1) := Fin(8)][Pos(5, 1) := Fin(9)][Pos(5, 0) := Fin(10)][Pos(4, 0) := Fin(11)][Pos(3, 0) := Fin(12)][Pos(3, 1) := Fin(13)][Pos(10, 4) := Fin(3)][Pos(8, 3) := Fin(6)][Pos(9, 4) := Fin(6)][Pos(3, 2) := Fin(14)][Pos(9, 4) := Fin(4)][Pos(8, 4) := Fin(7)][Pos(8, 4) := Fin(5)][Pos(2, 2) := Fin(15)][Pos(4, 2) := Fin(15)][Pos(7, 4) := Fin(6)][Pos(6, 4) := Fin(7)]
  const P22: map<Pos, Pos> := map[][Pos(11, 3) := Pos(12, 3)][Pos(11, 4) := Pos(11, 3)][Pos(11, 2) := Pos(11, 3)][Pos(10, 2) := Pos(11, 2)][Pos(9, 2) := Pos(10, 2)][Pos(9, 3) := Pos(9, 2)][Pos(9, 1) := Pos(9, 2)][Pos(8, 1) := Pos(9, 1)][Pos(7, 1) := Pos(8, 1)][Pos(6, 1) := Pos(7, 1)][Pos(5, 1) := Pos(6, 1)][Pos(5, 0) := Pos(5, 1)][Pos(4, 0) := Pos(5, 0)][Pos(3, 0) := Pos(4, 0)][Pos(3, 1) := Pos(3, 0)][Pos(10, 4) := Pos(11, 4)][Pos(8, 3) := Pos(9, 3)][Pos(9, 4) := Pos(9, 3)][Pos(3, 2) := Pos(3, 1)][Pos(9, 4) := Pos(10, 4)][Pos(8, 4) := Pos(8, 3)][Pos(8, 4) := Pos(9, 4)][Pos(2, 2) := Pos(3, 2)][Pos(4, 2) := Pos(3, 2)][Pos(7, 4) := Pos(8, 4)][Pos(6, 4) := Pos(7, 4)]

  const G23: map<Pos, Score> := Unset(M)[Pos(12, 3) := Fin(0)][Pos(11, 3) := Fin(1)][Pos(11, 4) := Fin(2)][Pos(11, 2) := Fin(2)][Pos(10, 2) := Fin(3)][Pos(9, 2) := Fin(4)][Pos(9, 3) := Fin(5)][Pos(9, 1) := Fin(5)][Pos(8, 1) := Fin(6)][Pos(7, 1) := Fin(7)][Pos(6, 1) := Fin(8)][Pos(5, 1) := Fin(9)][Pos(5, 0) := Fin(10)][Pos(4, 0) := Fin(11)][Pos(3, 0) := Fin(12)][Pos(3, 1) := Fin(13)][Pos(10, 4) := Fin(3)][Pos(8, 3) := Fin(6)][Pos(9, 4) := Fin(6)][Pos(3, 2) := Fin(14)][Pos(9, 4) := Fin(4)][Pos(8, 4) := Fin(7)][Pos(8, 4) := Fin(5)][Pos(2, 2) := Fin(15)][Pos(4, 2) := Fin(15)][Pos(7, 4) := Fin(6)][Pos(6, 4) := Fin(7)][Pos(5, 4) := Fin(8)]
  const P23: map<Pos, Pos> := map[][Pos(11, 3) := Pos(12, 3)][Pos(11, 4) := Pos(11, 3)][Pos(11, 2) := Pos(11, 3)][Pos(10, 2) := Pos(11, 2)][Pos(9, 2) := Pos(10, 2)][Pos(9, 3) := Pos(9, 2)][Pos(9, 1) := Pos(9, 2)][Pos(8, 1) := Pos(9, 1)][Pos(7, 1) := Pos(8, 1)][Pos(6, 1) := Pos(7, 1)][Pos(5, 1) := Pos(6, 1)][Pos(5, 0) := Pos(5, 1)][Pos(4, 0) := Pos(5, 0)][Pos(3, 0) := Pos(4, 0)][Pos(3, 1) := Pos(3, 0)][Pos(10, 4) := Pos(11, 4)][Pos(8, 3) := Pos(9, 3)][Pos(9, 4) := Pos(9, 3)][Pos(3, 2) := Pos(3, 1)][Pos(9, 4) := Pos(10, 4)][Pos(8, 4) := Pos(8, 3)][Pos(8, 4) := Pos(9, 4)][Pos(2, 2) := Pos(3, 2)][Pos(4, 2) := Pos(3, 2)][Pos(7, 4) := Pos(8, 4)][Pos(6, 4) := Pos(7, 4)][Pos(5, 4) := Pos(6, 4)]

  const G24: map<Pos, Score> := Unset(M)[Pos(12, 3) := Fin(0)][Pos(11, 3) := Fin(1)][Pos(11, 4) := Fin(2)][Pos(11, 2) := Fin(2)][Pos(10, 2) := Fin(3)][Pos(9, 2) := Fin(4)][Pos(9, 3) := Fin(5)][Pos(9, 1) := Fin(5)][Pos(8, 1) := Fin(6)][Pos(7, 1) := Fin(7)][Pos(6, 1) := Fin(8)][Pos(5, 1) := Fin(9)][Pos(5, 0) := Fin(10)][Pos(4, 0) := Fin(11)][Pos(3, 0) := Fin(12)][Pos(3, 1) := Fin(13)][Pos(10, 4) := Fin(3)][Pos(8, 3) := Fin(6)][Pos(9, 4) := Fin(6)][Pos(3, 2) := Fin(14)][Pos(9, 4) := Fin(4)][Pos(8, 4) := Fin(7)][Pos(8, 4) := Fin(5)][Pos(2, 2) := Fin(15)][Pos(4, 2) := Fin(15)][Pos(7, 4) := Fin(6)][Pos(6, 4) := Fin(7)][Pos(5, 4) := Fin(8)][Pos(5, 3) := Fin(9)]
  const P24: map<Pos, Pos> := map[][Pos(11, 3) := Pos(12, 3)][Pos(11, 4) := Pos(11, 3)][Pos(11, 2) := Pos(11, 3)][Pos(10, 2) := Pos(11, 2)][Pos(9, 2) := Pos(10, 2)][Pos(9, 3) := Pos(9, 2)][Pos(9, 1) := Pos(9, 2)][Pos(8, 1) := Pos(9, 1)][Pos(7, 1) := Pos(8, 1)][Pos(6, 1) := Pos(7, 1)][Pos(5, 1) := Pos(6, 1)][Pos(5, 0) := Pos(5, 1)][Pos(4, 0) := Pos(5, 0)][Pos(3, 0) := Pos(4, 0)][Pos(3, 1) := Pos(3, 0)][Pos(10, 4) := Pos(11, 4)][Pos(8, 3) := Pos(9, 3)][Pos(9, 4) := Pos(9, 3)][Pos(3, 2) := Pos(3, 1)][Pos(9, 4) := Pos(10, 4)][Pos(8, 4) := Pos(8, 3)][Pos(8, 4) := Pos(9, 4)][Pos(2, 2) := Pos(3, 2)][Pos(4, 2) := Pos(3, 2)][Pos(7, 4) := Pos(8, 4)][Pos(6, 4) := Pos(7, 4)][Pos(5, 4) := Pos(6, 4)][Pos(5, 3) := Pos(5, 4)]

  const G25: map<Pos, Score> := Unset(M)[Pos(12, 3) := Fin(0)][Pos(11, 3) := Fin(1)][Pos(11, 4) := Fin(2)][Pos(11, 2) := Fin(2)][Pos(10, 2) := Fin(3)][Pos(9, 2) := Fin(4)][Pos(9, 3) := Fin(5)][Pos(9, 1) := Fin(5)][Pos(8, 1) := Fin(6)][Pos(7, 1) := Fin(7)][Pos(6, 1) := Fin(8)][Pos(5, 1) := Fin(9)][Pos(5, 0) := Fin(10)][Pos(4, 0) := Fin(11)][Pos(3, 0) := Fin(12)][Pos(3, 1) := Fin(13)][Pos(10, 4) := Fin(3)][Pos(8, 3) := Fin(6)][Pos(9, 4) := Fin(6)][Pos(3, 2) := Fin(14)][Pos(9, 4) := Fin(4)][Pos(8, 4) := Fin(7)][Pos(8, 4) := Fin(5)][Pos(2, 2) := Fin(15)][Pos(4, 2) := Fin(15)][Pos(7, 4) := Fin(6)][Pos(6, 4) := Fin(7)][Pos(5, 4) := Fin(8)][Pos(5, 3) := Fin(9)][Pos(4, 3) := Fin(10)]
  const P25: map<Pos, Pos> := map[][Pos(11, 3) := Pos(12, 3)][Pos(11, 4) := Pos(11, 3)][Pos(11, 2) := Pos(11, 3)][Pos(10, 2) := Pos(11, 2)][Pos(9, 2) := Pos(10, 2)][Pos(9, 3) := Pos(9, 2)][Pos(9, 1) := Pos(9, 2)][Pos(8, 1) := Pos(9, 1)][Pos(7, 1) := Pos(8, 1)][Pos(6, 1) := Pos(7, 1)][Pos(5, 1) := Pos(6, 1)][Pos(5, 0) := Pos(5, 1)][Pos(4, 0) := Pos(5, 0)][Pos(3, 0) := Pos(4, 0)][Pos(3, 1) := Pos(3, 0)][Pos(10, 4) := Pos(11, 4)][Pos(8, 3) := Pos(9, 3)][Pos(9, 4) := Pos(9, 3)][Pos(3, 2) := Pos(3, 1)][Pos(9, 4) := Pos(10, 4)][Pos(8, 4) := Pos(8, 3)][Pos(8, 4) := Pos(9, 4)][Pos(2, 2) := Pos(3, 2)][Pos(4, 2) := Pos(3, 2)][Pos(7, 4) := Pos(8, 4)][Pos(6, 4) := Pos(7, 4)][Pos(5, 4) := Pos(6, 4)][Pos(5, 3) := Pos(5, 4)][Pos(4, 3) := Pos(5, 3)]

  const G26: map<Pos, Score> := Unset(M)[Pos(12, 3) := Fin(0)][Pos(11, 3) := Fin(1)][Pos(11, 4) := Fin(2)][Pos(11, 2) := Fin(2)][Pos(10, 2) := Fin(3)][Pos(9, 2) := Fin(4)][Pos(9, 3) := Fin(5)][Pos(9, 1) := Fin(5)][Pos(8, 1) := Fin(6)][Pos(7, 1) := Fin(7)][Pos(6, 1) := Fin(8)][Pos(5, 1) := Fin(9)][Pos(5, 0) := Fin(10)][Pos(4, 0) := Fin(11)][Pos(3, 0) := Fin(12)][Pos(3, 1) := Fin(13)][Pos(10, 4) := Fin(3)][Pos(8, 3) := Fin(6)][Pos(9, 4) := Fin(6)][Pos(3, 2) := Fin(14)][Pos(9, 4) := Fin(4)][Pos(8, 4) := Fin(7)][Pos(8, 4) := Fin(5)][Pos(2, 2) := Fin(15)][Pos(4, 2) := Fin(15)][Pos(7, 4) := Fin(6)][Pos(6, 4) := Fin(7)][Pos(5, 4) := Fin(8)][Pos(5, 3) := Fin(9)][Pos(4, 3) := Fin(10)][Pos(4, 2) := Fin(11)]
  const P26: map<Pos, Pos> := map[][Pos(11, 3) := Pos(12, 3)][Pos(11, 4) := Pos(11, 3)][Pos(11, 2) := Pos(11, 3)][Pos(10, 2) := Pos(11, 2)][Pos(9, 2) := Pos(10, 2)][Pos(9, 3) := Pos(9, 2)][Pos(9, 1) := Pos(9, 2)][Pos(8, 1) := Pos(9, 1)][Pos(7, 1) := Pos(8, 1)][Pos(6, 1) := Pos(7, 1)][Pos(5, 1) := Pos(6, 1)][Pos(5, 0) := Pos(5, 1)][Pos(4, 0) := Pos(5, 0)][Pos(3, 0) := Pos(4, 0)][Pos(3, 1) := Pos(3, 0)][Pos(10, 4) := Pos(11, 4)][Pos(8, 3) := Pos(9, 3)][Pos(9, 4) := Pos(9, 3)][Pos(3, 2) := Pos(3, 1)][Pos(9, 4) := Pos(10, 4)][Pos(8, 4) := Pos(8, 3)][Pos(8, 4) := Pos(9, 4)][Pos(2, 2) := Pos(3, 2)][Pos(4, 2) := Pos(3, 2)][Pos(7, 4) := Pos(8, 4)][Pos(6, 4) := Pos(7, 4)][Pos(5, 4) := Pos(6, 4)][Pos(5, 3) := Pos(5, 4)][Pos(4, 3) := Pos(5, 3)][Pos(4, 2) := Pos(4, 3)]

  const G27: map<Pos, Score> := Unset(M)[Pos(12, 3) := Fin(0)][Pos(11, 3) := Fin(1)][Pos(11, 4) := Fin(2)][Pos(11, 2) := Fin(2)][Pos(10, 2) := Fin(3)][Pos(9, 2) := Fin(4)][Pos(9, 3) := Fin(5)][Pos(9, 1) := Fin(5)][Pos(8, 1) := Fin(6)][Pos(7, 1) := Fin(7)][Pos(6, 1) := Fin(8)][Pos(5, 1) := Fin(9)][Pos(5, 0) := Fin(10)][Pos(4, 0) := Fin(11)][Pos(3, 0) := Fin(12)][Pos(3, 1) := Fin(13)][Pos(10, 4) := Fin(3)][Pos(8, 3) := Fin(6)][Pos(9, 4) := Fin(6)][Pos(3, 2) := Fin(14)][Pos(9, 4) := Fin(4)][Pos(8, 4) := Fin(7)][Pos(8, 4) := Fin(5)][Pos(2, 2) := Fin(15)][Pos(4, 2) := Fin(15)][Pos(7, 4) := Fin(6)][Pos(6, 4) := Fin(7)][Pos(5, 4) := Fin(8)][Pos(5, 3) := Fin(9)][Pos(4, 3) := Fin(10)][Pos(4, 2) := Fin(11)][Pos(1, 2) := Fin(16)]
  const P27: map<Pos, Pos> := map[][Pos(11, 3) := Pos(12, 3)][Pos(11, 4) := Pos(11, 3)][Pos(11, 2) := Pos(11, 3)][Pos(10, 2) := Pos(11, 2)][Pos(9, 2) := Pos(10, 2)][Pos(9, 3) := Pos(9, 2)][Pos(9, 1) := Pos(9, 2)][Pos(8, 1) := Pos(9, 1)][Pos(7, 1) := Pos(8, 1)][Pos(6, 1) := Pos(7, 1)][Pos(5, 1) := Pos(6, 1)][Pos(5, 0) := Pos(5, 1)][Pos(4, 0) := Pos(5, 0)][Pos(3, 0) := Pos(4, 0)][Pos(3, 1) := Pos(3, 0)][Pos(10, 4) := Pos(11, 4)][Pos(8, 3) := Pos(9, 3)][Pos(9, 4) := Pos(9, 3)][Pos(3, 2) := Pos(3, 1)][Pos(9, 4) := Pos(10, 4)][Pos(8, 4) := Pos(8, 3)][Pos(8, 4) := Pos(9, 4)][Pos(2, 2) := Pos(3, 2)][Pos(4, 2) := Pos(3, 2)][Pos(7, 4) := Pos(8, 4)][Pos(6, 4) := Pos(7, 4)][Pos(5, 4) := Pos(6, 4)][Pos(5, 3) := Pos(5, 4)][Pos(4, 3) := Pos(5, 3)][Pos(4, 2) := Pos(4, 3)][Pos(1, 2) := Pos(2, 2)]

  const G28: map<Pos, Score> := Unset(M)[Pos(12, 3) := Fin(0)][Pos(11, 3) := Fin(1)][Pos(11, 4) := Fin(2)][Pos(11, 2) := Fin(2)][Pos(10, 2) := Fin(3)][Pos(9, 2) := Fin(4)][Pos(9, 3) := Fin(5)][Pos(9, 1) := Fin(5)][Pos(8, 1) := Fin(6)][Pos(7, 1) := Fin(7)][Pos(6, 1) := Fin(8)][Pos(5, 1) := Fin(9)][Pos(5, 0) := Fin(10)][Pos(4, 0) := Fin(11)][Pos(3, 0) := Fin(12)][Pos(3, 1) := Fin(13)][Pos(10, 4) := Fin(3)][Pos(8, 3) := Fin(6)][Pos(9, 4) := Fin(6)][Pos(3, 2) := Fin(14)][Pos(9, 4) := Fin(4)][Pos(8, 4) := Fin(7)][Pos(8, 4) := Fin(5)][Pos(2, 2) := Fin(15)][Pos(4, 2) := Fin(15)][Pos(7, 4) := Fin(6)][Pos(6, 4) := Fin(7)][Pos(5, 4) := Fin(8)][Pos(5, 3) := Fin(9)][Pos(4, 3) := Fin(10)][Pos(4, 2) := Fin(11)][Pos(1, 2) := Fin(16)][Pos(0, 2) := Fin(17)]
  const P28: map<Pos, Pos> := map[][Pos(11, 3) := Pos(12, 3)][Pos(11, 4) := Pos(11, 3)][Pos(11, 2) := Pos(11, 3)][Pos(10, 2) := Pos(11, 2)][Pos(9, 2) := Pos(10, 2)][Pos(9, 3) := Pos(9, 2)][Pos(9, 1) := Pos(9, 2)][Pos(8, 1) := Pos(9, 1)][Pos(7, 1) := Pos(8, 1)][Pos(6, 1) := Pos(7, 1)][Pos(5, 1) := Pos(6, 1)][Pos(5, 0) := Pos(5, 1)][Pos(4, 0) := Pos(5, 0)][Pos(3, 0) := Pos(4, 0)][Pos(3, 1) := Pos(3, 0)][Pos(10, 4) := Pos(11, 4)][Pos(8, 3) := Pos(9, 3)][Pos(9, 4) := Pos(9, 3)][Pos(3, 2) := Pos(3, 1)][Pos(9, 4) := Pos(10, 4)][Pos(8, 4) := Pos(8, 3)][Pos(8, 4) := Pos(9, 4)][Pos(2, 2) := Pos(3, 2)][Pos(4, 2) := Pos(3, 2)][Pos(7, 4) := Pos(8, 4)][Pos(6, 4) := Pos(7, 4)][Pos(5, 4) := Pos(6, 4)][Pos(5, 3) := Pos(5, 4)][Pos(4, 3) := Pos(5, 3)][Pos(4, 2) := Pos(4, 3)][Pos(1, 2) := Pos(2, 2)][Pos(0, 2) := Pos(1, 2)]

  const G29: map<Pos, Score> := Unset(M)[Pos(12, 3) := Fin(0)][Pos(11, 3) := Fin(1)][Pos(11, 4) := Fin(2)][Pos(11, 2) := Fin(2)][Pos(10, 2) := Fin(3)][Pos(9, 2) := Fin(4)][Pos(9, 3) := Fin(5)][Pos(9, 1) := Fin(5)][Pos(8, 1) := Fin(6)][Pos(7, 1) := Fin(7)][Pos(6, 1) := Fin(8)][Pos(5, 1) := Fin(9)][Pos(5, 0) := Fin(10)][Pos(4, 0) := Fin(11)][Pos(3, 0) := Fin(12)][Pos(3, 1) := Fin(13)][Pos(10, 4) := Fin(3)][Pos(8, 3) := Fin(6)][Pos(9, 4) := Fin(6)][Pos(3, 2) := Fin(14)][Pos(9, 4) := Fin(4)][Pos(8, 4) := Fin(7)][Pos(8, 4) := Fin(5)][Pos(2, 2) := Fin(15)][Pos(4, 2) := Fin(15)][Pos(7, 4) := Fin(6)][Pos(6, 4) := Fin(7)][Pos(5, 4) := Fin(8)][Pos(5, 3) := Fin(9)][Pos(4, 3) := Fin(10)][Pos(4, 2) := Fin(11)][Pos(1, 2) := Fin(16)][Pos(0, 2) := Fin(17)][Pos(0, 1) := Fin(18)]
  const P29: map<Pos, Pos> := map[][Pos(11, 3) := Pos(12, 3)][Pos(11, 4) := Pos(11, 3)][Pos(11, 2) := Pos(11, 3)][Pos(10, 2) := Pos(11, 2)][Pos(9, 2) := Pos(10, 2)][Pos(9, 3) := Pos(9, 2)][Pos(9, 1) := Pos(9, 2)][Pos(8, 1) := Pos(9, 1)][Pos(7, 1) := Pos(8, 1)][Pos(6, 1) := Pos(7, 1)][Pos(5, 1) := Pos(6, 1)][Pos(5, 0) := Pos(5, 1)][Pos(4, 0) := Pos(5, 0)][Pos(3, 0) := Pos(4, 0)][Pos(3, 1) := Pos(3, 0)][Pos(10, 4) := Pos(11, 4)][Pos(8, 3) := Pos(9, 3)][Pos(9, 4) := Pos(9, 3)][Pos(3, 2) := Pos(3, 1)][Pos(9, 4) := Pos(10, 4)][Pos(8, 4) := Pos(8, 3)][Pos(8, 4) := Pos(9, 4)][Pos(2, 2) := Pos(3, 2)][Pos(4, 2) := Pos(3, 2)][Pos(7, 4) := Pos(8, 4)][Pos(6, 4) := Pos(7, 4)][Pos(5, 4) := Pos(6, 4)][Pos(5, 3) := Pos(5, 4)][Pos(4, 3) := Pos(5, 3)][Pos(4, 2) := Pos(4, 3)][Pos(1, 2) := Pos(2, 2)][Pos(0, 2) := Pos(1, 2)][Pos(0, 1) := Pos(0, 2)]

  const G30: map<Pos, Score> := Unset(M)[Pos(12, 3) := Fin(0)][Pos(11, 3) := Fin(1)][Pos(11, 4) := Fin(2)][Pos(11, 2) := Fin(2)][Pos(10, 2) := Fin(3)][Pos(9, 2) := Fin(4)][Pos(9, 3) := Fin(5)][Pos(9, 1) := Fin(5)][Pos(8, 1) := Fin(6)][Pos(7, 1) := Fin(7)][Pos(6, 1) := Fin(8)][Pos(5, 1) := Fin(9)][Pos(5, 0) := Fin(10)][Pos(4, 0) := Fin(11)][Pos(3, 0) := Fin(12)][Pos(3, 1) := Fin(13)][Pos(10, 4) := Fin(3)][Pos(8, 3) := Fin(6)][Pos(9, 4) := Fin(6)][Pos(3, 2) := Fin(14)][Pos(9, 4) := Fin(4)][Pos(8, 4) := Fin(7)][Pos(8, 4) := Fin(5)][Pos(2, 2) := Fin(15)][Pos(4, 2) := Fin(15)][Pos(7, 4) := Fin(6)][Pos(6, 4) := Fin(7)][Pos(5, 4) := Fin(8)][Pos(5, 3) := Fin(9)][Pos(4, 3) := Fin(10)][Pos(4, 2) := Fin(11)][Pos(1, 2) := Fin(16)][Pos(0, 2) := Fin(17)][Pos(0, 1) := Fin(18)][Pos(0, 0) := Fin(19)]
  const P30: map<Pos, Pos> := map[][Pos(11, 3) := Pos(12, 3)][Pos(11, 4) := Pos(11, 3)][Pos(11, 2) := Pos(11, 3)][Pos(10, 2) := Pos(11, 2)][Pos(9, 2) := Pos(10, 2)][Pos(9, 3) := Pos(9, 2)][Pos(9, 1) := Pos(9, 2)][Pos(8, 1) := Pos(9, 1)][Pos(7, 1) := Pos(8, 1)][Pos(6, 1) := Pos(7, 1)][Pos(5, 1) := Pos(6, 1)][Pos(5, 0) := Pos(5, 1)][Pos(4, 0) := Pos(5, 0)][Pos(3, 0) := Pos(4, 0)][Pos(3, 1) := Pos(3, 0)][Pos(10, 4) := Pos(11, 4)][Pos(8, 3) := Pos(9, 3)][Pos(9, 4) := Pos(9, 3)][Pos(3, 2) := Pos(3, 1)][Pos(9, 4) := Pos(10, 4)][Pos(8, 4) := Pos(8, 3)][Pos(8, 4) := Pos(9, 4)][Pos(2, 2) := Pos(3, 2)][Pos(4, 2) := Pos(3, 2)][Pos(7, 4) := Pos(8, 4)][Pos(6, 4) := Pos(7, 4)][Pos(5, 4) := Pos(6, 4)][Pos(5, 3) := Pos(5, 4)][Pos(4, 3) := Pos(5, 3)][Pos(4, 2) := Pos(4, 3)][Pos(1, 2) := Pos(2, 2)][Pos(0, 2) := Pos(1, 2)][Pos(0, 1) := Pos(0, 2)][Pos(0, 0) := Pos(0, 1)]

  const G31: map<Pos, Score> := Unset(M)[Pos(12, 3) := Fin(0)][Pos(11, 3) := Fin(1)][Pos(11, 4) := Fin(2)][Pos(11, 2) := Fin(2)][Pos(10, 2) := Fin(3)][Pos(9, 2) := Fin(4)][Pos(9, 3) := Fin(5)][Pos(9, 1) := Fin(5)][Pos(8, 1) := Fin(6)][Pos(7, 1) := Fin(7)][Pos(6, 1) := Fin(8)][Pos(5, 1) := Fin(9)][Pos(5, 0) := Fin(10)][Pos(4, 0) := Fin(11)][Pos(3, 0) := Fin(12)][Pos(3, 1) := Fin(13)][Pos(10, 4) := Fin(3)][Pos(8, 3) := Fin(6)][Pos(9, 4) := Fin(6)][Pos(3, 2) := Fin(14)][Pos(9, 4) := Fin(4)][Pos(8, 4) := Fin(7)][Pos(8, 4) := Fin(5)][Pos(2, 2) := Fin(15)][Pos(4, 2) := Fin(15)][Pos(7, 4) := Fin(6)][Pos(6, 4) := Fin(7)][Pos(5, 4) := Fin(8)][Pos(5, 3) := Fin(9)][Pos(4, 3) := Fin(10)][Pos(4, 2) := Fin(11)][Pos(1, 2) := Fin(16)][Pos(0, 2) := Fin(17)][Pos(0, 1) := Fin(18)][Pos(0, 0) := Fin(19)]
  const P31: map<Pos, Pos> := map[][Pos(11, 3) := Pos(12, 3)][Pos(11, 4) := Pos(11, 3)][Pos(11, 2) := Pos(11, 3)][Pos(10, 2) := Pos(11, 2)][Pos(9, 2) := Pos(10, 2)][Pos(9, 3) := Pos(9, 2)][Pos(9, 1) := Pos(9, 2)][Pos(8, 1) := Pos(9, 1)][Pos(7, 1) := Pos(8, 1)][Pos(6, 1) := Pos(7, 1)][Pos(5, 1) := Pos(6, 1)][Pos(5, 0) := Pos(5, 1)][Pos(4, 0) := Pos(5, 0)][Pos(3, 0) := Pos(4, 0)][Pos(3, 1) := Pos(3, 0)][Pos(10, 4) := Pos(11, 4)][Pos(8, 3) := Pos(9, 3)][Pos(9, 4) := Pos(9, 3)][Pos(3, 2) := Pos(3, 1)][Pos(9, 4) := Pos(10, 4)][Pos(8, 4) := Pos(8, 3)][Pos(8, 4) := Pos(9, 4)][Pos(2, 2) := Pos(3, 2)][Pos(4, 2) := Pos(3, 2)][Pos(7, 4) := Pos(8, 4)][Pos(6, 4) := Pos(7, 4)][Pos(5, 4) := Pos(6, 4)][Pos(5, 3) := Pos(5, 4)][Pos(4, 3) := Pos(5, 3)][Pos(4, 2) := Pos(4, 3)][Pos(1, 2) := Pos(2, 2)][Pos(0, 2) := Pos(1, 2)][Pos(0, 1) := Pos(0, 2)][Pos(0, 0) := Pos(0, 1)]

  lemma Look0_0()
    ensures ScoreOf(G0, Pos(12, 3)) == Fin(0) && ScoreOf(G0, Pos(11, 3)) == Inf
  {
    UnsetCell(Pos(11, 3));
  }

  /** The entry turn 0 pops. */
  lemma Pop0()
    ensures MinIndex([Entry(0, 0, Pos(12, 3))]) == 0
    ensures RemoveAt([Entry(0, 0, Pos(12, 3))], 0) == [] && {Pos(12, 3)} - {Pos(12, 3)} == {}
  {
    assert RemoveAt([Entry(0, 0, Pos(12, 3))], 0) == [];
    assert {Pos(12, 3)} - {Pos(12, 3)} == {};
    MinIndexUnique([Entry(0, 0, Pos(12, 3))], 0);
  }

  /** The neighbour list of the cell turn 0 expands. */
  lemma Around0()
    ensures Rectangular(M) && Neighbors(M, Pos(12, 3)) == [Pos(11, 3)]
  {
    MazeSetting();
    NeighborsUnfold(M, Pos(12, 3));
  }

  lemma Look1_0()
    ensures ScoreOf(G1, Pos(11, 3)) == Fin(1) && ScoreOf(G1, Pos(11, 4)) == Inf
  {
    UnsetCell(Pos(11, 4));
  }

  lemma Look1_1()
    ensures ScoreOf(G1[Pos(11, 4) := Fin(2)], Pos(11, 3)) == Fin(1) && ScoreOf(G1[Pos(11, 4) := Fin(2)], Pos(12, 3)) == Fin(0)
  {
  }

  lemma Look1_2()
    ensures ScoreOf(G1[Pos(11, 4) := Fin(2)], Pos(11, 3)) == Fin(1) && ScoreOf(G1[Pos(11, 4) := Fin(2)], Pos(11, 2)) == Inf
  {
    UnsetCell(Pos(11, 2));
  }

  /** The entry turn 1 pops. */
  lemma Pop1()
    ensures MinIndex([Entry(15, 1, Pos(11, 3))]) == 0
    ensures RemoveAt([Entry(15, 1, Pos(11, 3))], 0) == [] && {Pos(11, 3)} - {Pos(11, 3)} == {}
  {
    assert RemoveAt([Entry(15, 1, Pos(11, 3))], 0) == [];
    assert {Pos(11, 3)} - {Pos(11, 3)} == {};
    MinIndexUnique([Entry(15, 1, Pos(11, 3))], 0);
  }

  /** The neighbour list of the cell turn 1 expands. */
  lemma Around1()
    ensures Rectangular(M) && Neighbors(M, Pos(11, 3)) == [Pos(11, 4), Pos(12, 3), Pos(11, 2)]
  {
    MazeSetting();
    NeighborsUnfold(M, Pos(11, 3));
  }

  lemma Look2_0()
    ensures ScoreOf(G2, Pos(11, 2)) == Fin(2) && ScoreOf(G2, Pos(10, 2)) == Inf
  {
    UnsetCell(Pos(10, 2));
  }

  lemma Look2_1()
    ensures ScoreOf(G2[Pos(10, 2) := Fin(3)], Pos(11, 2)) == Fin(2) && ScoreOf(G2[Pos(10, 2) := Fin(3)], Pos(11, 3)) == Fin(1)
  {
  }

  /** The entry turn 2 pops. */
  lemma Pop2()
    ensures MinIndex([Entry(17, 2, Pos(11, 4)), Entry(15, 3, Pos(11, 2))]) == 1
    ensures RemoveAt([Entry(17, 2, Pos(11, 4)), Entry(15, 3, Pos(11, 2))], 1) == [Entry(17, 2, Pos(11, 4))] && {Pos(11, 2), Pos(11, 4)} - {Pos(11, 2)} == {Pos(11, 4)}
  {
    assert RemoveAt([Entry(17, 2, Pos(11, 4)), Entry(15, 3, Pos(11, 2))], 1) == [Entry(17, 2, Pos(11, 4))];
    assert {Pos(11, 2), Pos(11, 4)} - {Pos(11, 2)} == {Pos(11, 4)};
    MinIndexUnique([Entry(17, 2, Pos(11, 4)), Entry(15, 3, Pos(11, 2))], 1);
  }

  /** The neighbour list of the cell turn 2 expands. */
  lemma Around2()
    ensures Rectangular(M) && Neighbors(M, Pos(11, 2)) == [Pos(10, 2), Pos(11, 3)]
  {
    MazeSetting();
    NeighborsUnfold(M, Pos(11, 2));
  }

  lemma Look3_0()
    ensures ScoreOf(G3, Pos(10, 2)) == Fin(3) && ScoreOf(G3, Pos(9, 2)) == Inf
  {
    UnsetCell(Pos(9, 2));
  }

  lemma Look3_1()
    ensures ScoreOf(G3[Pos(9, 2) := Fin(4)], Pos(10, 2)) == Fin(3) && ScoreOf(G3[Pos(9, 2) := Fin(4)], Pos(11, 2)) == Fin(2)
  {
  }

  /** The entry turn 3 pops. */
  lemma Pop3()
    ensures MinIndex([Entry(17, 2, Pos(11, 4)), Entry(15, 4, Pos(10, 2))]) == 1
    ensures RemoveAt([Entry(17, 2, Pos(11, 4)), Entry(15, 4, Pos(10, 2))], 1) == [Entry(17, 2, Pos(11, 4))] && {Pos(10, 2), Pos(11, 4)} - {Pos(10, 2)} == {Pos(11, 4)}
  {
    assert RemoveAt([Entry(17, 2, Pos(11, 4)), Entry(15, 4, Pos(10, 2))], 1) == [Entry(17, 2, Pos(11, 4))];
    assert {Pos(10, 2), Pos(11, 4)} - {Pos(10, 2)} == {Pos(11, 4)};
    MinIndexUnique([Entry(17, 2, Pos(11, 4)), Entry(15, 4, Pos(10, 2))], 1);
  }

  /** The neighbour list of the cell turn 3 expands. */
  lemma Around3()
    ensures Rectangular(M) && Neighbors(M, Pos(10, 2)) == [Pos(9, 2), Pos(11, 2)]
  {
    MazeSetting();
    NeighborsUnfold(M, Pos(10, 2));
  }

  lemma Look4_0()
    ensures ScoreOf(G4, Pos(9, 2)) == Fin(4) && ScoreOf(G4, Pos(9, 3)) == Inf
  {
    UnsetCell(Pos(9, 3));
  }

  lemma Look4_1()
    ensures ScoreOf(G4[Pos(9, 3) := Fin(5)], Pos(9, 2)) == Fin(4) && ScoreOf(G4[Pos(9, 3) := Fin(5)], Pos(10, 2)) == Fin(3)
  {
  }

  lemma Look4_2()
    ensures ScoreOf(G4[Pos(9, 3) := Fin(5)], Pos(9, 2)) == Fin(4) && ScoreOf(G4[Pos(9, 3) := Fin(5)], Pos(9, 1)) == Inf
  {
    UnsetCell(Pos(9, 1));
  }

  /** The entry turn 4 pops. */
  lemma Pop4()
    ensures MinIndex([Entry(17, 2, Pos(11, 4)), Entry(15, 5, Pos(9, 2))]) == 1
    ensures RemoveAt([Entry(17, 2, Pos(11, 4)), Entry(15, 5, Pos(9, 2))], 1) == [Entry(17, 2, Pos(11, 4))] && {Pos(9, 2), Pos(11, 4)} - {Pos(9, 2)} == {Pos(11, 4)}
  {
    assert RemoveAt([Entry(17, 2, Pos(11, 4)), Entry(15, 5, Pos(9, 2))], 1) == [Entry(17, 2, Pos(11, 4))];
    assert {Pos(9, 2), Pos(11, 4)} - {Pos(9, 2)} == {Pos(11, 4)};
    MinIndexUnique([Entry(17, 2, Pos(11, 4)), Entry(15, 5, Pos(9, 2))], 1);
  }

  /** The neighbour list of the cell turn 4 expands. */
  lemma Around4()
    ensures Rectangular(M) && Neighbors(M, Pos(9, 2)) == [Pos(9, 3), Pos(10, 2), Pos(9, 1)]
  {
    MazeSetting();
    NeighborsUnfold(M, Pos(9, 2));
  }

  lemma Look5_0()
    ensures ScoreOf(G5, Pos(9, 1)) == Fin(5) && ScoreOf(G5, Pos(8, 1)) == Inf
  {
    UnsetCell(Pos(8, 1));
  }

  lemma Look5_1()
    ensures ScoreOf(G5[Pos(8, 1) := Fin(6)], Pos(9, 1)) == Fin(5) && ScoreOf(G5[Pos(8, 1) := Fin(6)], Pos(9, 2)) == Fin(4)
  {
  }

  /** The entry turn 5 pops. */
  lemma Pop5()
    ensures MinIndex([Entry(17, 2, Pos(11, 4)), Entry(17, 6, Pos(9, 3)), Entry(15, 7, Pos(9, 1))]) == 2
    ensures RemoveAt([Entry(17, 2, Pos(11, 4)), Entry(17, 6, Pos(9, 3)), Entry(15, 7, Pos(9, 1))], 2) == [Entry(17, 2, Pos(11, 4)), Entry(17, 6, Pos(9, 3))] && {Pos(9, 1), Pos(9, 3), Pos(11, 4)} - {Pos(9, 1)} == {Pos(9, 3), Pos(11, 4)}
  {
    assert RemoveAt([Entry(17, 2, Pos(11, 4)), Entry(17, 6, Pos(9, 3)), Entry(15, 7, Pos(9, 1))], 2) == [Entry(17, 2, Pos(11, 4)), Entry(17, 6, Pos(9, 3))];
    assert {Pos(9, 1), Pos(9, 3), Pos(11, 4)} - {Pos(9, 1)} == {Pos(9, 3), Pos(11, 4)};
    MinIndexUnique([Entry(17, 2, Pos(11, 4)), Entry(17, 6, Pos(9, 3)), Entry(15, 7, Pos(9, 1))], 2);
  }

  /** The neighbour list of the cell turn 5 expands. */
  lemma Around5()
    ensures Rectangular(M) && Neighbors(M, Pos(9, 1)) == [Pos(8, 1), Pos(9, 2)]
  {
    MazeSetting();
    NeighborsUnfold(M, Pos(9, 1));
  }

  lemma Look6_0()
    ensures ScoreOf(G6, Pos(8, 1)) == Fin(6) && ScoreOf(G6, Pos(7, 1)) == Inf
  {
    UnsetCell(Pos(7, 1));
  }

  lemma Look6_1()
    ensures ScoreOf(G6[Pos(7, 1) := Fin(7)], Pos(8, 1)) == Fin(6) && ScoreOf(G6[Pos(7, 1) := Fin(7)], Pos(9, 1)) == Fin(5)
  {
  }

  /** The entry turn 6 pops. */
  lemma Pop6()
    ensures MinIndex([Entry(17, 2, Pos(11, 4)), Entry(17, 6, Pos(9, 3)), Entry(15, 8, Pos(8, 1))]) == 2
    ensures RemoveAt([Entry(17, 2, Pos(11, 4)), Entry(17, 6, Pos(9, 3)), Entry(15, 8, Pos(8, 1))], 2) == [Entry(17, 2, Pos(11, 4)), Entry(17, 6, Pos(9, 3))] && {Pos(8, 1), Pos(9, 3), Pos(11, 4)} - {Pos(8, 1)} == {Pos(9, 3), Pos(11, 4)}
  {
    assert RemoveAt([Entry(17, 2, Pos(11, 4)), Entry(17, 6, Pos(9, 3)), Entry(15, 8, Pos(8, 1))], 2) == [Entry(17, 2, Pos(11, 4)), Entry(17, 6, Pos(9, 3))];
    assert {Pos(8, 1), Pos(9, 3), Pos(11, 4)} - {Pos(8, 1)} == {Pos(9, 3), Pos(11, 4)};
    MinIndexUnique([Entry(17, 2, Pos(11, 4)), Entry(17, 6, Pos(9, 3)), Entry(15, 8, Pos(8, 1))], 2);
  }

  /** The neighbour list of the cell turn 6 expands. */
  lemma Around6()
    ensures Rectangular(M) && Neighbors(M, Pos(8, 1)) == [Pos(7, 1), Pos(9, 1)]
  {
    MazeSetting();
    NeighborsUnfold(M, Pos(8, 1));
  }

  lemma Look7_0()
    ensures ScoreOf(G7, Pos(7, 1)) == Fin(7) && ScoreOf(G7, Pos(6, 1)) == Inf
  {
    UnsetCell(Pos(6, 1));
  }

  lemma Look7_1()
    ensures ScoreOf(G7[Pos(6, 1) := Fin(8)], Pos(7, 1)) == Fin(7) && ScoreOf(G7[Pos(6, 1) := Fin(8)], Pos(8, 1)) == Fin(6)
  {
  }

  /** The entry turn 7 pops. */
  lemma Pop7()
    ensures MinIndex([Entry(17, 2, Pos(11, 4)), Entry(17, 6, Pos(9, 3)), Entry(15, 9, Pos(7, 1))]) == 2
    ensures RemoveAt([Entry(17, 2, Pos(11, 4)), Entry(17, 6, Pos(9, 3)), Entry(15, 9, Pos(7, 1))], 2) == [Entry(17, 2, Pos(11, 4)), Entry(17, 6, Pos(9, 3))] && {Pos(7, 1), Pos(9, 3), Pos(11, 4)} - {Pos(7, 1)} == {Pos(9, 3), Pos(11, 4)}
  {
    assert RemoveAt([Entry(17, 2, Pos(11, 4)), Entry(17, 6, Pos(9, 3)), Entry(15, 9, Pos(7, 1))], 2) == [Entry(17, 2, Pos(11, 4)), Entry(17, 6, Pos(9, 3))];
    assert {Pos(7, 1), Pos(9, 3), Pos(11, 4)} - {Pos(7, 1)} == {Pos(9, 3), Pos(11, 4)};
    MinIndexUnique([Entry(17, 2, Pos(11, 4)), Entry(17, 6, Pos(9, 3)), Entry(15, 9, Pos(7, 1))], 2);
  }

  /** The neighbour list of the cell turn 7 expands. */
  lemma Around7()
    ensures Rectangular(M) && Neighbors(M, Pos(7, 1)) == [Pos(6, 1), Pos(8, 1)]
  {
    MazeSetting();
    NeighborsUnfold(M, Pos(7, 1));
  }

  lemma Look8_0()
    ensures ScoreOf(G8, Pos(6, 1)) == Fin(8) && ScoreOf(G8, Pos(5, 1)) == Inf
  {
    UnsetCell(Pos(5, 1));
  }

  lemma Look8_1()
    ensures ScoreOf(G8[Pos(5, 1) := Fin(9)], Pos(6, 1)) == Fin(8) && ScoreOf(G8[Pos(5, 1) := Fin(9)], Pos(7, 1)) == Fin(7)
  {
  }

  /** The entry turn 8 pops. */
  lemma Pop8()
    ensures MinIndex([Entry(17, 2, Pos(11, 4)), Entry(17, 6, Pos(9, 3)), Entry(15, 10, Pos(6, 1))]) == 2
    ensures RemoveAt([Entry(17, 2, Pos(11, 4)), Entry(17, 6, Pos(9, 3)), Entry(15, 10, Pos(6, 1))], 2) == [Entry(17, 2, Pos(11, 4)), Entry(17, 6, Pos(9, 3))] && {Pos(6, 1), Pos(9, 3), Pos(11, 4)} - {Pos(6, 1)} == {Pos(9, 3), Pos(11, 4)}
  {
    assert RemoveAt([Entry(17, 2, Pos(11, 4)), Entry(17, 6, Pos(9, 3)), Entry(15, 10, Pos(6, 1))], 2) == [Entry(17, 2, Pos(11, 4)), Entry(17, 6, Pos(9, 3))];
    assert {Pos(6, 1), Pos(9, 3), Pos(11, 4)} - {Pos(6, 1)} == {Pos(9, 3), Pos(11, 4)};
    MinIndexUnique([Entry(17, 2, Pos(11, 4)), Entry(17, 6, Pos(9, 3)), Entry(15, 10, Pos(6, 1))], 2);
  }

  /** The neighbour list of the cell turn 8 expands. */
  lemma Around8()
    ensures Rectangular(M) && Neighbors(M, Pos(6, 1)) == [Pos(5, 1), Pos(7, 1)]
  {
    MazeSetting();
    NeighborsUnfold(M, Pos(6, 1));
  }

  lemma Look9_0()
    ensures ScoreOf(G9, Pos(5, 1)) == Fin(9) && ScoreOf(G9, Pos(6, 1)) == Fin(8)
  {
  }

  lemma Look9_1()
    ensures ScoreOf(G9, Pos(5, 1)) == Fin(9) && ScoreOf(G9, Pos(5, 0)) == Inf
  {
    UnsetCell(Pos(5, 0));
  }

  /** The entry turn 9 pops. */
  lemma Pop9()
    ensures MinIndex([Entry(17, 2, Pos(11, 4)), Entry(17, 6, Pos(9, 3)), Entry(15, 11, Pos(5, 1))]) == 2
    ensures RemoveAt([Entry(17, 2, Pos(11, 4)), Entry(17, 6, Pos(9, 3)), Entry(15, 11, Pos(5, 1))], 2) == [Entry(17, 2, Pos(11, 4)), Entry(17, 6, Pos(9, 3))] && {Pos(5, 1), Pos(9, 3), Pos(11, 4)} - {Pos(5, 1)} == {Pos(9, 3), Pos(11, 4)}
  {
    assert RemoveAt([Entry(17, 2, Pos(11, 4)), Entry(17, 6, Pos(9, 3)), Entry(15, 11, Pos(5, 1))], 2) == [Entry(17, 2, Pos(11, 4)), Entry(17, 6, Pos(9, 3))];
    assert {Pos(5, 1), Pos(9, 3), Pos(11, 4)} - {Pos(5, 1)} == {Pos(9, 3), Pos(11, 4)};
    MinIndexUnique([Entry(17, 2, Pos(11, 4)), Entry(17, 6, Pos(9, 3)), Entry(15, 11, Pos(5, 1))], 2);
  }

  /** The neighbour list of the cell turn 9 expands. */
  lemma Around9()
    ensures Rectangular(M) && Neighbors(M, Pos(5, 1)) == [Pos(6, 1), Pos(5, 0)]
  {
    MazeSetting();
    NeighborsUnfold(M, Pos(5, 1));
  }

  lemma Look10_0()
    ensures ScoreOf(G10, Pos(5, 0)) == Fin(10) && ScoreOf(G10, Pos(4, 0)) == Inf
  {
    UnsetCell(Pos(4, 0));
  }

  lemma Look10_1()
    ensures ScoreOf(G10[Pos(4, 0) := Fin(11)], Pos(5, 0)) == Fin(10) && ScoreOf(G10[Pos(4, 0) := Fin(11)], Pos(5, 1)) == Fin(9)
  {
  }

  /** The entry turn 10 pops. */
  lemma Pop10()
    ensures MinIndex([Entry(17, 2, Pos(11, 4)), Entry(17, 6, Pos(9, 3)), Entry(15, 12, Pos(5, 0))]) == 2
    ensures RemoveAt([Entry(17, 2, Pos(11, 4)), Entry(17, 6, Pos(9, 3)), Entry(15, 12, Pos(5, 0))], 2) == [Entry(17, 2, Pos(11, 4)), Entry(17, 6, Pos(9, 3))] && {Pos(5, 0), Pos(9, 3), Pos(11, 4)} - {Pos(5, 0)} == {Pos(9, 3), Pos(11, 4)}
  {
    assert RemoveAt([Entry(17, 2, Pos(11, 4)), Entry(17, 6, Pos(9, 3)), Entry(15, 12, Pos(5, 0))], 2) == [Entry(17, 2, Pos(11, 4)), Entry(17, 6, Pos(9, 3))];
    assert {Pos(5, 0), Pos(9, 3), Pos(11, 4)} - {Pos(5, 0)} == {Pos(9, 3), Pos(11, 4)};
    MinIndexUnique([Entry(17, 2, Pos(11, 4)), Entry(17, 6, Pos(9, 3)), Entry(15, 12, Pos(5, 0))], 2);
  }

  /** The neighbour list of the cell turn 10 expands. */
  lemma Around10()
    ensures Rectangular(M) && Neighbors(M, Pos(5, 0)) == [Pos(4, 0), Pos(5, 1)]
  {
    MazeSetting();
    NeighborsUnfold(M, Pos(5, 0));
  }

  lemma Look11_0()
    ensures ScoreOf(G11, Pos(4, 0)) == Fin(11) && ScoreOf(G11, Pos(3, 0)) == Inf
  {
    UnsetCell(Pos(3, 0));
  }

  lemma Look11_1()
    ensures ScoreOf(G11[Pos(3, 0) := Fin(12)], Pos(4, 0)) == Fin(11) && ScoreOf(G11[Pos(3, 0) := Fin(12)], Pos(5, 0)) == Fin(10)
  {
  }

  /** The entry turn 11 pops. */
  lemma Pop11()
    ensures MinIndex([Entry(17, 2, Pos(11, 4)), Entry(17, 6, Pos(9, 3)), Entry(15, 13, Pos(4, 0))]) == 2
    ensures RemoveAt([Entry(17, 2, Pos(11, 4)), Entry(17, 6, Pos(9, 3)), Entry(15, 13, Pos(4, 0))], 2) == [Entry(17, 2, Pos(11, 4)), Entry(17, 6, Pos(9, 3))] && {Pos(4, 0), Pos(9, 3), Pos(11, 4)} - {Pos(4, 0)} == {Pos(9, 3), Pos(11, 4)}
  {
    assert RemoveAt([Entry(17, 2, Pos(11, 4)), Entry(17, 6, Pos(9, 3)), Entry(15, 13, Pos(4, 0))], 2) == [Entry(17, 2, Pos(11, 4)), Entry(17, 6, Pos(9, 3))];
    assert {Pos(4, 0), Pos(9, 3), Pos(11, 4)} - {Pos(4, 0)} == {Pos(9, 3), Pos(11, 4)};
    MinIndexUnique([Entry(17, 2, Pos(11, 4)), Entry(17, 6, Pos(9, 3)), Entry(15, 13, Pos(4, 0))], 2);
  }

  /** The neighbour list of the cell turn 11 expands. */
  lemma Around11()
    ensures Rectangular(M) && Neighbors(M, Pos(4, 0)) == [Pos(3, 0), Pos(5, 0)]
  {
    MazeSetting();
    NeighborsUnfold(M, Pos(4, 0));
  }

  lemma Look12_0()
    ensures ScoreOf(G12, Pos(3, 0)) == Fin(12) && ScoreOf(G12, Pos(3, 1)) == Inf
  {
    UnsetCell(Pos(3, 1));
  }

  lemma Look12_1()
    ensures ScoreOf(G12[Pos(3, 1) := Fin(13)], Pos(3, 0)) == Fin(12) && ScoreOf(G12[Pos(3, 1) := Fin(13)], Pos(4, 0)) == Fin(11)
  {
  }

  /** The entry turn 12 pops. */
  lemma Pop12()
    ensures MinIndex([Entry(17, 2, Pos(11, 4)), Entry(17, 6, Pos(9, 3)), Entry(15, 14, Pos(3, 0))]) == 2
    ensures RemoveAt([Entry(17, 2, Pos(11, 4)), Entry(17, 6, Pos(9, 3)), Entry(15, 14, Pos(3, 0))], 2) == [Entry(17, 2, Pos(11, 4)), Entry(17, 6, Pos(9, 3))] && {Pos(3, 0), Pos(9, 3), Pos(11, 4)} - {Pos(3, 0)} == {Pos(9, 3), Pos(11, 4)}
  {
    assert RemoveAt([Entry(17, 2, Pos(11, 4)), Entry(17, 6, Pos(9, 3)), Entry(15, 14, Pos(3, 0))], 2) == [Entry(17, 2, Pos(11, 4)), Entry(17, 6, Pos(9, 3))];
    assert {Pos(3, 0), Pos(9, 3), Pos(11, 4)} - {Pos(3, 0)} == {Pos(9, 3), Pos(11, 4)};
    MinIndexUnique([Entry(17, 2, Pos(11, 4)), Entry(17, 6, Pos(9, 3)), Entry(15, 14, Pos(3, 0))], 2);
  }

  /** The neighbour list of the cell turn 12 expands. */
  lemma Around12()
    ensures Rectangular(M) && Neighbors(M, Pos(3, 0)) == [Pos(3, 1), Pos(4, 0)]
  {
    MazeSetting();
    NeighborsUnfold(M, Pos(3, 0));
  }

  lemma Look13_0()
    ensures ScoreOf(G13, Pos(11, 4)) == Fin(2) && ScoreOf(G13, Pos(10, 4)) == Inf
  {
    UnsetCell(Pos(10, 4));
  }

  lemma Look13_1()
    ensures ScoreOf(G13[Pos(10, 4) := Fin(3)], Pos(11, 4)) == Fin(2) && ScoreOf(G13[Pos(10, 4) := Fin(3)], Pos(11, 3)) == Fin(1)
  {
  }

  /** The entry turn 13 pops. */
  lemma Pop13()
    ensures MinIndex([Entry(17, 2, Pos(11, 4)), Entry(17, 6, Pos(9, 3)), Entry(17, 15, Pos(3, 1))]) == 0
    ensures RemoveAt([Entry(17, 2, Pos(11, 4)), Entry(17, 6, Pos(9, 3)), Entry(17, 15, Pos(3, 1))], 0) == [Entry(17, 6, Pos(9, 3)), Entry(17, 15, Pos(3, 1))] && {Pos(3, 1), Pos(9, 3), Pos(11, 4)} - {Pos(11, 4)} == {Pos(3, 1), Pos(9, 3)}
  {
    assert RemoveAt([Entry(17, 2, Pos(11, 4)), Entry(17, 6, Pos(9, 3)), Entry(17, 15, Pos(3, 1))], 0) == [Entry(17, 6, Pos(9, 3)), Entry(17, 15, Pos(3, 1))];
    assert {Pos(3, 1), Pos(9, 3), Pos(11, 4)} - {Pos(11, 4)} == {Pos(3, 1), Pos(9, 3)};
    MinIndexUnique([Entry(17, 2, Pos(11, 4)), Entry(17, 6, Pos(9, 3)), Entry(17, 15, Pos(3, 1))], 0);
  }

  /** The neighbour list of the cell turn 13 expands. */
  lemma Around13()
    ensures Rectangular(M) && Neighbors(M, Pos(11, 4)) == [Pos(10, 4), Pos(11, 3)]
  {
    MazeSetting();
    NeighborsUnfold(M, Pos(11, 4));
  }

  lemma Look14_0()
    ensures ScoreOf(G14, Pos(9, 3)) == Fin(5) && ScoreOf(G14, Pos(8, 3)) == Inf
  {
    UnsetCell(Pos(8, 3));
  }

  lemma Look14_1()
    ensures ScoreOf(G14[Pos(8, 3) := Fin(6)], Pos(9, 3)) == Fin(5) && ScoreOf(G14[Pos(8, 3) := Fin(6)], Pos(9, 4)) == Inf
  {
    UnsetCell(Pos(9, 4));
  }

  lemma Look14_2()
    ensures ScoreOf(G14[Pos(8, 3) := Fin(6)][Pos(9, 4) := Fin(6)], Pos(9, 3)) == Fin(5) && ScoreOf(G14[Pos(8, 3) := Fin(6)][Pos(9, 4) := Fin(6)], Pos(9, 2)) == Fin(4)
  {
  }

  /** The entry turn 14 pops. */
  lemma Pop14()
    ensures MinIndex([Entry(17, 6, Pos(9, 3)), Entry(17, 15, Pos(3, 1)), Entry(17, 16, Pos(10, 4))]) == 0
    ensures RemoveAt([Entry(17, 6, Pos(9, 3)), Entry(17, 15, Pos(3, 1)), Entry(17, 16, Pos(10, 4))], 0) == [Entry(17, 15, Pos(3, 1)), Entry(17, 16, Pos(10, 4))] && {Pos(3, 1), Pos(9, 3), Pos(10, 4)} - {Pos(9, 3)} == {Pos(3, 1), Pos(10, 4)}
  {
    assert RemoveAt([Entry(17, 6, Pos(9, 3)), Entry(17, 15, Pos(3, 1)), Entry(17, 16, Pos(10, 4))], 0) == [Entry(17, 15, Pos(3, 1)), Entry(17, 16, Pos(10, 4))];
    assert {Pos(3, 1), Pos(9, 3), Pos(10, 4)} - {Pos(9, 3)} == {Pos(3, 1), Pos(10, 4)};
    MinIndexUnique([Entry(17, 6, Pos(9, 3)), Entry(17, 15, Pos(3, 1)), Entry(17, 16, Pos(10, 4))], 0);
  }

  /** The neighbour list of the cell turn 14 expands. */
  lemma Around14()
    ensures Rectangular(M) && Neighbors(M, Pos(9, 3)) == [Pos(8, 3), Pos(9, 4), Pos(9, 2)]
  {
    MazeSetting();
    NeighborsUnfold(M, Pos(9, 3));
  }

  lemma Look15_0()
    ensures ScoreOf(G15, Pos(3, 1)) == Fin(13) && ScoreOf(G15, Pos(3, 2)) == Inf
  {
    UnsetCell(Pos(3, 2));
  }

  lemma Look15_1()
    ensures ScoreOf(G15[Pos(3, 2) := Fin(14)], Pos(3, 1)) == Fin(13) && ScoreOf(G15[Pos(3, 2) := Fin(14)], Pos(3, 0)) == Fin(12)
  {
  }

  /** The entry turn 15 pops. */
  lemma Pop15()
    ensures MinIndex([Entry(17, 15, Pos(3, 1)), Entry(17, 16, Pos(10, 4)), Entry(17, 17, Pos(8, 3)), Entry(19, 18, Pos(9, 4))]) == 0
    ensures RemoveAt([Entry(17, 15, Pos(3, 1)), Entry(17, 16, Pos(10, 4)), Entry(17, 17, Pos(8, 3)), Entry(19, 18, Pos(9, 4))], 0) == [Entry(17, 16, Pos(10, 4)), Entry(17, 17, Pos(8, 3)), Entry(19, 18, Pos(9, 4))] && {Pos(3, 1), Pos(8, 3), Pos(9, 4), Pos(10, 4)} - {Pos(3, 1)} == {Pos(8, 3), Pos(9, 4), Pos(10, 4)}
  {
    assert RemoveAt([Entry(17, 15, Pos(3, 1)), Entry(17, 16, Pos(10, 4)), Entry(17, 17, Pos(8, 3)), Entry(19, 18, Pos(9, 4))], 0) == [Entry(17, 16, Pos(10, 4)), Entry(17, 17, Pos(8, 3)), Entry(19, 18, Pos(9, 4))];
    assert {Pos(3, 1), Pos(8, 3), Pos(9, 4), Pos(10, 4)} - {Pos(3, 1)} == {Pos(8, 3), Pos(9, 4), Pos(10, 4)};
    MinIndexUnique([Entry(17, 15, Pos(3, 1)), Entry(17, 16, Pos(10, 4)), Entry(17, 17, Pos(8, 3)), Entry(19, 18, Pos(9, 4))], 0);
  }

  /** The neighbour list of the cell turn 15 expands. */
  lemma Around15()
    ensures Rectangular(M) && Neighbors(M, Pos(3, 1)) == [Pos(3, 2), Pos(3, 0)]
  {
    MazeSetting();
    NeighborsUnfold(M, Pos(3, 1));
  }

  lemma Look16_0()
    ensures ScoreOf(G16, Pos(10, 4)) == Fin(3) && ScoreOf(G16, Pos(9, 4)) == Fin(6)
  {
  }

  lemma Look16_1()
    ensures ScoreOf(G16[Pos(9, 4) := Fin(4)], Pos(10, 4)) == Fin(3) && ScoreOf(G16[Pos(9, 4) := Fin(4)], Pos(11, 4)) == Fin(2)
  {
  }

  /** The entry turn 16 pops. */
  lemma Pop16()
    ensures MinIndex([Entry(17, 16, Pos(10, 4)), Entry(17, 17, Pos(8, 3)), Entry(19, 18, Pos(9, 4)), Entry(19, 19, Pos(3, 2))]) == 0
    ensures RemoveAt([Entry(17, 16, Pos(10, 4)), Entry(17, 17, Pos(8, 3)), Entry(19, 18, Pos(9, 4)), Entry(19, 19, Pos(3, 2))], 0) == [Entry(17, 17, Pos(8, 3)), Entry(19, 18, Pos(9, 4)), Entry(19, 19, Pos(3, 2))] && {Pos(3, 2), Pos(8, 3), Pos(9, 4), Pos(10, 4)} - {Pos(10, 4)} == {Pos(3, 2), Pos(8, 3), Pos(9, 4)}
  {
    assert RemoveAt([Entry(17, 16, Pos(10, 4)), Entry(17, 17, Pos(8, 3)), Entry(19, 18, Pos(9, 4)), Entry(19, 19, Pos(3, 2))], 0) == [Entry(17, 17, Pos(8, 3)), Entry(19, 18, Pos(9, 4)), Entry(19, 19, Pos(3, 2))];
    assert {Pos(3, 2), Pos(8, 3), Pos(9, 4), Pos(10, 4)} - {Pos(10, 4)} == {Pos(3, 2), Pos(8, 3), Pos(9, 4)};
    MinIndexUnique([Entry(17, 16, Pos(10, 4)), Entry(17, 17, Pos(8, 3)), Entry(19, 18, Pos(9, 4)), Entry(19, 19, Pos(3, 2))], 0);
  }

  /** The neighbour list of the cell turn 16 expands. */
  lemma Around16()
    ensures Rectangular(M) && Neighbors(M, Pos(10, 4)) == [Pos(9, 4), Pos(11, 4)]
  {
    MazeSetting();
    NeighborsUnfold(M, Pos(10, 4));
  }

  lemma Look17_0()
    ensures ScoreOf(G17, Pos(8, 3)) == Fin(6) && ScoreOf(G17, Pos(8, 4)) == Inf
  {
    UnsetCell(Pos(8, 4));
  }

  lemma Look17_1()
    ensures ScoreOf(G17[Pos(8, 4) := Fin(7)], Pos(8, 3)) == Fin(6) && ScoreOf(G17[Pos(8, 4) := Fin(7)], Pos(9, 3)) == Fin(5)
  {
  }

  /** The entry turn 17 pops. */
  lemma Pop17()
    ensures MinIndex([Entry(17, 17, Pos(8, 3)), Entry(19, 18, Pos(9, 4)), Entry(19, 19, Pos(3, 2))]) == 0
    ensures RemoveAt([Entry(17, 17, Pos(8, 3)), Entry(19, 18, Pos(9, 4)), Entry(19, 19, Pos(3, 2))], 0) == [Entry(19, 18, Pos(9, 4)), Entry(19, 19, Pos(3, 2))] && {Pos(3, 2), Pos(8, 3), Pos(9, 4)} - {Pos(8, 3)} == {Pos(3, 2), Pos(9, 4)}
  {
    assert RemoveAt([Entry(17, 17, Pos(8, 3)), Entry(19, 18, Pos(9, 4)), Entry(19, 19, Pos(3, 2))], 0) == [Entry(19, 18, Pos(9, 4)), Entry(19, 19, Pos(3, 2))];
    assert {Pos(3, 2), Pos(8, 3), Pos(9, 4)} - {Pos(8, 3)} == {Pos(3, 2), Pos(9, 4)};
    MinIndexUnique([Entry(17, 17, Pos(8, 3)), Entry(19, 18, Pos(9, 4)), Entry(19, 19, Pos(3, 2))], 0);
  }

  /** The neighbour list of the cell turn 17 expands. */
  lemma Around17()
    ensures Rectangular(M) && Neighbors(M, Pos(8, 3)) == [Pos(8, 4), Pos(9, 3)]
  {
    MazeSetting();
    NeighborsUnfold(M, Pos(8, 3));
  }

  lemma Look18_0()
    ensures ScoreOf(G18, Pos(9, 4)) == Fin(4) && ScoreOf(G18, Pos(8, 4)) == Fin(7)
  {
  }

  lemma Look18_1()
    ensures ScoreOf(G18[Pos(8, 4) := Fin(5)], Pos(9, 4)) == Fin(4) && ScoreOf(G18[Pos(8, 4) := Fin(5)], Pos(10, 4)) == Fin(3)
  {
  }

  lemma Look18_2()
    ensures ScoreOf(G18[Pos(8, 4) := Fin(5)], Pos(9, 4)) == Fin(4) && ScoreOf(G18[Pos(8, 4) := Fin(5)], Pos(9, 3)) == Fin(5)
  {
  }

  /** The entry turn 18 pops. */
  lemma Pop18()
    ensures MinIndex([Entry(19, 18, Pos(9, 4)), Entry(19, 19, Pos(3, 2)), Entry(19, 20, Pos(8, 4))]) == 0
    ensures RemoveAt([Entry(19, 18, Pos(9, 4)), Entry(19, 19, Pos(3, 2)), Entry(19, 20, Pos(8, 4))], 0) == [Entry(19, 19, Pos(3, 2)), Entry(19, 20, Pos(8, 4))] && {Pos(3, 2), Pos(8, 4), Pos(9, 4)} - {Pos(9, 4)} == {Pos(3, 2), Pos(8, 4)}
  {
    assert RemoveAt([Entry(19, 18, Pos(9, 4)), Entry(19, 19, Pos(3, 2)), Entry(19, 20, Pos(8, 4))], 0) == [Entry(19, 19, Pos(3, 2)), Entry(19, 20, Pos(8, 4))];
    assert {Pos(3, 2), Pos(8, 4), Pos(9, 4)} - {Pos(9, 4)} == {Pos(3, 2), Pos(8, 4)};
    MinIndexUnique([Entry(19, 18, Pos(9, 4)), Entry(19, 19, Pos(3, 2)), Entry(19, 20, Pos(8, 4))], 0);
  }

  /** The neighbour list of the cell turn 18 expands. */
  lemma Around18()
    ensures Rectangular(M) && Neighbors(M, Pos(9, 4)) == [Pos(8, 4), Pos(10, 4), Pos(9, 3)]
  {
    MazeSetting();
    NeighborsUnfold(M, Pos(9, 4));
  }

  lemma Look19_0()
    ensures ScoreOf(G19, Pos(3, 2)) == Fin(14) && ScoreOf(G19, Pos(2, 2)) == Inf
  {
    UnsetCell(Pos(2, 2));
  }

  lemma Look19_1()
    ensures ScoreOf(G19[Pos(2, 2) := Fin(15)], Pos(3, 2)) == Fin(14) && ScoreOf(G19[Pos(2, 2) := Fin(15)], Pos(4, 2)) == Inf
  {
    UnsetCell(Pos(4, 2));
  }

  lemma Look19_2()
    ensures ScoreOf(G19[Pos(2, 2) := Fin(15)][Pos(4, 2) := Fin(15)], Pos(3, 2)) == Fin(14) && ScoreOf(G19[Pos(2, 2) := Fin(15)][Pos(4, 2) := Fin(15)], Pos(3, 1)) == Fin(13)
  {
  }

  /** The entry turn 19 pops. */
  lemma Pop19()
    ensures MinIndex([Entry(19, 19, Pos(3, 2)), Entry(19, 20, Pos(8, 4))]) == 0
    ensures RemoveAt([Entry(19, 19, Pos(3, 2)), Entry(19, 20, Pos(8, 4))], 0) == [Entry(19, 20, Pos(8, 4))] && {Pos(3, 2), Pos(8, 4)} - {Pos(3, 2)} == {Pos(8, 4)}
  {
    assert RemoveAt([Entry(19, 19, Pos(3, 2)), Entry(19, 20, Pos(8, 4))], 0) == [Entry(19, 20, Pos(8, 4))];
    assert {Pos(3, 2), Pos(8, 4)} - {Pos(3, 2)} == {Pos(8, 4)};
    MinIndexUnique([Entry(19, 19, Pos(3, 2)), Entry(19, 20, Pos(8, 4))], 0);
  }

  /** The neighbour list of the cell turn 19 expands. */
  lemma Around19()
    ensures Rectangular(M) && Neighbors(M, Pos(3, 2)) == [Pos(2, 2), Pos(4, 2), Pos(3, 1)]
  {
    MazeSetting();
    NeighborsUnfold(M, Pos(3, 2));
  }

  lemma Look20_0()
    ensures ScoreOf(G20, Pos(8, 4)) == Fin(5) && ScoreOf(G20, Pos(7, 4)) == Inf
  {
    UnsetCell(Pos(7, 4));
  }

  lemma Look20_1()
    ensures ScoreOf(G20[Pos(7, 4) := Fin(6)], Pos(8, 4)) == Fin(5) && ScoreOf(G20[Pos(7, 4) := Fin(6)], Pos(9, 4)) == Fin(4)
  {
  }

  lemma Look20_2()
    ensures ScoreOf(G20[Pos(7, 4) := Fin(6)], Pos(8, 4)) == Fin(5) && ScoreOf(G20[Pos(7, 4) := Fin(6)], Pos(8, 3)) == Fin(6)
  {
  }

  /** The entry turn 20 pops. */
  lemma Pop20()
    ensures MinIndex([Entry(19, 20, Pos(8, 4)), Entry(19, 21, Pos(2, 2)), Entry(21, 22, Pos(4, 2))]) == 0
    ensures RemoveAt([Entry(19, 20, Pos(8, 4)), Entry(19, 21, Pos(2, 2)), Entry(21, 22, Pos(4, 2))], 0) == [Entry(19, 21, Pos(2, 2)), Entry(21, 22, Pos(4, 2))] && {Pos(2, 2), Pos(4, 2), Pos(8, 4)} - {Pos(8, 4)} == {Pos(2, 2), Pos(4, 2)}
  {
    assert RemoveAt([Entry(19, 20, Pos(8, 4)), Entry(19, 21, Pos(2, 2)), Entry(21, 22, Pos(4, 2))], 0) == [Entry(19, 21, Pos(2, 2)), Entry(21, 22, Pos(4, 2))];
    assert {Pos(2, 2), Pos(4, 2), Pos(8, 4)} - {Pos(8, 4)} == {Pos(2, 2), Pos(4, 2)};
    MinIndexUnique([Entry(19, 20, Pos(8, 4)), Entry(19, 21, Pos(2, 2)), Entry(21, 22, Pos(4, 2))], 0);
  }

  /** The neighbour list of the cell turn 20 expands. */
  lemma Around20()
    ensures Rectangular(M) && Neighbors(M, Pos(8, 4)) == [Pos(7, 4), Pos(9, 4), Pos(8, 3)]
  {
    MazeSetting();
    NeighborsUnfold(M, Pos(8, 4));
  }

  lemma Look21_0()
    ensures ScoreOf(G21, Pos(7, 4)) == Fin(6) && ScoreOf(G21, Pos(6, 4)) == Inf
  {
    UnsetCell(Pos(6, 4));
  }

  lemma Look21_1()
    ensures ScoreOf(G21[Pos(6, 4) := Fin(7)], Pos(7, 4)) == Fin(6) && ScoreOf(G21[Pos(6, 4) := Fin(7)], Pos(8, 4)) == Fin(5)
  {
  }

  /** The entry turn 21 pops. */
  lemma Pop21()
    ensures MinIndex([Entry(19, 21, Pos(2, 2)), Entry(21, 22, Pos(4, 2)), Entry(17, 23, Pos(7, 4))]) == 2
    ensures RemoveAt([Entry(19, 21, Pos(2, 2)), Entry(21, 22, Pos(4, 2)), Entry(17, 23, Pos(7, 4))], 2) == [Entry(19, 21, Pos(2, 2)), Entry(21, 22, Pos(4, 2))] && {Pos(2, 2), Pos(4, 2), Pos(7, 4)} - {Pos(7, 4)} == {Pos(2, 2), Pos(4, 2)}
  {
    assert RemoveAt([Entry(19, 21, Pos(2, 2)), Entry(21, 22, Pos(4, 2)), Entry(17, 23, Pos(7, 4))], 2) == [Entry(19, 21, Pos(2, 2)), Entry(21, 22, Pos(4, 2))];
    assert {Pos(2, 2), Pos(4, 2), Pos(7, 4)} - {Pos(7, 4)} == {Pos(2, 2), Pos(4, 2)};
    MinIndexUnique([Entry(19, 21, Pos(2, 2)), Entry(21, 22, Pos(4, 2)), Entry(17, 23, Pos(7, 4))], 2);
  }

  /** The neighbour list of the cell turn 21 expands. */
  lemma Around21()
    ensures Rectangular(M) && Neighbors(M, Pos(7, 4)) == [Pos(6, 4), Pos(8, 4)]
  {
    MazeSetting();
    NeighborsUnfold(M, Pos(7, 4));
  }

  lemma Look22_0()
    ensures ScoreOf(G22, Pos(6, 4)) == Fin(7) && ScoreOf(G22, Pos(5, 4)) == Inf
  {
    UnsetCell(Pos(5, 4));
  }

  lemma Look22_1()
    ensures ScoreOf(G22[Pos(5, 4) := Fin(8)], Pos(6, 4)) == Fin(7) && ScoreOf(G22[Pos(5, 4) := Fin(8)], Pos(7, 4)) == Fin(6)
  {
  }

  /** The entry turn 22 pops. */
  lemma Pop22()
    ensures MinIndex([Entry(19, 21, Pos(2, 2)), Entry(21, 22, Pos(4, 2)), Entry(17, 24, Pos(6, 4))]) == 2
    ensures RemoveAt([Entry(19, 21, Pos(2, 2)), Entry(21, 22, Pos(4, 2)), Entry(17, 24, Pos(6, 4))], 2) == [Entry(19, 21, Pos(2, 2)), Entry(21, 22, Pos(4, 2))] && {Pos(2, 2), Pos(4, 2), Pos(6, 4)} - {Pos(6, 4)} == {Pos(2, 2), Pos(4, 2)}
  {
    assert RemoveAt([Entry(19, 21, Pos(2, 2)), Entry(21, 22, Pos(4, 2)), Entry(17, 24, Pos(6, 4))], 2) == [Entry(19, 21, Pos(2, 2)), Entry(21, 22, Pos(4, 2))];
    assert {Pos(2, 2), Pos(4, 2), Pos(6, 4)} - {Pos(6, 4)} == {Pos(2, 2), Pos(4, 2)};
    MinIndexUnique([Entry(19, 21, Pos(2, 2)), Entry(21, 22, Pos(4, 2)), Entry(17, 24, Pos(6, 4))], 2);
  }

  /** The neighbour list of the cell turn 22 expands. */
  lemma Around22()
    ensures Rectangular(M) && Neighbors(M, Pos(6, 4)) == [Pos(5, 4), Pos(7, 4)]
  {
    MazeSetting();
    NeighborsUnfold(M, Pos(6, 4));
  }

  lemma Look23_0()
    ensures ScoreOf(G23, Pos(5, 4)) == Fin(8) && ScoreOf(G23, Pos(6, 4)) == Fin(7)
  {
  }

  lemma Look23_1()
    ensures ScoreOf(G23, Pos(5, 4)) == Fin(8) && ScoreOf(G23, Pos(5, 3)) == Inf
  {
    UnsetCell(Pos(5, 3));
  }

  /** The entry turn 23 pops. */
  lemma Pop23()
    ensures MinIndex([Entry(19, 21, Pos(2, 2)), Entry(21, 22, Pos(4, 2)), Entry(17, 25, Pos(5, 4))]) == 2
    ensures RemoveAt([Entry(19, 21, Pos(2, 2)), Entry(21, 22, Pos(4, 2)), Entry(17, 25, Pos(5, 4))], 2) == [Entry(19, 21, Pos(2, 2)), Entry(21, 22, Pos(4, 2))] && {Pos(2, 2), Pos(4, 2), Pos(5, 4)} - {Pos(5, 4)} == {Pos(2, 2), Pos(4, 2)}
  {
    assert RemoveAt([Entry(19, 21, Pos(2, 2)), Entry(21, 22, Pos(4, 2)), Entry(17, 25, Pos(5, 4))], 2) == [Entry(19, 21, Pos(2, 2)), Entry(21, 22, Pos(4, 2))];
    assert {Pos(2, 2), Pos(4, 2), Pos(5, 4)} - {Pos(5, 4)} == {Pos(2, 2), Pos(4, 2)};
    MinIndexUnique([Entry(19, 21, Pos(2, 2)), Entry(21, 22, Pos(4, 2)), Entry(17, 25, Pos(5, 4))], 2);
  }

  /** The neighbour list of the cell turn 23 expands. */
  lemma Around23()
    ensures Rectangular(M) && Neighbors(M, Pos(5, 4)) == [Pos(6, 4), Pos(5, 3)]
  {
    MazeSetting();
    NeighborsUnfold(M, Pos(5, 4));
  }

  lemma Look24_0()
    ensures ScoreOf(G24, Pos(5, 3)) == Fin(9) && ScoreOf(G24, Pos(4, 3)) == Inf
  {
    UnsetCell(Pos(4, 3));
  }

  lemma Look24_1()
    ensures ScoreOf(G24[Pos(4, 3) := Fin(10)], Pos(5, 3)) == Fin(9) && ScoreOf(G24[Pos(4, 3) := Fin(10)], Pos(5, 4)) == Fin(8)
  {
  }

  /** The entry turn 24 pops. */
  lemma Pop24()
    ensures MinIndex([Entry(19, 21, Pos(2, 2)), Entry(21, 22, Pos(4, 2)), Entry(17, 26, Pos(5, 3))]) == 2
    ensures RemoveAt([Entry(19, 21, Pos(2, 2)), Entry(21, 22, Pos(4, 2)), Entry(17, 26, Pos(5, 3))], 2) == [Entry(19, 21, Pos(2, 2)), Entry(21, 22, Pos(4, 2))] && {Pos(2, 2), Pos(4, 2), Pos(5, 3)} - {Pos(5, 3)} == {Pos(2, 2), Pos(4, 2)}
  {
    assert RemoveAt([Entry(19, 21, Pos(2, 2)), Entry(21, 22, Pos(4, 2)), Entry(17, 26, Pos(5, 3))], 2) == [Entry(19, 21, Pos(2, 2)), Entry(21, 22, Pos(4, 2))];
    assert {Pos(2, 2), Pos(4, 2), Pos(5, 3)} - {Pos(5, 3)} == {Pos(2, 2), Pos(4, 2)};
    MinIndexUnique([Entry(19, 21, Pos(2, 2)), Entry(21, 22, Pos(4, 2)), Entry(17, 26, Pos(5, 3))], 2);
  }

  /** The neighbour list of the cell turn 24 expands. */
  lemma Around24()
    ensures Rectangular(M) && Neighbors(M, Pos(5, 3)) == [Pos(4, 3), Pos(5, 4)]
  {
    MazeSetting();
    NeighborsUnfold(M, Pos(5, 3));
  }

  lemma Look25_0()
    ensures ScoreOf(G25, Pos(4, 3)) == Fin(10) && ScoreOf(G25, Pos(5, 3)) == Fin(9)
  {
  }

  lemma Look25_1()
    ensures ScoreOf(G25, Pos(4, 3)) == Fin(10) && ScoreOf(G25, Pos(4, 2)) == Fin(15)
  {
  }

  /** The entry turn 25 pops. */
  lemma Pop25()
    ensures MinIndex([Entry(19, 21, Pos(2, 2)), Entry(21, 22, Pos(4, 2)), Entry(17, 27, Pos(4, 3))]) == 2
    ensures RemoveAt([Entry(19, 21, Pos(2, 2)), Entry(21, 22, Pos(4, 2)), Entry(17, 27, Pos(4, 3))], 2) == [Entry(19, 21, Pos(2, 2)), Entry(21, 22, Pos(4, 2))] && {Pos(2, 2), Pos(4, 2), Pos(4, 3)} - {Pos(4, 3)} == {Pos(2, 2), Pos(4, 2)}
  {
    assert RemoveAt([Entry(19, 21, Pos(2, 2)), Entry(21, 22, Pos(4, 2)), Entry(17, 27, Pos(4, 3))], 2) == [Entry(19, 21, Pos(2, 2)), Entry(21, 22, Pos(4, 2))];
    assert {Pos(2, 2), Pos(4, 2), Pos(4, 3)} - {Pos(4, 3)} == {Pos(2, 2), Pos(4, 2)};
    MinIndexUnique([Entry(19, 21, Pos(2, 2)), Entry(21, 22, Pos(4, 2)), Entry(17, 27, Pos(4, 3))], 2);
  }

  /** The neighbour list of the cell turn 25 expands. */
  lemma Around25()
    ensures Rectangular(M) && Neighbors(M, Pos(4, 3)) == [Pos(5, 3), Pos(4, 2)]
  {
    MazeSetting();
    NeighborsUnfold(M, Pos(4, 3));
  }

  lemma Look26_0()
    ensures ScoreOf(G26, Pos(2, 2)) == Fin(15) && ScoreOf(G26, Pos(1, 2)) == Inf
  {
    UnsetCell(Pos(1, 2));
  }

  lemma Look26_1()
    ensures ScoreOf(G26[Pos(1, 2) := Fin(16)], Pos(2, 2)) == Fin(15) && ScoreOf(G26[Pos(1, 2) := Fin(16)], Pos(3, 2)) == Fin(14)
  {
  }

  /** The entry turn 26 pops. */
  lemma Pop26()
    ensures MinIndex([Entry(19, 21, Pos(2, 2)), Entry(21, 22, Pos(4, 2))]) == 0
    ensures RemoveAt([Entry(19, 21, Pos(2, 2)), Entry(21, 22, Pos(4, 2))], 0) == [Entry(21, 22, Pos(4, 2))] && {Pos(2, 2), Pos(4, 2)} - {Pos(2, 2)} == {Pos(4, 2)}
  {
    assert RemoveAt([Entry(19, 21, Pos(2, 2)), Entry(21, 22, Pos(4, 2))], 0) == [Entry(21, 22, Pos(4, 2))];
    assert {Pos(2, 2), Pos(4, 2)} - {Pos(2, 2)} == {Pos(4, 2)};
    MinIndexUnique([Entry(19, 21, Pos(2, 2)), Entry(21, 22, Pos(4, 2))], 0);
  }

  /** The neighbour list of the cell turn 26 expands. */
  lemma Around26()
    ensures Rectangular(M) && Neighbors(M, Pos(2, 2)) == [Pos(1, 2), Pos(3, 2)]
  {
    MazeSetting();
    NeighborsUnfold(M, Pos(2, 2));
  }

  lemma Look27_0()
    ensures ScoreOf(G27, Pos(1, 2)) == Fin(16) && ScoreOf(G27, Pos(0, 2)) == Inf
  {
    UnsetCell(Pos(0, 2));
  }

  lemma Look27_1()
    ensures ScoreOf(G27[Pos(0, 2) := Fin(17)], Pos(1, 2)) == Fin(16) && ScoreOf(G27[Pos(0, 2) := Fin(17)], Pos(2, 2)) == Fin(15)
  {
  }

  /** The entry turn 27 pops. */
  lemma Pop27()
    ensures MinIndex([Entry(21, 22, Pos(4, 2)), Entry(19, 28, Pos(1, 2))]) == 1
    ensures RemoveAt([Entry(21, 22, Pos(4, 2)), Entry(19, 28, Pos(1, 2))], 1) == [Entry(21, 22, Pos(4, 2))] && {Pos(1, 2), Pos(4, 2)} - {Pos(1, 2)} == {Pos(4, 2)}
  {
    assert RemoveAt([Entry(21, 22, Pos(4, 2)), Entry(19, 28, Pos(1, 2))], 1) == [Entry(21, 22, Pos(4, 2))];
    assert {Pos(1, 2), Pos(4, 2)} - {Pos(1, 2)} == {Pos(4, 2)};
    MinIndexUnique([Entry(21, 22, Pos(4, 2)), Entry(19, 28, Pos(1, 2))], 1);
  }

  /** The neighbour list of the cell turn 27 expands. */
  lemma Around27()
    ensures Rectangular(M) && Neighbors(M, Pos(1, 2)) == [Pos(0, 2), Pos(2, 2)]
  {
    MazeSetting();
    NeighborsUnfold(M, Pos(1, 2));
  }

  lemma Look28_0()
    ensures ScoreOf(G28, Pos(0, 2)) == Fin(17) && ScoreOf(G28, Pos(1, 2)) == Fin(16)
  {
  }

  lemma Look28_1()
    ensures ScoreOf(G28, Pos(0, 2)) == Fin(17) && ScoreOf(G28, Pos(0, 1)) == Inf
  {
    UnsetCell(Pos(0, 1));
  }

  /** The entry turn 28 pops. */
  lemma Pop28()
    ensures MinIndex([Entry(21, 22, Pos(4, 2)), Entry(19, 29, Pos(0, 2))]) == 1
    ensures RemoveAt([Entry(21, 22, Pos(4, 2)), Entry(19, 29, Pos(0, 2))], 1) == [Entry(21, 22, Pos(4, 2))] && {Pos(0, 2), Pos(4, 2)} - {Pos(0, 2)} == {Pos(4, 2)}
  {
    assert RemoveAt([Entry(21, 22, Pos(4, 2)), Entry(19, 29, Pos(0, 2))], 1) == [Entry(21, 22, Pos(4, 2))];
    assert {Pos(0, 2), Pos(4, 2)} - {Pos(0, 2)} == {Pos(4, 2)};
    MinIndexUnique([Entry(21, 22, Pos(4, 2)), Entry(19, 29, Pos(0, 2))], 1);
  }

  /** The neighbour list of the cell turn 28 expands. */
  lemma Around28()
    ensures Rectangular(M) && Neighbors(M, Pos(0, 2)) == [Pos(1, 2), Pos(0, 1)]
  {
    MazeSetting();
    NeighborsUnfold(M, Pos(0, 2));
  }

  lemma Look29_0()
    ensures ScoreOf(G29, Pos(0, 1)) == Fin(18) && ScoreOf(G29, Pos(0, 2)) == Fin(17)
  {
  }

  lemma Look29_1()
    ensures ScoreOf(G29, Pos(0, 1)) == Fin(18) && ScoreOf(G29, Pos(0, 0)) == Inf
  {
    UnsetCell(Pos(0, 0));
  }

  /** The entry turn 29 pops. */
  lemma Pop29()
    ensures MinIndex([Entry(21, 22, Pos(4, 2)), Entry(19, 30, Pos(0, 1))]) == 1
    ensures RemoveAt([Entry(21, 22, Pos(4, 2)), Entry(19, 30, Pos(0, 1))], 1) == [Entry(21, 22, Pos(4, 2))] && {Pos(0, 1), Pos(4, 2)} - {Pos(0, 1)} == {Pos(4, 2)}
  {
    assert RemoveAt([Entry(21, 22, Pos(4, 2)), Entry(19, 30, Pos(0, 1))], 1) == [Entry(21, 22, Pos(4, 2))];
    assert {Pos(0, 1), Pos(4, 2)} - {Pos(0, 1)} == {Pos(4, 2)};
    MinIndexUnique([Entry(21, 22, Pos(4, 2)), Entry(19, 30, Pos(0, 1))], 1);
  }

  /** The neighbour list of the cell turn 29 expands. */
  lemma Around29()
    ensures Rectangular(M) && Neighbors(M, Pos(0, 1)) == [Pos(0, 2), Pos(0, 0)]
  {
    MazeSetting();
    NeighborsUnfold(M, Pos(0, 1));
  }

  /** Turn 0 leaves the tables alone outside the cells it lowers. */
  lemma Kept0(x: Pos)
    requires x in G0 && x != Pos(11, 3)
    ensures x in G1 && G1[x] == G0[x]
    ensures (x in P1 <==> x in P0) && (x in P0 ==> P1[x] == P0[x])
  {
  }

  /** Turn 1 leaves the tables alone outside the cells it lowers. */
  lemma Kept1(x: Pos)
    requires x in G1 && x != Pos(11, 4) && x != Pos(11, 2)
    ensures x in G2 && G2[x] == G1[x]
    ensures (x in P2 <==> x in P1) && (x in P1 ==> P2[x] == P1[x])
  {
  }

  /** Turn 2 leaves the tables alone outside the cells it lowers. */
  lemma Kept2(x: Pos)
    requires x in G2 && x != Pos(10, 2)
    ensures x in G3 && G3[x] == G2[x]
    ensures (x in P3 <==> x in P2) && (x in P2 ==> P3[x] == P2[x])
  {
  }

  /** Turn 3 leaves the tables alone outside the cells it lowers. */
  lemma Kept3(x: Pos)
    requires x in G3 && x != Pos(9, 2)
    ensures x in G4 && G4[x] == G3[x]
    ensures (x in P4 <==> x in P3) && (x in P3 ==> P4[x] == P3[x])
  {
  }

  /** Turn 4 leaves the tables alone outside the cells it lowers. */
  lemma Kept4(x: Pos)
    requires x in G4 && x != Pos(9, 3) && x != Pos(9, 1)
    ensures x in G5 && G5[x] == G4[x]
    ensures (x in P5 <==> x in P4) && (x in P4 ==> P5[x] == P4[x])
  {
  }

  /** Turn 5 leaves the tables alone outside the cells it lowers. */
  lemma Kept5(x: Pos)
    requires x in G5 && x != Pos(8, 1)
    ensures x in G6 && G6[x] == G5[x]
    ensures (x in P6 <==> x in P5) && (x in P5 ==> P6[x] == P5[x])
  {
  }

  /** Turn 6 leaves the tables alone outside the cells it lowers. */
  lemma Kept6(x: Pos)
    requires x in G6 && x != Pos(7, 1)
    ensures x in G7 && G7[x] == G6[x]
    ensures (x in P7 <==> x in P6) && (x in P6 ==> P7[x] == P6[x])
  {
  }

  /** Turn 7 leaves the tables alone outside the cells it lowers. */
  lemma Kept7(x: Pos)
    requires x in G7 && x != Pos(6, 1)
    ensures x in G8 && G8[x] == G7[x]
    ensures (x in P8 <==> x in P7) && (x in P7 ==> P8[x] == P7[x])
  {
  }

  /** Turn 8 leaves the tables alone outside the cells it lowers. */
  lemma Kept8(x: Pos)
    requires x in G8 && x != Pos(5, 1)
    ensures x in G9 && G9[x] == G8[x]
    ensures (x in P9 <==> x in P8) && (x in P8 ==> P9[x] == P8[x])
  {
  }

  /** Turn 9 leaves the tables alone outside the cells it lowers. */
  lemma Kept9(x: Pos)
    requires x in G9 && x != Pos(5, 0)
    ensures x in G10 && G10[x] == G9[x]
    ensures (x in P10 <==> x in P9) && (x in P9 ==> P10[x] == P9[x])
  {
  }

  /** Turn 10 leaves the tables alone outside the cells it lowers. */
  lemma Kept10(x: Pos)
    requires x in G10 && x != Pos(4, 0)
    ensures x in G11 && G11[x] == G10[x]
    ensures (x in P11 <==> x in P10) && (x in P10 ==> P11[x] == P10[x])
  {
  }

  /** Turn 11 leaves the tables alone outside the cells it lowers. */
  lemma Kept11(x: Pos)
    requires x in G11 && x != Pos(3, 0)
    ensures x in G12 && G12[x] == G11[x]
    ensures (x in P12 <==> x in P11) && (x in P11 ==> P12[x] == P11[x])
  {
  }

  /** Turn 12 leaves the tables alone outside the cells it lowers. */
  lemma Kept12(x: Pos)
    requires x in G12 && x != Pos(3, 1)
    ensures x in G13 && G13[x] == G12[x]
    ensures (x in P13 <==> x in P12) && (x in P12 ==> P13[x] == P12[x])
  {
  }

  /** Turn 13 leaves the tables alone outside the cells it lowers. */
  lemma Kept13(x: Pos)
    requires x in G13 && x != Pos(10, 4)
    ensures x in G14 && G14[x] == G13[x]
    ensures (x in P14 <==> x in P13) && (x in P13 ==> P14[x] == P13[x])
  {
  }

  /** Turn 14 leaves the tables alone outside the cells it lowers. */
  lemma Kept14(x: Pos)
    requires x in G14 && x != Pos(8, 3) && x != Pos(9, 4)
    ensures x in G15 && G15[x] == G14[x]
    ensures (x in P15 <==> x in P14) && (x in P14 ==> P15[x] == P14[x])
  {
  }

  /** Turn 15 leaves the tables alone outside the cells it lowers. */
  lemma Kept15(x: Pos)
    requires x in G15 && x != Pos(3, 2)
    ensures x in G16 && G16[x] == G15[x]
    ensures (x in P16 <==> x in P15) && (x in P15 ==> P16[x] == P15[x])
  {
  }

  /** Turn 16 leaves the tables alone outside the cells it lowers. */
  lemma Kept16(x: Pos)
    requires x in G16 && x != Pos(9, 4)
    ensures x in G17 && G17[x] == G16[x]
    ensures (x in P17 <==> x in P16) && (x in P16 ==> P17[x] == P16[x])
  {
  }

  /** Turn 17 leaves the tables alone outside the cells it lowers. */
  lemma Kept17(x: Pos)
    requires x in G17 && x != Pos(8, 4)
    ensures x in G18 && G18[x] == G17[x]
    ensures (x in P18 <==> x in P17) && (x in P17 ==> P18[x] == P17[x])
  {
  }

  /** Turn 18 leaves the tables alone outside the cells it lowers. */
  lemma Kept18(x: Pos)
    requires x in G18 && x != Pos(8, 4)
    ensures x in G19 && G19[x] == G18[x]
    ensures (x in P19 <==> x in P18) && (x in P18 ==> P19[x] == P18[x])
  {
  }

  /** Turn 19 leaves the tables alone outside the cells it lowers. */
  lemma Kept19(x: Pos)
    requires x in G19 && x != Pos(2, 2) && x != Pos(4, 2)
    ensures x in G20 && G20[x] == G19[x]
    ensures (x in P20 <==> x in P19) && (x in P19 ==> P20[x] == P19[x])
  {
  }

  /** Turn 20 leaves the tables alone outside the cells it lowers. */
  lemma Kept20(x: Pos)
    requires x in G20 && x != Pos(7, 4)
    ensures x in G21 && G21[x] == G20[x]
    ensures (x in P21 <==> x in P20) && (x in P20 ==> P21[x] == P20[x])
  {
  }

  /** Turn 21 leaves the tables alone outside the cells it lowers. */
  lemma Kept21(x: Pos)
    requires x in G21 && x != Pos(6, 4)
    ensures x in G22 && G22[x] == G21[x]
    ensures (x in P22 <==> x in P21) && (x in P21 ==> P22[x] == P21[x])
  {
  }

  /** Turn 22 leaves the tables alone outside the cells it lowers. */
  lemma Kept22(x: Pos)
    requires x in G22 && x != Pos(5, 4)
    ensures x in G23 && G23[x] == G22[x]
    ensures (x in P23 <==> x in P22) && (x in P22 ==> P23[x] == P22[x])
  {
  }

  /** Turn 23 leaves the tables alone outside the cells it lowers. */
  lemma Kept23(x: Pos)
    requires x in G23 && x != Pos(5, 3)
    ensures x in G24 && G24[x] == G23[x]
    ensures (x in P24 <==> x in P23) && (x in P23 ==> P24[x] == P23[x])
  {
  }

  /** Turn 24 leaves the tables alone outside the cells it lowers. */
  lemma Kept24(x: Pos)
    requires x in G24 && x != Pos(4, 3)
    ensures x in G25 && G25[x] == G24[x]
    ensures (x in P25 <==> x in P24) && (x in P24 ==> P25[x] == P24[x])
  {
  }

  /** Turn 25 leaves the tables alone outside the cells it lowers. */
  lemma Kept25(x: Pos)
    requires x in G25 && x != Pos(4, 2)
    ensures x in G26 && G26[x] == G25[x]
    ensures (x in P26 <==> x in P25) && (x in P25 ==> P26[x] == P25[x])
  {
  }

  /** Turn 26 leaves the tables alone outside the cells it lowers. */
  lemma Kept26(x: Pos)
    requires x in G26 && x != Pos(1, 2)
    ensures x in G27 && G27[x] == G26[x]
    ensures (x in P27 <==> x in P26) && (x in P26 ==> P27[x] == P26[x])
  {
  }

  /** Turn 27 leaves the tables alone outside the cells it lowers. */
  lemma Kept27(x: Pos)
    requires x in G27 && x != Pos(0, 2)
    ensures x in G28 && G28[x] == G27[x]
    ensures (x in P28 <==> x in P27) && (x in P27 ==> P28[x] == P27[x])
  {
  }

  /** Turn 28 leaves the tables alone outside the cells it lowers. */
  lemma Kept28(x: Pos)
    requires x in G28 && x != Pos(0, 1)
    ensures x in G29 && G29[x] == G28[x]
    ensures (x in P29 <==> x in P28) && (x in P28 ==> P29[x] == P28[x])
  {
  }

  /** Turn 29 leaves the tables alone outside the cells it lowers. */
  lemma Kept29(x: Pos)
    requires x in G29 && x != Pos(0, 0)
    ensures x in G30 && G30[x] == G29[x]
    ensures (x in P30 <==> x in P29) && (x in P29 ==> P30[x] == P29[x])
  {
  }

  /** Turn 30 leaves the tables alone outside the cells it lowers. */
  lemma Kept30(x: Pos)
    requires x in G30
    ensures x in G31 && G31[x] == G30[x]
    ensures (x in P31 <==> x in P30) && (x in P30 ==> P31[x] == P30[x])
  {
  }

  /** A step between two cells that share a side, the second one open. */
  lemma Edge(p: Pos, q: Pos)
    requires InBounds(M, q) && M[q.r][q.c] && Adjacent(p, q)
    ensures Rectangular(M) && q in Neighbors(M, p)
  {
    MazeSetting();
    NeighborsExact(M, p, q);
  }

  /** The shortest way from `start` to `end`: 17 steps. */
  const W: seq<Pos> := [Pos(12, 3), Pos(11, 3), Pos(11, 4), Pos(10, 4), Pos(9, 4), Pos(8, 4), Pos(7, 4), Pos(6, 4), Pos(5, 4), Pos(5, 3), Pos(4, 3), Pos(4, 2), Pos(3, 2), Pos(2, 2), Pos(1, 2), Pos(0, 2), Pos(0, 1), Pos(0, 0)]

  /** `W` is built one step at a time: each prefix is a walk. */
  lemma Walk0()
    ensures Rectangular(M) && IsWalk(M, [Pos(12, 3)])
  {
    MazeSetting();
  }

  lemma Walk1()
    ensures Rectangular(M) && IsWalk(M, [Pos(12, 3), Pos(11, 3)])
  {
    Walk0();
    Edge(Pos(12, 3), Pos(11, 3));
    WalkExtend(M, [Pos(12, 3)], Pos(11, 3));
    assert [Pos(12, 3)] + [Pos(11, 3)] == [Pos(12, 3), Pos(11, 3)];
  }

  lemma Walk2()
    ensures Rectangular(M) && IsWalk(M, [Pos(12, 3), Pos(11, 3), Pos(11, 4)])
  {
    Walk1();
    Edge(Pos(11, 3), Pos(11, 4));
    WalkExtend(M, [Pos(12, 3), Pos(11, 3)], Pos(11, 4));
    assert [Pos(12, 3), Pos(11, 3)] + [Pos(11, 4)] == [Pos(12, 3), Pos(11, 3), Pos(11, 4)];
  }

  lemma Walk3()
    ensures Rectangular(M) && IsWalk(M, [Pos(12, 3), Pos(11, 3), Pos(11, 4), Pos(10, 4)])
  {
    Walk2();
    Edge(Pos(11, 4), Pos(10, 4));
    WalkExtend(M, [Pos(12, 3), Pos(11, 3), Pos(11, 4)], Pos(10, 4));
    assert [Pos(12, 3), Pos(11, 3), Pos(11, 4)] + [Pos(10, 4)] == [Pos(12, 3), Pos(11, 3), Pos(11, 4), Pos(10, 4)];
  }

  lemma Walk4()
    ensures Rectangular(M) && IsWalk(M, [Pos(12, 3), Pos(11, 3), Pos(11, 4), Pos(10, 4), Pos(9, 4)])
  {
    Walk3();
    Edge(Pos(10, 4), Pos(9, 4));
    WalkExtend(M, [Pos(12, 3), Pos(11, 3), Pos(11, 4), Pos(10, 4)], Pos(9, 4));
    assert [Pos(12, 3), Pos(11, 3), Pos(11, 4), Pos(10, 4)] + [Pos(9, 4)] == [Pos(12, 3), Pos(11, 3), Pos(11, 4), Pos(10, 4), Pos(9, 4)];
  }

  lemma Walk5()
    ensures Rectangular(M) && IsWalk(M, [Pos(12, 3), Pos(11, 3), Pos(11, 4), Pos(10, 4), Pos(9, 4), Pos(8, 4)])
  {
    Walk4();
    Edge(Pos(9, 4), Pos(8, 4));
    WalkExtend(M, [Pos(12, 3), Pos(11, 3), Pos(11, 4), Pos(10, 4), Pos(9, 4)], Pos(8, 4));
    assert [Pos(12, 3), Pos(11, 3), Pos(11, 4), Pos(10, 4), Pos(9, 4)] + [Pos(8, 4)] == [Pos(12, 3), Pos(11, 3), Pos(11, 4), Pos(10, 4), Pos(9, 4), Pos(8, 4)];
  }

  lemma Walk6()
    ensures Rectangular(M) && IsWalk(M, [Pos(12, 3), Pos(11, 3), Pos(11, 4), Pos(10, 4), Pos(9, 4), Pos(8, 4), Pos(7, 4)])
  {
    Walk5();
    Edge(Pos(8, 4), Pos(7, 4));
    WalkExtend(M, [Pos(12, 3), Pos(11, 3), Pos(11, 4), Pos(10, 4), Pos(9, 4), Pos(8, 4)], Pos(7, 4));
    assert [Pos(12, 3), Pos(11, 3), Pos(11, 4), Pos(10, 4), Pos(9, 4), Pos(8, 4)] + [Pos(7, 4)] == [Pos(12, 3), Pos(11, 3), Pos(11, 4), Pos(10, 4), Pos(9, 4), Pos(8, 4), Pos(7, 4)];
  }

  lemma Walk7()
    ensures Rectangular(M) && IsWalk(M, [Pos(12, 3), Pos(11, 3), Pos(11, 4), Pos(10, 4), Pos(9, 4), Pos(8, 4), Pos(7, 4), Pos(6, 4)])
  {
    Walk6();
    Edge(Pos(7, 4), Pos(6, 4));
    WalkExtend(M, [Pos(12, 3), Pos(11, 3), Pos(11, 4), Pos(10, 4), Pos(9, 4), Pos(8, 4), Pos(7, 4)], Pos(6, 4));
    assert [Pos(12, 3), Pos(11, 3), Pos(11, 4), Pos(10, 4), Pos(9, 4), Pos(8, 4), Pos(7, 4)] + [Pos(6, 4)] == [Pos(12, 3), Pos(11, 3), Pos(11, 4), Pos(10, 4), Pos(9, 4), Pos(8, 4), Pos(7, 4), Pos(6, 4)];
  }

  lemma Walk8()
    ensures Rectangular(M) && IsWalk(M, [Pos(12, 3), Pos(11, 3), Pos(11, 4), Pos(10, 4), Pos(9, 4), Pos(8, 4), Pos(7, 4), Pos(6, 4), Pos(5, 4)])
  {
    Walk7();
    Edge(Pos(6, 4), Pos(5, 4));
    WalkExtend(M, [Pos(12, 3), Pos(11, 3), Pos(11, 4), Pos(10, 4), Pos(9, 4), Pos(8, 4), Pos(7, 4), Pos(6, 4)], Pos(5, 4));
    assert [Pos(12, 3), Pos(11, 3), Pos(11, 4), Pos(10, 4), Pos(9, 4), Pos(8, 4), Pos(7, 4), Pos(6, 4)] + [Pos(5, 4)] == [Pos(12, 3), Pos(11, 3), Pos(11, 4), Pos(10, 4), Pos(9, 4), Pos(8, 4), Pos(7, 4), Pos(6, 4), Pos(5, 4)];
  }

  lemma Walk9()
    ensures Rectangular(M) && IsWalk(M, [Pos(12, 3), Pos(11, 3), Pos(11, 4), Pos(10, 4), Pos(9, 4), Pos(8, 4), Pos(7, 4), Pos(6, 4), Pos(5, 4), Pos(5, 3)])
  {
    Walk8();
    Edge(Pos(5, 4), Pos(5, 3));
    WalkExtend(M, [Pos(12, 3), Pos(11, 3), Pos(11, 4), Pos(10, 4), Pos(9, 4), Pos(8, 4), Pos(7, 4), Pos(6, 4), Pos(5, 4)], Pos(5, 3));
    assert [Pos(12, 3), Pos(11, 3), Pos(11, 4), Pos(10, 4), Pos(9, 4), Pos(8, 4), Pos(7, 4), Pos(6, 4), Pos(5, 4)] + [Pos(5, 3)] == [Pos(12, 3), Pos(11, 3), Pos(11, 4), Pos(10, 4), Pos(9, 4), Pos(8, 4), Pos(7, 4), Pos(6, 4), Pos(5, 4), Pos(5, 3)];
  }

  lemma Walk10()
    ensures Rectangular(M) && IsWalk(M, [Pos(12, 3), Pos(11, 3), Pos(11, 4), Pos(10, 4), Pos(9, 4), Pos(8, 4), Pos(7, 4), Pos(6, 4), Pos(5, 4), Pos(5, 3), Pos(4, 3)])
  {
    Walk9();
    Edge(Pos(5, 3), Pos(4, 3));
    WalkExtend(M, [Pos(12, 3), Pos(11, 3), Pos(11, 4), Pos(10, 4), Pos(9, 4), Pos(8, 4), Pos(7, 4), Pos(6, 4), Pos(5, 4), Pos(5, 3)], Pos(4, 3));
    assert [Pos(12, 3), Pos(11, 3), Pos(11, 4), Pos(10, 4), Pos(9, 4), Pos(8, 4), Pos(7, 4), Pos(6, 4), Pos(5, 4), Pos(5, 3)] + [Pos(4, 3)] == [Pos(12, 3), Pos(11, 3), Pos(11, 4), Pos(10, 4), Pos(9, 4), Pos(8, 4), Pos(7, 4), Pos(6, 4), Pos(5, 4), Pos(5, 3), Pos(4, 3)];
  }

  lemma Walk11()
    ensures Rectangular(M) && IsWalk(M, [Pos(12, 3), Pos(11, 3), Pos(11, 4), Pos(10, 4), Pos(9, 4), Pos(8, 4), Pos(7, 4), Pos(6, 4), Pos(5, 4), Pos(5, 3), Pos(4, 3), Pos(4, 2)])
  {
    Walk10();
    Edge(Pos(4, 3), Pos(4, 2));
    WalkExtend(M, [Pos(12, 3), Pos(11, 3), Pos(11, 4), Pos(10, 4), Pos(9, 4), Pos(8, 4), Pos(7, 4), Pos(6, 4), Pos(5, 4), Pos(5, 3), Pos(4, 3)], Pos(4, 2));
    assert [Pos(12, 3), Pos(11, 3), Pos(11, 4), Pos(10, 4), Pos(9, 4), Pos(8, 4), Pos(7, 4), Pos(6, 4), Pos(5, 4), Pos(5, 3), Pos(4, 3)] + [Pos(4, 2)] == [Pos(12, 3), Pos(11, 3), Pos(11, 4), Pos(10, 4), Pos(9, 4), Pos(8, 4), Pos(7, 4), Pos(6, 4), Pos(5, 4), Pos(5, 3), Pos(4, 3), Pos(4, 2)];
  }

  lemma Walk12()
    ensures Rectangular(M) && IsWalk(M, [Pos(12, 3), Pos(11, 3), Pos(11, 4), Pos(10, 4), Pos(9, 4), Pos(8, 4), Pos(7, 4), Pos(6, 4), Pos(5, 4), Pos(5, 3), Pos(4, 3), Pos(4, 2), Pos(3, 2)])
  {
    Walk11();
    Edge(Pos(4, 2), Pos(3, 2));
    WalkExtend(M, [Pos(12, 3), Pos(11, 3), Pos(11, 4), Pos(10, 4), Pos(9, 4), Pos(8, 4), Pos(7, 4), Pos(6, 4), Pos(5, 4), Pos(5, 3), Pos(4, 3), Pos(4, 2)], Pos(3, 2));
    assert [Pos(12, 3), Pos(11, 3), Pos(11, 4), Pos(10, 4), Pos(9, 4), Pos(8, 4), Pos(7, 4), Pos(6, 4), Pos(5, 4), Pos(5, 3), Pos(4, 3), Pos(4, 2)] + [Pos(3, 2)] == [Pos(12, 3), Pos(11, 3), Pos(11, 4), Pos(10, 4), Pos(9, 4), Pos(8, 4), Pos(7, 4), Pos(6, 4), Pos(5, 4), Pos(5, 3), Pos(4, 3), Pos(4, 2), Pos(3, 2)];
  }

  lemma Walk13()
    ensures Rectangular(M) && IsWalk(M, [Pos(12, 3), Pos(11, 3), Pos(11, 4), Pos(10, 4), Pos(9, 4), Pos(8, 4), Pos(7, 4), Pos(6, 4), Pos(5, 4), Pos(5, 3), Pos(4, 3), Pos(4, 2), Pos(3, 2), Pos(2, 2)])
  {
    Walk12();
    Edge(Pos(3, 2), Pos(2, 2));
    WalkExtend(M, [Pos(12, 3), Pos(11, 3), Pos(11, 4), Pos(10, 4), Pos(9, 4), Pos(8, 4), Pos(7, 4), Pos(6, 4), Pos(5, 4), Pos(5, 3), Pos(4, 3), Pos(4, 2), Pos(3, 2)], Pos(2, 2));
    assert [Pos(12, 3), Pos(11, 3), Pos(11, 4), Pos(10, 4), Pos(9, 4), Pos(8, 4), Pos(7, 4), Pos(6, 4), Pos(5, 4), Pos(5, 3), Pos(4, 3), Pos(4, 2), Pos(3, 2)] + [Pos(2, 2)] == [Pos(12, 3), Pos(11, 3), Pos(11, 4), Pos(10, 4), Pos(9, 4), Pos(8, 4), Pos(7, 4), Pos(6, 4), Pos(5, 4), Pos(5, 3), Pos(4, 3), Pos(4, 2), Pos(3, 2), Pos(2, 2)];
  }

  lemma Walk14()
    ensures Rectangular(M) && IsWalk(M, [Pos(12, 3), Pos(11, 3), Pos(11, 4), Pos(10, 4), Pos(9, 4), Pos(8, 4), Pos(7, 4), Pos(6, 4), Pos(5, 4), Pos(5, 3), Pos(4, 3), Pos(4, 2), Pos(3, 2), Pos(2, 2), Pos(1, 2)])
  {
    Walk13();
    Edge(Pos(2, 2), Pos(1, 2));
    WalkExtend(M, [Pos(12, 3), Pos(11, 3), Pos(11, 4), Pos(10, 4), Pos(9, 4), Pos(8, 4), Pos(7, 4), Pos(6, 4), Pos(5, 4), Pos(5, 3), Pos(4, 3), Pos(4, 2), Pos(3, 2), Pos(2, 2)], Pos(1, 2));
    assert [Pos(12, 3), Pos(11, 3), Pos(11, 4), Pos(10, 4), Pos(9, 4), Pos(8, 4), Pos(7, 4), Pos(6, 4), Pos(5, 4), Pos(5, 3), Pos(4, 3), Pos(4, 2), Pos(3, 2), Pos(2, 2)] + [Pos(1, 2)] == [Pos(12, 3), Pos(11, 3), Pos(11, 4), Pos(10, 4), Pos(9, 4), Pos(8, 4), Pos(7, 4), Pos(6, 4), Pos(5, 4), Pos(5, 3), Pos(4, 3), Pos(4, 2), Pos(3, 2), Pos(2, 2), Pos(1, 2)];
  }

  lemma Walk15()
    ensures Rectangular(M) && IsWalk(M, [Pos(12, 3), Pos(11, 3), Pos(11, 4), Pos(10, 4), Pos(9, 4), Pos(8, 4), Pos(7, 4), Pos(6, 4), Pos(5, 4), Pos(5, 3), Pos(4, 3), Pos(4, 2), Pos(3, 2), Pos(2, 2), Pos(1, 2), Pos(0, 2)])
  {
    Walk14();
    Edge(Pos(1, 2), Pos(0, 2));
    WalkExtend(M, [Pos(12, 3), Pos(11, 3), Pos(11, 4), Pos(10, 4), Pos(9, 4), Pos(8, 4), Pos(7, 4), Pos(6, 4), Pos(5, 4), Pos(5, 3), Pos(4, 3), Pos(4, 2), Pos(3, 2), Pos(2, 2), Pos(1, 2)], Pos(0, 2));
    assert [Pos(12, 3), Pos(11, 3), Pos(11, 4), Pos(10, 4), Pos(9, 4), Pos(8, 4), Pos(7, 4), Pos(6, 4), Pos(5, 4), Pos(5, 3), Pos(4, 3), Pos(4, 2), Pos(3, 2), Pos(2, 2), Pos(1, 2)] + [Pos(0, 2)] == [Pos(12, 3), Pos(11, 3), Pos(11, 4), Pos(10, 4), Pos(9, 4), Pos(8, 4), Pos(7, 4), Pos(6, 4), Pos(5, 4), Pos(5, 3), Pos(4, 3), Pos(4, 2), Pos(3, 2), Pos(2, 2), Pos(1, 2), Pos(0, 2)];
  }

  lemma Walk16()
    ensures Rectangular(M) && IsWalk(M, [Pos(12, 3), Pos(11, 3), Pos(11, 4), Pos(10, 4), Pos(9, 4), Pos(8, 4), Pos(7, 4), Pos(6, 4), Pos(5, 4), Pos(5, 3), Pos(4, 3), Pos(4, 2), Pos(3, 2), Pos(2, 2), Pos(1, 2), Pos(0, 2), Pos(0, 1)])
  {
    Walk15();
    Edge(Pos(0, 2), Pos(0, 1));
    WalkExtend(M, [Pos(12, 3), Pos(11, 3), Pos(11, 4), Pos(10, 4), Pos(9, 4), Pos(8, 4), Pos(7, 4), Pos(6, 4), Pos(5, 4), Pos(5, 3), Pos(4, 3), Pos(4, 2), Pos(3, 2), Pos(2, 2), Pos(1, 2), Pos(0, 2)], Pos(0, 1));
    assert [Pos(12, 3), Pos(11, 3), Pos(11, 4), Pos(10, 4), Pos(9, 4), Pos(8, 4), Pos(7, 4), Pos(6, 4), Pos(5, 4), Pos(5, 3), Pos(4, 3), Pos(4, 2), Pos(3, 2), Pos(2, 2), Pos(1, 2), Pos(0, 2)] + [Pos(0, 1)] == [Pos(12, 3), Pos(11, 3), Pos(11, 4), Pos(10, 4), Pos(9, 4), Pos(8, 4), Pos(7, 4), Pos(6, 4), Pos(5, 4), Pos(5, 3), Pos(4, 3), Pos(4, 2), Pos(3, 2), Pos(2, 2), Pos(1, 2), Pos(0, 2), Pos(0, 1)];
  }

  lemma Walk17()
    ensures Rectangular(M) && IsWalk(M, [Pos(12, 3), Pos(11, 3), Pos(11, 4), Pos(10, 4), Pos(9, 4), Pos(8, 4), Pos(7, 4), Pos(6, 4), Pos(5, 4), Pos(5, 3), Pos(4, 3), Pos(4, 2), Pos(3, 2), Pos(2, 2), Pos(1, 2), Pos(0, 2), Pos(0, 1), Pos(0, 0)])
  {
    Walk16();
    Edge(Pos(0, 1), Pos(0, 0));
    WalkExtend(M, [Pos(12, 3), Pos(11, 3), Pos(11, 4), Pos(10, 4), Pos(9, 4), Pos(8, 4), Pos(7, 4), Pos(6, 4), Pos(5, 4), Pos(5, 3), Pos(4, 3), Pos(4, 2), Pos(3, 2), Pos(2, 2), Pos(1, 2), Pos(0, 2), Pos(0, 1)], Pos(0, 0));
    assert [Pos(12, 3), Pos(11, 3), Pos(11, 4), Pos(10, 4), Pos(9, 4), Pos(8, 4), Pos(7, 4), Pos(6, 4), Pos(5, 4), Pos(5, 3), Pos(4, 3), Pos(4, 2), Pos(3, 2), Pos(2, 2), Pos(1, 2), Pos(0, 2), Pos(0, 1)] + [Pos(0, 0)] == [Pos(12, 3), Pos(11, 3), Pos(11, 4), Pos(10, 4), Pos(9, 4), Pos(8, 4), Pos(7, 4), Pos(6, 4), Pos(5, 4), Pos(5, 3), Pos(4, 3), Pos(4, 2), Pos(3, 2), Pos(2, 2), Pos(1, 2), Pos(0, 2), Pos(0, 1), Pos(0, 0)];
  }

  lemma ShortWalk()
    ensures Setting(M, S, E) && WalkFrom(M, W, S, E) && |W| - 1 == 17
  {
    MazeSetting();
    Walk17();
  }

  /** The path the search as written backtracks from `end`: 19 steps. */
  const Drawn: seq<Pos> := [Pos(12, 3), Pos(11, 3), Pos(11, 2), Pos(10, 2), Pos(9, 2), Pos(9, 1), Pos(8, 1), Pos(7, 1), Pos(6, 1), Pos(5, 1), Pos(5, 0), Pos(4, 0), Pos(3, 0), Pos(3, 1), Pos(3, 2), Pos(2, 2), Pos(1, 2), Pos(0, 2), Pos(0, 1), Pos(0, 0)]

  lemma Link0()
    ensures Pos(12, 3) in G31 && G31[Pos(12, 3)].Fin? && Pos(12, 3) !in P31
  {
    assert Pos(12, 3) in G0 && G0[Pos(12, 3)].Fin? && Pos(12, 3) !in P0;
    Kept0(Pos(12, 3));
    Kept1(Pos(12, 3));
    Kept2(Pos(12, 3));
    Kept3(Pos(12, 3));
    Kept4(Pos(12, 3));
    Kept5(Pos(12, 3));
    Kept6(Pos(12, 3));
    Kept7(Pos(12, 3));
    Kept8(Pos(12, 3));
    Kept9(Pos(12, 3));
    Kept10(Pos(12, 3));
    Kept11(Pos(12, 3));
    Kept12(Pos(12, 3));
    Kept13(Pos(12, 3));
    Kept14(Pos(12, 3));
    Kept15(Pos(12, 3));
    Kept16(Pos(12, 3));
    Kept17(Pos(12, 3));
    Kept18(Pos(12, 3));
    Kept19(Pos(12, 3));
    Kept20(Pos(12, 3));
    Kept21(Pos(12, 3));
    Kept22(Pos(12, 3));
    Kept23(Pos(12, 3));
    Kept24(Pos(12, 3));
    Kept25(Pos(12, 3));
    Kept26(Pos(12, 3));
    Kept27(Pos(12, 3));
    Kept28(Pos(12, 3));
    Kept29(Pos(12, 3));
    Kept30(Pos(12, 3));
  }

  lemma Link1()
    ensures Pos(11, 3) in G31 && G31[Pos(11, 3)].Fin? && Pos(11, 3) in P31 && P31[Pos(11, 3)] == Pos(12, 3)
  {
    assert Pos(11, 3) in G1 && G1[Pos(11, 3)].Fin? && Pos(11, 3) in P1 && P1[Pos(11, 3)] == Pos(12, 3);
    Kept1(Pos(11, 3));
    Kept2(Pos(11, 3));
    Kept3(Pos(11, 3));
    Kept4(Pos(11, 3));
    Kept5(Pos(11, 3));
    Kept6(Pos(11, 3));
    Kept7(Pos(11, 3));
    Kept8(Pos(11, 3));
    Kept9(Pos(11, 3));
    Kept10(Pos(11, 3));
    Kept11(Pos(11, 3));
    Kept12(Pos(11, 3));
    Kept13(Pos(11, 3));
    Kept14(Pos(11, 3));
    Kept15(Pos(11, 3));
    Kept16(Pos(11, 3));
    Kept17(Pos(11, 3));
    Kept18(Pos(11, 3));
    Kept19(Pos(11, 3));
    Kept20(Pos(11, 3));
    Kept21(Pos(11, 3));
    Kept22(Pos(11, 3));
    Kept23(Pos(11, 3));
    Kept24(Pos(11, 3));
    Kept25(Pos(11, 3));
    Kept26(Pos(11, 3));
    Kept27(Pos(11, 3));
    Kept28(Pos(11, 3));
    Kept29(Pos(11, 3));
    Kept30(Pos(11, 3));
  }

  lemma Link2()
    ensures Pos(11, 2) in G31 && G31[Pos(11, 2)].Fin? && Pos(11, 2) in P31 && P31[Pos(11, 2)] == Pos(11, 3)
  {
    assert Pos(11, 2) in G2 && G2[Pos(11, 2)].Fin? && Pos(11, 2) in P2 && P2[Pos(11, 2)] == Pos(11, 3);
    Kept2(Pos(11, 2));
    Kept3(Pos(11, 2));
    Kept4(Pos(11, 2));
    Kept5(Pos(11, 2));
    Kept6(Pos(11, 2));
    Kept7(Pos(11, 2));
    Kept8(Pos(11, 2));
    Kept9(Pos(11, 2));
    Kept10(Pos(11, 2));
    Kept11(Pos(11, 2));
    Kept12(Pos(11, 2));
    Kept13(Pos(11, 2));
    Kept14(Pos(11, 2));
    Kept15(Pos(11, 2));
    Kept16(Pos(11, 2));
    Kept17(Pos(11, 2));
    Kept18(Pos(11, 2));
    Kept19(Pos(11, 2));
    Kept20(Pos(11, 2));
    Kept21(Pos(11, 2));
    Kept22(Pos(11, 2));
    Kept23(Pos(11, 2));
    Kept24(Pos(11, 2));
    Kept25(Pos(11, 2));
    Kept26(Pos(11, 2));
    Kept27(Pos(11, 2));
    Kept28(Pos(11, 2));
    Kept29(Pos(11, 2));
    Kept30(Pos(11, 2));
  }

  lemma Link3()
    ensures Pos(10, 2) in G31 && G31[Pos(10, 2)].Fin? && Pos(10, 2) in P31 && P31[Pos(10, 2)] == Pos(11, 2)
  {
    assert Pos(10, 2) in G3 && G3[Pos(10, 2)].Fin? && Pos(10, 2) in P3 && P3[Pos(10, 2)] == Pos(11, 2);
    Kept3(Pos(10, 2));
    Kept4(Pos(10, 2));
    Kept5(Pos(10, 2));
    Kept6(Pos(10, 2));
    Kept7(Pos(10, 2));
    Kept8(Pos(10, 2));
    Kept9(Pos(10, 2));
    Kept10(Pos(10, 2));
    Kept11(Pos(10, 2));
    Kept12(Pos(10, 2));
    Kept13(Pos(10, 2));
    Kept14(Pos(10, 2));
    Kept15(Pos(10, 2));
    Kept16(Pos(10, 2));
    Kept17(Pos(10, 2));
    Kept18(Pos(10, 2));
    Kept19(Pos(10, 2));
    Kept20(Pos(10, 2));
    Kept21(Pos(10, 2));
    Kept22(Pos(10, 2));
    Kept23(Pos(10, 2));
    Kept24(Pos(10, 2));
    Kept25(Pos(10, 2));
    Kept26(Pos(10, 2));
    Kept27(Pos(10, 2));
    Kept28(Pos(10, 2));
    Kept29(Pos(10, 2));
    Kept30(Pos(10, 2));
  }

  lemma Link4()
    ensures Pos(9, 2) in G31 && G31[Pos(9, 2)].Fin? && Pos(9, 2) in P31 && P31[Pos(9, 2)] == Pos(10, 2)
  {
    assert Pos(9, 2) in G4 && G4[Pos(9, 2)].Fin? && Pos(9, 2) in P4 && P4[Pos(9, 2)] == Pos(10, 2);
    Kept4(Pos(9, 2));
    Kept5(Pos(9, 2));
    Kept6(Pos(9, 2));
    Kept7(Pos(9, 2));
    Kept8(Pos(9, 2));
    Kept9(Pos(9, 2));
    Kept10(Pos(9, 2));
    Kept11(Pos(9, 2));
    Kept12(Pos(9, 2));
    Kept13(Pos(9, 2));
    Kept14(Pos(9, 2));
    Kept15(Pos(9, 2));
    Kept16(Pos(9, 2));
    Kept17(Pos(9, 2));
    Kept18(Pos(9, 2));
    Kept19(Pos(9, 2));
    Kept20(Pos(9, 2));
    Kept21(Pos(9, 2));
    Kept22(Pos(9, 2));
    Kept23(Pos(9, 2));
    Kept24(Pos(9, 2));
    Kept25(Pos(9, 2));
    Kept26(Pos(9, 2));
    Kept27(Pos(9, 2));
    Kept28(Pos(9, 2));
    Kept29(Pos(9, 2));
    Kept30(Pos(9, 2));
  }

  lemma Link5()
    ensures Pos(9, 1) in G31 && G31[Pos(9, 1)].Fin? && Pos(9, 1) in P31 && P31[Pos(9, 1)] == Pos(9, 2)
  {
    assert Pos(9, 1) in G5 && G5[Pos(9, 1)].Fin? && Pos(9, 1) in P5 && P5[Pos(9, 1)] == Pos(9, 2);
    Kept5(Pos(9, 1));
    Kept6(Pos(9, 1));
    Kept7(Pos(9, 1));
    Kept8(Pos(9, 1));
    Kept9(Pos(9, 1));
    Kept10(Pos(9, 1));
    Kept11(Pos(9, 1));
    Kept12(Pos(9, 1));
    Kept13(Pos(9, 1));
    Kept14(Pos(9, 1));
    Kept15(Pos(9, 1));
    Kept16(Pos(9, 1));
    Kept17(Pos(9, 1));
    Kept18(Pos(9, 1));
    Kept19(Pos(9, 1));
    Kept20(Pos(9, 1));
    Kept21(Pos(9, 1));
    Kept22(Pos(9, 1));
    Kept23(Pos(9, 1));
    Kept24(Pos(9, 1));
    Kept25(Pos(9, 1));
    Kept26(Pos(9, 1));
    Kept27(Pos(9, 1));
    Kept28(Pos(9, 1));
    Kept29(Pos(9, 1));
    Kept30(Pos(9, 1));
  }

  lemma Link6()
    ensures Pos(8, 1) in G31 && G31[Pos(8, 1)].Fin? && Pos(8, 1) in P31 && P31[Pos(8, 1)] == Pos(9, 1)
  {
    assert Pos(8, 1) in G6 && G6[Pos(8, 1)].Fin? && Pos(8, 1) in P6 && P6[Pos(8, 1)] == Pos(9, 1);
    Kept6(Pos(8, 1));
    Kept7(Pos(8, 1));
    Kept8(Pos(8, 1));
    Kept9(Pos(8, 1));
    Kept10(Pos(8, 1));
    Kept11(Pos(8, 1));
    Kept12(Pos(8, 1));
    Kept13(Pos(8, 1));
    Kept14(Pos(8, 1));
    Kept15(Pos(8, 1));
    Kept16(Pos(8, 1));
    Kept17(Pos(8, 1));
    Kept18(Pos(8, 1));
    Kept19(Pos(8, 1));
    Kept20(Pos(8, 1));
    Kept21(Pos(8, 1));
    Kept22(Pos(8, 1));
    Kept23(Pos(8, 1));
    Kept24(Pos(8, 1));
    Kept25(Pos(8, 1));
    Kept26(Pos(8, 1));
    Kept27(Pos(8, 1));
    Kept28(Pos(8, 1));
    Kept29(Pos(8, 1));
    Kept30(Pos(8, 1));
  }

  lemma Link7()
    ensures Pos(7, 1) in G31 && G31[Pos(7, 1)].Fin? && Pos(7, 1) in P31 && P31[Pos(7, 1)] == Pos(8, 1)
  {
    assert Pos(7, 1) in G7 && G7[Pos(7, 1)].Fin? && Pos(7, 1) in P7 && P7[Pos(7, 1)] == Pos(8, 1);
    Kept7(Pos(7, 1));
    Kept8(Pos(7, 1));
    Kept9(Pos(7, 1));
    Kept10(Pos(7, 1));
    Kept11(Pos(7, 1));
    Kept12(Pos(7, 1));
    Kept13(Pos(7, 1));
    Kept14(Pos(7, 1));
    Kept15(Pos(7, 1));
    Kept16(Pos(7, 1));
    Kept17(Pos(7, 1));
    Kept18(Pos(7, 1));
    Kept19(Pos(7, 1));
    Kept20(Pos(7, 1));
    Kept21(Pos(7, 1));
    Kept22(Pos(7, 1));
    Kept23(Pos(7, 1));
    Kept24(Pos(7, 1));
    Kept25(Pos(7, 1));
    Kept26(Pos(7, 1));
    Kept27(Pos(7, 1));
    Kept28(Pos(7, 1));
    Kept29(Pos(7, 1));
    Kept30(Pos(7, 1));
  }

  lemma Link8()
    ensures Pos(6, 1) in G31 && G31[Pos(6, 1)].Fin? && Pos(6, 1) in P31 && P31[Pos(6, 1)] == Pos(7, 1)
  {
    assert Pos(6, 1) in G8 && G8[Pos(6, 1)].Fin? && Pos(6, 1) in P8 && P8[Pos(6, 1)] == Pos(7, 1);
    Kept8(Pos(6, 1));
    Kept9(Pos(6, 1));
    Kept10(Pos(6, 1));
    Kept11(Pos(6, 1));
    Kept12(Pos(6, 1));
    Kept13(Pos(6, 1));
    Kept14(Pos(6, 1));
    Kept15(Pos(6, 1));
    Kept16(Pos(6, 1));
    Kept17(Pos(6, 1));
    Kept18(Pos(6, 1));
    Kept19(Pos(6, 1));
    Kept20(Pos(6, 1));
    Kept21(Pos(6, 1));
    Kept22(Pos(6, 1));
    Kept23(Pos(6, 1));
    Kept24(Pos(6, 1));
    Kept25(Pos(6, 1));
    Kept26(Pos(6, 1));
    Kept27(Pos(6, 1));
    Kept28(Pos(6, 1));
    Kept29(Pos(6, 1));
    Kept30(Pos(6, 1));
  }

  lemma Link9()
    ensures Pos(5, 1) in G31 && G31[Pos(5, 1)].Fin? && Pos(5, 1) in P31 && P31[Pos(5, 1)] == Pos(6, 1)
  {
    assert Pos(5, 1) in G9 && G9[Pos(5, 1)].Fin? && Pos(5, 1) in P9 && P9[Pos(5, 1)] == Pos(6, 1);
    Kept9(Pos(5, 1));
    Kept10(Pos(5, 1));
    Kept11(Pos(5, 1));
    Kept12(Pos(5, 1));
    Kept13(Pos(5, 1));
    Kept14(Pos(5, 1));
    Kept15(Pos(5, 1));
    Kept16(Pos(5, 1));
    Kept17(Pos(5, 1));
    Kept18(Pos(5, 1));
    Kept19(Pos(5, 1));
    Kept20(Pos(5, 1));
    Kept21(Pos(5, 1));
    Kept22(Pos(5, 1));
    Kept23(Pos(5, 1));
    Kept24(Pos(5, 1));
    Kept25(Pos(5, 1));
    Kept26(Pos(5, 1));
    Kept27(Pos(5, 1));
    Kept28(Pos(5, 1));
    Kept29(Pos(5, 1));
    Kept30(Pos(5, 1));
  }

  lemma Link10()
    ensures Pos(5, 0) in G31 && G31[Pos(5, 0)].Fin? && Pos(5, 0) in P31 && P31[Pos(5, 0)] == Pos(5, 1)
  {
    assert Pos(5, 0) in G10 && G10[Pos(5, 0)].Fin? && Pos(5, 0) in P10 && P10[Pos(5, 0)] == Pos(5, 1);
    Kept10(Pos(5, 0));
    Kept11(Pos(5, 0));
    Kept12(Pos(5, 0));
    Kept13(Pos(5, 0));
    Kept14(Pos(5, 0));
    Kept15(Pos(5, 0));
    Kept16(Pos(5, 0));
    Kept17(Pos(5, 0));
    Kept18(Pos(5, 0));
    Kept19(Pos(5, 0));
    Kept20(Pos(5, 0));
    Kept21(Pos(5, 0));
    Kept22(Pos(5, 0));
    Kept23(Pos(5, 0));
    Kept24(Pos(5, 0));
    Kept25(Pos(5, 0));
    Kept26(Pos(5, 0));
    Kept27(Pos(5, 0));
    Kept28(Pos(5, 0));
    Kept29(Pos(5, 0));
    Kept30(Pos(5, 0));
  }

  lemma Link11()
    ensures Pos(4, 0) in G31 && G31[Pos(4, 0)].Fin? && Pos(4, 0) in P31 && P31[Pos(4, 0)] == Pos(5, 0)
  {
    assert Pos(4, 0) in G11 && G11[Pos(4, 0)].Fin? && Pos(4, 0) in P11 && P11[Pos(4, 0)] == Pos(5, 0);
    Kept11(Pos(4, 0));
    Kept12(Pos(4, 0));
    Kept13(Pos(4, 0));
    Kept14(Pos(4, 0));
    Kept15(Pos(4, 0));
    Kept16(Pos(4, 0));
    Kept17(Pos(4, 0));
    Kept18(Pos(4, 0));
    Kept19(Pos(4, 0));
    Kept20(Pos(4, 0));
    Kept21(Pos(4, 0));
    Kept22(Pos(4, 0));
    Kept23(Pos(4, 0));
    Kept24(Pos(4, 0));
    Kept25(Pos(4, 0));
    Kept26(Pos(4, 0));
    Kept27(Pos(4, 0));
    Kept28(Pos(4, 0));
    Kept29(Pos(4, 0));
    Kept30(Pos(4, 0));
  }

  lemma Link12()
    ensures Pos(3, 0) in G31 && G31[Pos(3, 0)].Fin? && Pos(3, 0) in P31 && P31[Pos(3, 0)] == Pos(4, 0)
  {
    assert Pos(3, 0) in G12 && G12[Pos(3, 0)].Fin? && Pos(3, 0) in P12 && P12[Pos(3, 0)] == Pos(4, 0);
    Kept12(Pos(3, 0));
    Kept13(Pos(3, 0));
    Kept14(Pos(3, 0));
    Kept15(Pos(3, 0));
    Kept16(Pos(3, 0));
    Kept17(Pos(3, 0));
    Kept18(Pos(3, 0));
    Kept19(Pos(3, 0));
    Kept20(Pos(3, 0));
    Kept21(Pos(3, 0));
    Kept22(Pos(3, 0));
    Kept23(Pos(3, 0));
    Kept24(Pos(3, 0));
    Kept25(Pos(3, 0));
    Kept26(Pos(3, 0));
    Kept27(Pos(3, 0));
    Kept28(Pos(3, 0));
    Kept29(Pos(3, 0));
    Kept30(Pos(3, 0));
  }

  lemma Link13()
    ensures Pos(3, 1) in G31 && G31[Pos(3, 1)].Fin? && Pos(3, 1) in P31 && P31[Pos(3, 1)] == Pos(3, 0)
  {
    assert Pos(3, 1) in G13 && G13[Pos(3, 1)].Fin? && Pos(3, 1) in P13 && P13[Pos(3, 1)] == Pos(3, 0);
    Kept13(Pos(3, 1));
    Kept14(Pos(3, 1));
    Kept15(Pos(3, 1));
    Kept16(Pos(3, 1));
    Kept17(Pos(3, 1));
    Kept18(Pos(3, 1));
    Kept19(Pos(3, 1));
    Kept20(Pos(3, 1));
    Kept21(Pos(3, 1));
    Kept22(Pos(3, 1));
    Kept23(Pos(3, 1));
    Kept24(Pos(3, 1));
    Kept25(Pos(3, 1));
    Kept26(Pos(3, 1));
    Kept27(Pos(3, 1));
    Kept28(Pos(3, 1));
    Kept29(Pos(3, 1));
    Kept30(Pos(3, 1));
  }

  lemma Link14()
    ensures Pos(3, 2) in G31 && G31[Pos(3, 2)].Fin? && Pos(3, 2) in P31 && P31[Pos(3, 2)] == Pos(3, 1)
  {
    assert Pos(3, 2) in G16 && G16[Pos(3, 2)].Fin? && Pos(3, 2) in P16 && P16[Pos(3, 2)] == Pos(3, 1);
    Kept16(Pos(3, 2));
    Kept17(Pos(3, 2));
    Kept18(Pos(3, 2));
    Kept19(Pos(3, 2));
    Kept20(Pos(3, 2));
    Kept21(Pos(3, 2));
    Kept22(Pos(3, 2));
    Kept23(Pos(3, 2));
    Kept24(Pos(3, 2));
    Kept25(Pos(3, 2));
    Kept26(Pos(3, 2));
    Kept27(Pos(3, 2));
    Kept28(Pos(3, 2));
    Kept29(Pos(3, 2));
    Kept30(Pos(3, 2));
  }

  lemma Link15()
    ensures Pos(2, 2) in G31 && G31[Pos(2, 2)].Fin? && Pos(2, 2) in P31 && P31[Pos(2, 2)] == Pos(3, 2)
  {
    assert Pos(2, 2) in G20 && G20[Pos(2, 2)].Fin? && Pos(2, 2) in P20 && P20[Pos(2, 2)] == Pos(3, 2);
    Kept20(Pos(2, 2));
    Kept21(Pos(2, 2));
    Kept22(Pos(2, 2));
    Kept23(Pos(2, 2));
    Kept24(Pos(2, 2));
    Kept25(Pos(2, 2));
    Kept26(Pos(2, 2));
    Kept27(Pos(2, 2));
    Kept28(Pos(2, 2));
    Kept29(Pos(2, 2));
    Kept30(Pos(2, 2));
  }

  lemma Link16()
    ensures Pos(1, 2) in G31 && G31[Pos(1, 2)].Fin? && Pos(1, 2) in P31 && P31[Pos(1, 2)] == Pos(2, 2)
  {
    assert Pos(1, 2) in G27 && G27[Pos(1, 2)].Fin? && Pos(1, 2) in P27 && P27[Pos(1, 2)] == Pos(2, 2);
    Kept27(Pos(1, 2));
    Kept28(Pos(1, 2));
    Kept29(Pos(1, 2));
    Kept30(Pos(1, 2));
  }

  lemma Link17()
    ensures Pos(0, 2) in G31 && G31[Pos(0, 2)].Fin? && Pos(0, 2) in P31 && P31[Pos(0, 2)] == Pos(1, 2)
  {
    assert Pos(0, 2) in G28 && G28[Pos(0, 2)].Fin? && Pos(0, 2) in P28 && P28[Pos(0, 2)] == Pos(1, 2);
    Kept28(Pos(0, 2));
    Kept29(Pos(0, 2));
    Kept30(Pos(0, 2));
  }

  lemma Link18()
    ensures Pos(0, 1) in G31 && G31[Pos(0, 1)].Fin? && Pos(0, 1) in P31 && P31[Pos(0, 1)] == Pos(0, 2)
  {
    assert Pos(0, 1) in G29 && G29[Pos(0, 1)].Fin? && Pos(0, 1) in P29 && P29[Pos(0, 1)] == Pos(0, 2);
    Kept29(Pos(0, 1));
    Kept30(Pos(0, 1));
  }

  lemma Link19()
    ensures Pos(0, 0) in G31 && G31[Pos(0, 0)].Fin? && Pos(0, 0) in P31 && P31[Pos(0, 0)] == Pos(0, 1)
  {
    assert Pos(0, 0) in G30 && G30[Pos(0, 0)].Fin? && Pos(0, 0) in P30 && P30[Pos(0, 0)] == Pos(0, 1);
    Kept30(Pos(0, 0));
  }
}
