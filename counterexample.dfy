/** The run of the search as written on `Maze.M`, followed turn by turn
    from the initial state to the turn that pops `end`, one relaxation at a
    time: a cell already in the queue gets a better score, keeps its old
    priority, and `end` is popped before that cell's improvement reaches
    it.

    The numbered members follow the states and turns of `Maze`:
    - `AtK`: the state before turn `K`, given by its queue, open set,
      counter, tables and status.
    - `RelaxK_J`: the inner loop of turn `K`, from neighbour `J` to the
      end of the list, takes the state it starts from to the one it ends in.
    - `TurnK`: one `Step` goes from `AtK` to the next state.
    - `RunFromK`: `Run` from `AtK` ends in `At31`, the state in which `end`
      is found.
    - `BackJ`: in the final tables, the chain from cell `J` of `Drawn` is
      the first `J + 1` cells of `Drawn`. */
module Counterexample {
  import opened Grid
  import opened SearchLoop
  import opened Path
  import opened Maze

  /** The part of the search state a turn depends on: the queue, the open
      set, the counter, the scores, the predecessors and the status. */
  ghost predicate At(st: State, q: seq<Entry>, openSet: set<Pos>, count: nat,
                     scores: map<Pos, Score>, prev: map<Pos, Pos>, status: Status)
  {
    st.queue == q && st.openSet == openSet && st.count == count &&
    st.g == scores && st.prev == prev && st.status == status
  }

  /** A better way to a cell outside the open set: it is queued last. */
  lemma Enqueues(curr: Pos, n: Pos, k: nat, st: State)
    requires ScoreOf(st.g, curr) == Fin(k) && Below(Fin(k + 1), ScoreOf(st.g, n)) && n !in st.openSet
    ensures RelaxOne(AsWritten, E, curr, n, st) ==
      st.(g := st.g[n := Fin(k + 1)], f := st.f[n := Fin(k + 1 + HTo(n, E))], prev := st.prev[n := curr],
          count := st.count + 1, queue := st.queue + [Entry(k + 1 + HTo(n, E), st.count + 1, n)],
          openSet := st.openSet + {n}, inQueue := st.inQueue + {n})
  {
  }

  /** A better way to a cell in the open set: its entry keeps its old
      priority. */
  lemma KeepsEntry(curr: Pos, n: Pos, k: nat, st: State)
    requires ScoreOf(st.g, curr) == Fin(k) && Below(Fin(k + 1), ScoreOf(st.g, n)) && n in st.openSet
    ensures RelaxOne(AsWritten, E, curr, n, st) ==
      st.(g := st.g[n := Fin(k + 1)], f := st.f[n := Fin(k + 1 + HTo(n, E))], prev := st.prev[n := curr])
  {
  }

  ghost predicate At0(st: State)
  {
    At(st, [Entry(0, 0, Pos(12, 3))], {Pos(12, 3)}, 0, G0, P0, Running)
  }

  ghost predicate At1(st: State)
  {
    At(st, [Entry(15, 1, Pos(11, 3))], {Pos(11, 3)}, 1, G1, P1, Running)
  }

  ghost predicate At2(st: State)
  {
    At(st, [Entry(17, 2, Pos(11, 4)), Entry(15, 3, Pos(11, 2))], {Pos(11, 2), Pos(11, 4)}, 3, G2, P2, Running)
  }

  ghost predicate At3(st: State)
  {
    At(st, [Entry(17, 2, Pos(11, 4)), Entry(15, 4, Pos(10, 2))], {Pos(10, 2), Pos(11, 4)}, 4, G3, P3, Running)
  }

  ghost predicate At4(st: State)
  {
    At(st, [Entry(17, 2, Pos(11, 4)), Entry(15, 5, Pos(9, 2))], {Pos(9, 2), Pos(11, 4)}, 5, G4, P4, Running)
  }

  ghost predicate At5(st: State)
  {
    At(st, [Entry(17, 2, Pos(11, 4)), Entry(17, 6, Pos(9, 3)), Entry(15, 7, Pos(9, 1))], {Pos(9, 1), Pos(9, 3), Pos(11, 4)}, 7, G5, P5, Running)
  }

  ghost predicate At6(st: State)
  {
    At(st, [Entry(17, 2, Pos(11, 4)), Entry(17, 6, Pos(9, 3)), Entry(15, 8, Pos(8, 1))], {Pos(8, 1), Pos(9, 3), Pos(11, 4)}, 8, G6, P6, Running)
  }

  ghost predicate At7(st: State)
  {
    At(st, [Entry(17, 2, Pos(11, 4)), Entry(17, 6, Pos(9, 3)), Entry(15, 9, Pos(7, 1))], {Pos(7, 1), Pos(9, 3), Pos(11, 4)}, 9, G7, P7, Running)
  }

  ghost predicate At8(st: State)
  {
    At(st, [Entry(17, 2, Pos(11, 4)), Entry(17, 6, Pos(9, 3)), Entry(15, 10, Pos(6, 1))], {Pos(6, 1), Pos(9, 3), Pos(11, 4)}, 10, G8, P8, Running)
  }

  ghost predicate At9(st: State)
  {
    At(st, [Entry(17, 2, Pos(11, 4)), Entry(17, 6, Pos(9, 3)), Entry(15, 11, Pos(5, 1))], {Pos(5, 1), Pos(9, 3), Pos(11, 4)}, 11, G9, P9, Running)
  }

  ghost predicate At10(st: State)
  {
    At(st, [Entry(17, 2, Pos(11, 4)), Entry(17, 6, Pos(9, 3)), Entry(15, 12, Pos(5, 0))], {Pos(5, 0), Pos(9, 3), Pos(11, 4)}, 12, G10, P10, Running)
  }

  ghost predicate At11(st: State)
  {
    At(st, [Entry(17, 2, Pos(11, 4)), Entry(17, 6, Pos(9, 3)), Entry(15, 13, Pos(4, 0))], {Pos(4, 0), Pos(9, 3), Pos(11, 4)}, 13, G11, P11, Running)
  }

  ghost predicate At12(st: State)
  {
    At(st, [Entry(17, 2, Pos(11, 4)), Entry(17, 6, Pos(9, 3)), Entry(15, 14, Pos(3, 0))], {Pos(3, 0), Pos(9, 3), Pos(11, 4)}, 14, G12, P12, Running)
  }

  ghost predicate At13(st: State)
  {
    At(st, [Entry(17, 2, Pos(11, 4)), Entry(17, 6, Pos(9, 3)), Entry(17, 15, Pos(3, 1))], {Pos(3, 1), Pos(9, 3), Pos(11, 4)}, 15, G13, P13, Running)
  }

  ghost predicate At14(st: State)
  {
    At(st, [Entry(17, 6, Pos(9, 3)), Entry(17, 15, Pos(3, 1)), Entry(17, 16, Pos(10, 4))], {Pos(3, 1), Pos(9, 3), Pos(10, 4)}, 16, G14, P14, Running)
  }

  ghost predicate At15(st: State)
  {
    At(st, [Entry(17, 15, Pos(3, 1)), Entry(17, 16, Pos(10, 4)), Entry(17, 17, Pos(8, 3)), Entry(19, 18, Pos(9, 4))], {Pos(3, 1), Pos(8, 3), Pos(9, 4), Pos(10, 4)}, 18, G15, P15, Running)
  }

  ghost predicate At16(st: State)
  {
    At(st, [Entry(17, 16, Pos(10, 4)), Entry(17, 17, Pos(8, 3)), Entry(19, 18, Pos(9, 4)), Entry(19, 19, Pos(3, 2))], {Pos(3, 2), Pos(8, 3), Pos(9, 4), Pos(10, 4)}, 19, G16, P16, Running)
  }

  ghost predicate At17(st: State)
  {
    At(st, [Entry(17, 17, Pos(8, 3)), Entry(19, 18, Pos(9, 4)), Entry(19, 19, Pos(3, 2))], {Pos(3, 2), Pos(8, 3), Pos(9, 4)}, 19, G17, P17, Running)
  }

  ghost predicate At18(st: State)
  {
    At(st, [Entry(19, 18, Pos(9, 4)), Entry(19, 19, Pos(3, 2)), Entry(19, 20, Pos(8, 4))], {Pos(3, 2), Pos(8, 4), Pos(9, 4)}, 20, G18, P18, Running)
  }

  ghost predicate At19(st: State)
  {
    At(st, [Entry(19, 19, Pos(3, 2)), Entry(19, 20, Pos(8, 4))], {Pos(3, 2), Pos(8, 4)}, 20, G19, P19, Running)
  }

  ghost predicate At20(st: State)
  {
    At(st, [Entry(19, 20, Pos(8, 4)), Entry(19, 21, Pos(2, 2)), Entry(21, 22, Pos(4, 2))], {Pos(2, 2), Pos(4, 2), Pos(8, 4)}, 22, G20, P20, Running)
  }

  ghost predicate At21(st: State)
  {
    At(st, [Entry(19, 21, Pos(2, 2)), Entry(21, 22, Pos(4, 2)), Entry(17, 23, Pos(7, 4))], {Pos(2, 2), Pos(4, 2), Pos(7, 4)}, 23, G21, P21, Running)
  }

  ghost predicate At22(st: State)
  {
    At(st, [Entry(19, 21, Pos(2, 2)), Entry(21, 22, Pos(4, 2)), Entry(17, 24, Pos(6, 4))], {Pos(2, 2), Pos(4, 2), Pos(6, 4)}, 24, G22, P22, Running)
  }

  ghost predicate At23(st: State)
  {
    At(st, [Entry(19, 21, Pos(2, 2)), Entry(21, 22, Pos(4, 2)), Entry(17, 25, Pos(5, 4))], {Pos(2, 2), Pos(4, 2), Pos(5, 4)}, 25, G23, P23, Running)
  }

  ghost predicate At24(st: State)
  {
    At(st, [Entry(19, 21, Pos(2, 2)), Entry(21, 22, Pos(4, 2)), Entry(17, 26, Pos(5, 3))], {Pos(2, 2), Pos(4, 2), Pos(5, 3)}, 26, G24, P24, Running)
  }

  ghost predicate At25(st: State)
  {
    At(st, [Entry(19, 21, Pos(2, 2)), Entry(21, 22, Pos(4, 2)), Entry(17, 27, Pos(4, 3))], {Pos(2, 2), Pos(4, 2), Pos(4, 3)}, 27, G25, P25, Running)
  }

  ghost predicate At26(st: State)
  {
    At(st, [Entry(19, 21, Pos(2, 2)), Entry(21, 22, Pos(4, 2))], {Pos(2, 2), Pos(4, 2)}, 27, G26, P26, Running)
  }

  ghost predicate At27(st: State)
  {
    At(st, [Entry(21, 22, Pos(4, 2)), Entry(19, 28, Pos(1, 2))], {Pos(1, 2), Pos(4, 2)}, 28, G27, P27, Running)
  }

  ghost predicate At28(st: State)
  {
    At(st, [Entry(21, 22, Pos(4, 2)), Entry(19, 29, Pos(0, 2))], {Pos(0, 2), Pos(4, 2)}, 29, G28, P28, Running)
  }

  ghost predicate At29(st: State)
  {
    At(st, [Entry(21, 22, Pos(4, 2)), Entry(19, 30, Pos(0, 1))], {Pos(0, 1), Pos(4, 2)}, 30, G29, P29, Running)
  }

  ghost predicate At30(st: State)
  {
    At(st, [Entry(21, 22, Pos(4, 2)), Entry(19, 31, Pos(0, 0))], {Pos(0, 0), Pos(4, 2)}, 31, G30, P30, Running)
  }

  ghost predicate At31(st: State)
  {
    At(st, [Entry(21, 22, Pos(4, 2))], {Pos(4, 2)}, 31, G31, P31, Found)
  }

  lemma Relax0_0(st: State)
    requires At(st, [], {}, 0, G0, P0, Running)
    ensures At(Relax(AsWritten, E, Pos(12, 3), [Pos(11, 3)], st), [Entry(15, 1, Pos(11, 3))], {Pos(11, 3)}, 1, G1, P1, Running)
  {
    Look0_0();
    Enqueues(Pos(12, 3), Pos(11, 3), 0, st);
  }

  lemma Turn0(st: State)
    requires At0(st)
    ensures At1(Step(AsWritten, M, S, E, st))
  {
    Pop0();
    Around0();
    StepExpands(AsWritten, M, S, E, st, 0, [Pos(11, 3)]);
    Relax0_0(st.(queue := RemoveAt(st.queue, 0), openSet := st.openSet - {Pos(12, 3)}));
  }

  lemma Relax1_0(st: State)
    requires At(st, [], {}, 1, G1, P1, Running)
    ensures At(Relax(AsWritten, E, Pos(11, 3), [Pos(11, 4), Pos(12, 3), Pos(11, 2)], st), [Entry(17, 2, Pos(11, 4)), Entry(15, 3, Pos(11, 2))], {Pos(11, 2), Pos(11, 4)}, 3, G2, P2, Running)
  {
    Look1_0();
    Enqueues(Pos(11, 3), Pos(11, 4), 1, st);
    Relax1_1(RelaxOne(AsWritten, E, Pos(11, 3), Pos(11, 4), st));
  }

  lemma Relax1_1(st: State)
    requires At(st, [Entry(17, 2, Pos(11, 4))], {Pos(11, 4)}, 2, G1[Pos(11, 4) := Fin(2)], P1[Pos(11, 4) := Pos(11, 3)], Running)
    ensures At(Relax(AsWritten, E, Pos(11, 3), [Pos(12, 3), Pos(11, 2)], st), [Entry(17, 2, Pos(11, 4)), Entry(15, 3, Pos(11, 2))], {Pos(11, 2), Pos(11, 4)}, 3, G2, P2, Running)
  {
    Look1_1();
    RelaxOneKeeps(AsWritten, E, Pos(11, 3), Pos(12, 3), st);
    Relax1_2(RelaxOne(AsWritten, E, Pos(11, 3), Pos(12, 3), st));
  }

  lemma Relax1_2(st: State)
    requires At(st, [Entry(17, 2, Pos(11, 4))], {Pos(11, 4)}, 2, G1[Pos(11, 4) := Fin(2)], P1[Pos(11, 4) := Pos(11, 3)], Running)
    ensures At(Relax(AsWritten, E, Pos(11, 3), [Pos(11, 2)], st), [Entry(17, 2, Pos(11, 4)), Entry(15, 3, Pos(11, 2))], {Pos(11, 2), Pos(11, 4)}, 3, G2, P2, Running)
  {
    Look1_2();
    Enqueues(Pos(11, 3), Pos(11, 2), 1, st);
  }

  lemma Turn1(st: State)
    requires At1(st)
    ensures At2(Step(AsWritten, M, S, E, st))
  {
    Pop1();
    Around1();
    StepExpands(AsWritten, M, S, E, st, 0, [Pos(11, 4), Pos(12, 3), Pos(11, 2)]);
    Relax1_0(st.(queue := RemoveAt(st.queue, 0), openSet := st.openSet - {Pos(11, 3)}));
  }

  lemma Relax2_0(st: State)
    requires At(st, [Entry(17, 2, Pos(11, 4))], {Pos(11, 4)}, 3, G2, P2, Running)
    ensures At(Relax(AsWritten, E, Pos(11, 2), [Pos(10, 2), Pos(11, 3)], st), [Entry(17, 2, Pos(11, 4)), Entry(15, 4, Pos(10, 2))], {Pos(10, 2), Pos(11, 4)}, 4, G3, P3, Running)
  {
    Look2_0();
    Enqueues(Pos(11, 2), Pos(10, 2), 2, st);
    Relax2_1(RelaxOne(AsWritten, E, Pos(11, 2), Pos(10, 2), st));
  }

  lemma Relax2_1(st: State)
    requires At(st, [Entry(17, 2, Pos(11, 4)), Entry(15, 4, Pos(10, 2))], {Pos(10, 2), Pos(11, 4)}, 4, G2[Pos(10, 2) := Fin(3)], P2[Pos(10, 2) := Pos(11, 2)], Running)
    ensures At(Relax(AsWritten, E, Pos(11, 2), [Pos(11, 3)], st), [Entry(17, 2, Pos(11, 4)), Entry(15, 4, Pos(10, 2))], {Pos(10, 2), Pos(11, 4)}, 4, G3, P3, Running)
  {
    Look2_1();
    RelaxOneKeeps(AsWritten, E, Pos(11, 2), Pos(11, 3), st);
  }

  lemma Turn2(st: State)
    requires At2(st)
    ensures At3(Step(AsWritten, M, S, E, st))
  {
    Pop2();
    Around2();
    StepExpands(AsWritten, M, S, E, st, 1, [Pos(10, 2), Pos(11, 3)]);
    Relax2_0(st.(queue := RemoveAt(st.queue, 1), openSet := st.openSet - {Pos(11, 2)}));
  }

  lemma Relax3_0(st: State)
    requires At(st, [Entry(17, 2, Pos(11, 4))], {Pos(11, 4)}, 4, G3, P3, Running)
    ensures At(Relax(AsWritten, E, Pos(10, 2), [Pos(9, 2), Pos(11, 2)], st), [Entry(17, 2, Pos(11, 4)), Entry(15, 5, Pos(9, 2))], {Pos(9, 2), Pos(11, 4)}, 5, G4, P4, Running)
  {
    Look3_0();
    Enqueues(Pos(10, 2), Pos(9, 2), 3, st);
    Relax3_1(RelaxOne(AsWritten, E, Pos(10, 2), Pos(9, 2), st));
  }

  lemma Relax3_1(st: State)
    requires At(st, [Entry(17, 2, Pos(11, 4)), Entry(15, 5, Pos(9, 2))], {Pos(9, 2), Pos(11, 4)}, 5, G3[Pos(9, 2) := Fin(4)], P3[Pos(9, 2) := Pos(10, 2)], Running)
    ensures At(Relax(AsWritten, E, Pos(10, 2), [Pos(11, 2)], st), [Entry(17, 2, Pos(11, 4)), Entry(15, 5, Pos(9, 2))], {Pos(9, 2), Pos(11, 4)}, 5, G4, P4, Running)
  {
    Look3_1();
    RelaxOneKeeps(AsWritten, E, Pos(10, 2), Pos(11, 2), st);
  }

  lemma Turn3(st: State)
    requires At3(st)
    ensures At4(Step(AsWritten, M, S, E, st))
  {
    Pop3();
    Around3();
    StepExpands(AsWritten, M, S, E, st, 1, [Pos(9, 2), Pos(11, 2)]);
    Relax3_0(st.(queue := RemoveAt(st.queue, 1), openSet := st.openSet - {Pos(10, 2)}));
  }

  lemma Relax4_0(st: State)
    requires At(st, [Entry(17, 2, Pos(11, 4))], {Pos(11, 4)}, 5, G4, P4, Running)
    ensures At(Relax(AsWritten, E, Pos(9, 2), [Pos(9, 3), Pos(10, 2), Pos(9, 1)], st), [Entry(17, 2, Pos(11, 4)), Entry(17, 6, Pos(9, 3)), Entry(15, 7, Pos(9, 1))], {Pos(9, 1), Pos(9, 3), Pos(11, 4)}, 7, G5, P5, Running)
  {
    Look4_0();
    Enqueues(Pos(9, 2), Pos(9, 3), 4, st);
    Relax4_1(RelaxOne(AsWritten, E, Pos(9, 2), Pos(9, 3), st));
  }

  lemma Relax4_1(st: State)
    requires At(st, [Entry(17, 2, Pos(11, 4)), Entry(17, 6, Pos(9, 3))], {Pos(9, 3), Pos(11, 4)}, 6, G4[Pos(9, 3) := Fin(5)], P4[Pos(9, 3) := Pos(9, 2)], Running)
    ensures At(Relax(AsWritten, E, Pos(9, 2), [Pos(10, 2), Pos(9, 1)], st), [Entry(17, 2, Pos(11, 4)), Entry(17, 6, Pos(9, 3)), Entry(15, 7, Pos(9, 1))], {Pos(9, 1), Pos(9, 3), Pos(11, 4)}, 7, G5, P5, Running)
  {
    Look4_1();
    RelaxOneKeeps(AsWritten, E, Pos(9, 2), Pos(10, 2), st);
    Relax4_2(RelaxOne(AsWritten, E, Pos(9, 2), Pos(10, 2), st));
  }

  lemma Relax4_2(st: State)
    requires At(st, [Entry(17, 2, Pos(11, 4)), Entry(17, 6, Pos(9, 3))], {Pos(9, 3), Pos(11, 4)}, 6, G4[Pos(9, 3) := Fin(5)], P4[Pos(9, 3) := Pos(9, 2)], Running)
    ensures At(Relax(AsWritten, E, Pos(9, 2), [Pos(9, 1)], st), [Entry(17, 2, Pos(11, 4)), Entry(17, 6, Pos(9, 3)), Entry(15, 7, Pos(9, 1))], {Pos(9, 1), Pos(9, 3), Pos(11, 4)}, 7, G5, P5, Running)
  {
    Look4_2();
    Enqueues(Pos(9, 2), Pos(9, 1), 4, st);
  }

  lemma Turn4(st: State)
    requires At4(st)
    ensures At5(Step(AsWritten, M, S, E, st))
  {
    Pop4();
    Around4();
    StepExpands(AsWritten, M, S, E, st, 1, [Pos(9, 3), Pos(10, 2), Pos(9, 1)]);
    Relax4_0(st.(queue := RemoveAt(st.queue, 1), openSet := st.openSet - {Pos(9, 2)}));
  }

  lemma Relax5_0(st: State)
    requires At(st, [Entry(17, 2, Pos(11, 4)), Entry(17, 6, Pos(9, 3))], {Pos(9, 3), Pos(11, 4)}, 7, G5, P5, Running)
    ensures At(Relax(AsWritten, E, Pos(9, 1), [Pos(8, 1), Pos(9, 2)], st), [Entry(17, 2, Pos(11, 4)), Entry(17, 6, Pos(9, 3)), Entry(15, 8, Pos(8, 1))], {Pos(8, 1), Pos(9, 3), Pos(11, 4)}, 8, G6, P6, Running)
  {
    Look5_0();
    Enqueues(Pos(9, 1), Pos(8, 1), 5, st);
    Relax5_1(RelaxOne(AsWritten, E, Pos(9, 1), Pos(8, 1), st));
  }

  lemma Relax5_1(st: State)
    requires At(st, [Entry(17, 2, Pos(11, 4)), Entry(17, 6, Pos(9, 3)), Entry(15, 8, Pos(8, 1))], {Pos(8, 1), Pos(9, 3), Pos(11, 4)}, 8, G5[Pos(8, 1) := Fin(6)], P5[Pos(8, 1) := Pos(9, 1)], Running)
    ensures At(Relax(AsWritten, E, Pos(9, 1), [Pos(9, 2)], st), [Entry(17, 2, Pos(11, 4)), Entry(17, 6, Pos(9, 3)), Entry(15, 8, Pos(8, 1))], {Pos(8, 1), Pos(9, 3), Pos(11, 4)}, 8, G6, P6, Running)
  {
    Look5_1();
    RelaxOneKeeps(AsWritten, E, Pos(9, 1), Pos(9, 2), st);
  }

  lemma Turn5(st: State)
    requires At5(st)
    ensures At6(Step(AsWritten, M, S, E, st))
  {
    Pop5();
    Around5();
    StepExpands(AsWritten, M, S, E, st, 2, [Pos(8, 1), Pos(9, 2)]);
    Relax5_0(st.(queue := RemoveAt(st.queue, 2), openSet := st.openSet - {Pos(9, 1)}));
  }

  lemma Relax6_0(st: State)
    requires At(st, [Entry(17, 2, Pos(11, 4)), Entry(17, 6, Pos(9, 3))], {Pos(9, 3), Pos(11, 4)}, 8, G6, P6, Running)
    ensures At(Relax(AsWritten, E, Pos(8, 1), [Pos(7, 1), Pos(9, 1)], st), [Entry(17, 2, Pos(11, 4)), Entry(17, 6, Pos(9, 3)), Entry(15, 9, Pos(7, 1))], {Pos(7, 1), Pos(9, 3), Pos(11, 4)}, 9, G7, P7, Running)
  {
    Look6_0();
    Enqueues(Pos(8, 1), Pos(7, 1), 6, st);
    Relax6_1(RelaxOne(AsWritten, E, Pos(8, 1), Pos(7, 1), st));
  }

  lemma Relax6_1(st: State)
    requires At(st, [Entry(17, 2, Pos(11, 4)), Entry(17, 6, Pos(9, 3)), Entry(15, 9, Pos(7, 1))], {Pos(7, 1), Pos(9, 3), Pos(11, 4)}, 9, G6[Pos(7, 1) := Fin(7)], P6[Pos(7, 1) := Pos(8, 1)], Running)
    ensures At(Relax(AsWritten, E, Pos(8, 1), [Pos(9, 1)], st), [Entry(17, 2, Pos(11, 4)), Entry(17, 6, Pos(9, 3)), Entry(15, 9, Pos(7, 1))], {Pos(7, 1), Pos(9, 3), Pos(11, 4)}, 9, G7, P7, Running)
  {
    Look6_1();
    RelaxOneKeeps(AsWritten, E, Pos(8, 1), Pos(9, 1), st);
  }

  lemma Turn6(st: State)
    requires At6(st)
    ensures At7(Step(AsWritten, M, S, E, st))
  {
    Pop6();
    Around6();
    StepExpands(AsWritten, M, S, E, st, 2, [Pos(7, 1), Pos(9, 1)]);
    Relax6_0(st.(queue := RemoveAt(st.queue, 2), openSet := st.openSet - {Pos(8, 1)}));
  }

  lemma Relax7_0(st: State)
    requires At(st, [Entry(17, 2, Pos(11, 4)), Entry(17, 6, Pos(9, 3))], {Pos(9, 3), Pos(11, 4)}, 9, G7, P7, Running)
    ensures At(Relax(AsWritten, E, Pos(7, 1), [Pos(6, 1), Pos(8, 1)], st), [Entry(17, 2, Pos(11, 4)), Entry(17, 6, Pos(9, 3)), Entry(15, 10, Pos(6, 1))], {Pos(6, 1), Pos(9, 3), Pos(11, 4)}, 10, G8, P8, Running)
  {
    Look7_0();
    Enqueues(Pos(7, 1), Pos(6, 1), 7, st);
    Relax7_1(RelaxOne(AsWritten, E, Pos(7, 1), Pos(6, 1), st));
  }

  lemma Relax7_1(st: State)
    requires At(st, [Entry(17, 2, Pos(11, 4)), Entry(17, 6, Pos(9, 3)), Entry(15, 10, Pos(6, 1))], {Pos(6, 1), Pos(9, 3), Pos(11, 4)}, 10, G7[Pos(6, 1) := Fin(8)], P7[Pos(6, 1) := Pos(7, 1)], Running)
    ensures At(Relax(AsWritten, E, Pos(7, 1), [Pos(8, 1)], st), [Entry(17, 2, Pos(11, 4)), Entry(17, 6, Pos(9, 3)), Entry(15, 10, Pos(6, 1))], {Pos(6, 1), Pos(9, 3), Pos(11, 4)}, 10, G8, P8, Running)
  {
    Look7_1();
    RelaxOneKeeps(AsWritten, E, Pos(7, 1), Pos(8, 1), st);
  }

  lemma Turn7(st: State)
    requires At7(st)
    ensures At8(Step(AsWritten, M, S, E, st))
  {
    Pop7();
    Around7();
    StepExpands(AsWritten, M, S, E, st, 2, [Pos(6, 1), Pos(8, 1)]);
    Relax7_0(st.(queue := RemoveAt(st.queue, 2), openSet := st.openSet - {Pos(7, 1)}));
  }

  lemma Relax8_0(st: State)
    requires At(st, [Entry(17, 2, Pos(11, 4)), Entry(17, 6, Pos(9, 3))], {Pos(9, 3), Pos(11, 4)}, 10, G8, P8, Running)
    ensures At(Relax(AsWritten, E, Pos(6, 1), [Pos(5, 1), Pos(7, 1)], st), [Entry(17, 2, Pos(11, 4)), Entry(17, 6, Pos(9, 3)), Entry(15, 11, Pos(5, 1))], {Pos(5, 1), Pos(9, 3), Pos(11, 4)}, 11, G9, P9, Running)
  {
    Look8_0();
    Enqueues(Pos(6, 1), Pos(5, 1), 8, st);
    Relax8_1(RelaxOne(AsWritten, E, Pos(6, 1), Pos(5, 1), st));
  }

  lemma Relax8_1(st: State)
    requires At(st, [Entry(17, 2, Pos(11, 4)), Entry(17, 6, Pos(9, 3)), Entry(15, 11, Pos(5, 1))], {Pos(5, 1), Pos(9, 3), Pos(11, 4)}, 11, G8[Pos(5, 1) := Fin(9)], P8[Pos(5, 1) := Pos(6, 1)], Running)
    ensures At(Relax(AsWritten, E, Pos(6, 1), [Pos(7, 1)], st), [Entry(17, 2, Pos(11, 4)), Entry(17, 6, Pos(9, 3)), Entry(15, 11, Pos(5, 1))], {Pos(5, 1), Pos(9, 3), Pos(11, 4)}, 11, G9, P9, Running)
  {
    Look8_1();
    RelaxOneKeeps(AsWritten, E, Pos(6, 1), Pos(7, 1), st);
  }

  lemma Turn8(st: State)
    requires At8(st)
    ensures At9(Step(AsWritten, M, S, E, st))
  {
    Pop8();
    Around8();
    StepExpands(AsWritten, M, S, E, st, 2, [Pos(5, 1), Pos(7, 1)]);
    Relax8_0(st.(queue := RemoveAt(st.queue, 2), openSet := st.openSet - {Pos(6, 1)}));
  }

  lemma Relax9_0(st: State)
    requires At(st, [Entry(17, 2, Pos(11, 4)), Entry(17, 6, Pos(9, 3))], {Pos(9, 3), Pos(11, 4)}, 11, G9, P9, Running)
    ensures At(Relax(AsWritten, E, Pos(5, 1), [Pos(6, 1), Pos(5, 0)], st), [Entry(17, 2, Pos(11, 4)), Entry(17, 6, Pos(9, 3)), Entry(15, 12, Pos(5, 0))], {Pos(5, 0), Pos(9, 3), Pos(11, 4)}, 12, G10, P10, Running)
  {
    Look9_0();
    RelaxOneKeeps(AsWritten, E, Pos(5, 1), Pos(6, 1), st);
    Relax9_1(RelaxOne(AsWritten, E, Pos(5, 1), Pos(6, 1), st));
  }

  lemma Relax9_1(st: State)
    requires At(st, [Entry(17, 2, Pos(11, 4)), Entry(17, 6, Pos(9, 3))], {Pos(9, 3), Pos(11, 4)}, 11, G9, P9, Running)
    ensures At(Relax(AsWritten, E, Pos(5, 1), [Pos(5, 0)], st), [Entry(17, 2, Pos(11, 4)), Entry(17, 6, Pos(9, 3)), Entry(15, 12, Pos(5, 0))], {Pos(5, 0), Pos(9, 3), Pos(11, 4)}, 12, G10, P10, Running)
  {
    Look9_1();
    Enqueues(Pos(5, 1), Pos(5, 0), 9, st);
  }

  lemma Turn9(st: State)
    requires At9(st)
    ensures At10(Step(AsWritten, M, S, E, st))
  {
    Pop9();
    Around9();
    StepExpands(AsWritten, M, S, E, st, 2, [Pos(6, 1), Pos(5, 0)]);
    Relax9_0(st.(queue := RemoveAt(st.queue, 2), openSet := st.openSet - {Pos(5, 1)}));
  }

  lemma Relax10_0(st: State)
    requires At(st, [Entry(17, 2, Pos(11, 4)), Entry(17, 6, Pos(9, 3))], {Pos(9, 3), Pos(11, 4)}, 12, G10, P10, Running)
    ensures At(Relax(AsWritten, E, Pos(5, 0), [Pos(4, 0), Pos(5, 1)], st), [Entry(17, 2, Pos(11, 4)), Entry(17, 6, Pos(9, 3)), Entry(15, 13, Pos(4, 0))], {Pos(4, 0), Pos(9, 3), Pos(11, 4)}, 13, G11, P11, Running)
  {
    Look10_0();
    Enqueues(Pos(5, 0), Pos(4, 0), 10, st);
    Relax10_1(RelaxOne(AsWritten, E, Pos(5, 0), Pos(4, 0), st));
  }

  lemma Relax10_1(st: State)
    requires At(st, [Entry(17, 2, Pos(11, 4)), Entry(17, 6, Pos(9, 3)), Entry(15, 13, Pos(4, 0))], {Pos(4, 0), Pos(9, 3), Pos(11, 4)}, 13, G10[Pos(4, 0) := Fin(11)], P10[Pos(4, 0) := Pos(5, 0)], Running)
    ensures At(Relax(AsWritten, E, Pos(5, 0), [Pos(5, 1)], st), [Entry(17, 2, Pos(11, 4)), Entry(17, 6, Pos(9, 3)), Entry(15, 13, Pos(4, 0))], {Pos(4, 0), Pos(9, 3), Pos(11, 4)}, 13, G11, P11, Running)
  {
    Look10_1();
    RelaxOneKeeps(AsWritten, E, Pos(5, 0), Pos(5, 1), st);
  }

  lemma Turn10(st: State)
    requires At10(st)
    ensures At11(Step(AsWritten, M, S, E, st))
  {
    Pop10();
    Around10();
    StepExpands(AsWritten, M, S, E, st, 2, [Pos(4, 0), Pos(5, 1)]);
    Relax10_0(st.(queue := RemoveAt(st.queue, 2), openSet := st.openSet - {Pos(5, 0)}));
  }

  lemma Relax11_0(st: State)
    requires At(st, [Entry(17, 2, Pos(11, 4)), Entry(17, 6, Pos(9, 3))], {Pos(9, 3), Pos(11, 4)}, 13, G11, P11, Running)
    ensures At(Relax(AsWritten, E, Pos(4, 0), [Pos(3, 0), Pos(5, 0)], st), [Entry(17, 2, Pos(11, 4)), Entry(17, 6, Pos(9, 3)), Entry(15, 14, Pos(3, 0))], {Pos(3, 0), Pos(9, 3), Pos(11, 4)}, 14, G12, P12, Running)
  {
    Look11_0();
    Enqueues(Pos(4, 0), Pos(3, 0), 11, st);
    Relax11_1(RelaxOne(AsWritten, E, Pos(4, 0), Pos(3, 0), st));
  }

  lemma Relax11_1(st: State)
    requires At(st, [Entry(17, 2, Pos(11, 4)), Entry(17, 6, Pos(9, 3)), Entry(15, 14, Pos(3, 0))], {Pos(3, 0), Pos(9, 3), Pos(11, 4)}, 14, G11[Pos(3, 0) := Fin(12)], P11[Pos(3, 0) := Pos(4, 0)], Running)
    ensures At(Relax(AsWritten, E, Pos(4, 0), [Pos(5, 0)], st), [Entry(17, 2, Pos(11, 4)), Entry(17, 6, Pos(9, 3)), Entry(15, 14, Pos(3, 0))], {Pos(3, 0), Pos(9, 3), Pos(11, 4)}, 14, G12, P12, Running)
  {
    Look11_1();
    RelaxOneKeeps(AsWritten, E, Pos(4, 0), Pos(5, 0), st);
  }

  lemma Turn11(st: State)
    requires At11(st)
    ensures At12(Step(AsWritten, M, S, E, st))
  {
    Pop11();
    Around11();
    StepExpands(AsWritten, M, S, E, st, 2, [Pos(3, 0), Pos(5, 0)]);
    Relax11_0(st.(queue := RemoveAt(st.queue, 2), openSet := st.openSet - {Pos(4, 0)}));
  }

  lemma Relax12_0(st: State)
    requires At(st, [Entry(17, 2, Pos(11, 4)), Entry(17, 6, Pos(9, 3))], {Pos(9, 3), Pos(11, 4)}, 14, G12, P12, Running)
    ensures At(Relax(AsWritten, E, Pos(3, 0), [Pos(3, 1), Pos(4, 0)], st), [Entry(17, 2, Pos(11, 4)), Entry(17, 6, Pos(9, 3)), Entry(17, 15, Pos(3, 1))], {Pos(3, 1), Pos(9, 3), Pos(11, 4)}, 15, G13, P13, Running)
  {
    Look12_0();
    Enqueues(Pos(3, 0), Pos(3, 1), 12, st);
    Relax12_1(RelaxOne(AsWritten, E, Pos(3, 0), Pos(3, 1), st));
  }

  lemma Relax12_1(st: State)
    requires At(st, [Entry(17, 2, Pos(11, 4)), Entry(17, 6, Pos(9, 3)), Entry(17, 15, Pos(3, 1))], {Pos(3, 1), Pos(9, 3), Pos(11, 4)}, 15, G12[Pos(3, 1) := Fin(13)], P12[Pos(3, 1) := Pos(3, 0)], Running)
    ensures At(Relax(AsWritten, E, Pos(3, 0), [Pos(4, 0)], st), [Entry(17, 2, Pos(11, 4)), Entry(17, 6, Pos(9, 3)), Entry(17, 15, Pos(3, 1))], {Pos(3, 1), Pos(9, 3), Pos(11, 4)}, 15, G13, P13, Running)
  {
    Look12_1();
    RelaxOneKeeps(AsWritten, E, Pos(3, 0), Pos(4, 0), st);
  }

  lemma Turn12(st: State)
    requires At12(st)
    ensures At13(Step(AsWritten, M, S, E, st))
  {
    Pop12();
    Around12();
    StepExpands(AsWritten, M, S, E, st, 2, [Pos(3, 1), Pos(4, 0)]);
    Relax12_0(st.(queue := RemoveAt(st.queue, 2), openSet := st.openSet - {Pos(3, 0)}));
  }

  lemma Relax13_0(st: State)
    requires At(st, [Entry(17, 6, Pos(9, 3)), Entry(17, 15, Pos(3, 1))], {Pos(3, 1), Pos(9, 3)}, 15, G13, P13, Running)
    ensures At(Relax(AsWritten, E, Pos(11, 4), [Pos(10, 4), Pos(11, 3)], st), [Entry(17, 6, Pos(9, 3)), Entry(17, 15, Pos(3, 1)), Entry(17, 16, Pos(10, 4))], {Pos(3, 1), Pos(9, 3), Pos(10, 4)}, 16, G14, P14, Running)
  {
    Look13_0();
    Enqueues(Pos(11, 4), Pos(10, 4), 2, st);
    Relax13_1(RelaxOne(AsWritten, E, Pos(11, 4), Pos(10, 4), st));
  }

  lemma Relax13_1(st: State)
    requires At(st, [Entry(17, 6, Pos(9, 3)), Entry(17, 15, Pos(3, 1)), Entry(17, 16, Pos(10, 4))], {Pos(3, 1), Pos(9, 3), Pos(10, 4)}, 16, G13[Pos(10, 4) := Fin(3)], P13[Pos(10, 4) := Pos(11, 4)], Running)
    ensures At(Relax(AsWritten, E, Pos(11, 4), [Pos(11, 3)], st), [Entry(17, 6, Pos(9, 3)), Entry(17, 15, Pos(3, 1)), Entry(17, 16, Pos(10, 4))], {Pos(3, 1), Pos(9, 3), Pos(10, 4)}, 16, G14, P14, Running)
  {
    Look13_1();
    RelaxOneKeeps(AsWritten, E, Pos(11, 4), Pos(11, 3), st);
  }

  lemma Turn13(st: State)
    requires At13(st)
    ensures At14(Step(AsWritten, M, S, E, st))
  {
    Pop13();
    Around13();
    StepExpands(AsWritten, M, S, E, st, 0, [Pos(10, 4), Pos(11, 3)]);
    Relax13_0(st.(queue := RemoveAt(st.queue, 0), openSet := st.openSet - {Pos(11, 4)}));
  }

  lemma Relax14_0(st: State)
    requires At(st, [Entry(17, 15, Pos(3, 1)), Entry(17, 16, Pos(10, 4))], {Pos(3, 1), Pos(10, 4)}, 16, G14, P14, Running)
    ensures At(Relax(AsWritten, E, Pos(9, 3), [Pos(8, 3), Pos(9, 4), Pos(9, 2)], st), [Entry(17, 15, Pos(3, 1)), Entry(17, 16, Pos(10, 4)), Entry(17, 17, Pos(8, 3)), Entry(19, 18, Pos(9, 4))], {Pos(3, 1), Pos(8, 3), Pos(9, 4), Pos(10, 4)}, 18, G15, P15, Running)
  {
    Look14_0();
    Enqueues(Pos(9, 3), Pos(8, 3), 5, st);
    Relax14_1(RelaxOne(AsWritten, E, Pos(9, 3), Pos(8, 3), st));
  }

  lemma Relax14_1(st: State)
    requires At(st, [Entry(17, 15, Pos(3, 1)), Entry(17, 16, Pos(10, 4)), Entry(17, 17, Pos(8, 3))], {Pos(3, 1), Pos(8, 3), Pos(10, 4)}, 17, G14[Pos(8, 3) := Fin(6)], P14[Pos(8, 3) := Pos(9, 3)], Running)
    ensures At(Relax(AsWritten, E, Pos(9, 3), [Pos(9, 4), Pos(9, 2)], st), [Entry(17, 15, Pos(3, 1)), Entry(17, 16, Pos(10, 4)), Entry(17, 17, Pos(8, 3)), Entry(19, 18, Pos(9, 4))], {Pos(3, 1), Pos(8, 3), Pos(9, 4), Pos(10, 4)}, 18, G15, P15, Running)
  {
    Look14_1();
    Enqueues(Pos(9, 3), Pos(9, 4), 5, st);
    Relax14_2(RelaxOne(AsWritten, E, Pos(9, 3), Pos(9, 4), st));
  }

  lemma Relax14_2(st: State)
    requires At(st, [Entry(17, 15, Pos(3, 1)), Entry(17, 16, Pos(10, 4)), Entry(17, 17, Pos(8, 3)), Entry(19, 18, Pos(9, 4))], {Pos(3, 1), Pos(8, 3), Pos(9, 4), Pos(10, 4)}, 18, G14[Pos(8, 3) := Fin(6)][Pos(9, 4) := Fin(6)], P14[Pos(8, 3) := Pos(9, 3)][Pos(9, 4) := Pos(9, 3)], Running)
    ensures At(Relax(AsWritten, E, Pos(9, 3), [Pos(9, 2)], st), [Entry(17, 15, Pos(3, 1)), Entry(17, 16, Pos(10, 4)), Entry(17, 17, Pos(8, 3)), Entry(19, 18, Pos(9, 4))], {Pos(3, 1), Pos(8, 3), Pos(9, 4), Pos(10, 4)}, 18, G15, P15, Running)
  {
    Look14_2();
    RelaxOneKeeps(AsWritten, E, Pos(9, 3), Pos(9, 2), st);
  }

  lemma Turn14(st: State)
    requires At14(st)
    ensures At15(Step(AsWritten, M, S, E, st))
  {
    Pop14();
    Around14();
    StepExpands(AsWritten, M, S, E, st, 0, [Pos(8, 3), Pos(9, 4), Pos(9, 2)]);
    Relax14_0(st.(queue := RemoveAt(st.queue, 0), openSet := st.openSet - {Pos(9, 3)}));
  }

  lemma Relax15_0(st: State)
    requires At(st, [Entry(17, 16, Pos(10, 4)), Entry(17, 17, Pos(8, 3)), Entry(19, 18, Pos(9, 4))], {Pos(8, 3), Pos(9, 4), Pos(10, 4)}, 18, G15, P15, Running)
    ensures At(Relax(AsWritten, E, Pos(3, 1), [Pos(3, 2), Pos(3, 0)], st), [Entry(17, 16, Pos(10, 4)), Entry(17, 17, Pos(8, 3)), Entry(19, 18, Pos(9, 4)), Entry(19, 19, Pos(3, 2))], {Pos(3, 2), Pos(8, 3), Pos(9, 4), Pos(10, 4)}, 19, G16, P16, Running)
  {
    Look15_0();
    Enqueues(Pos(3, 1), Pos(3, 2), 13, st);
    Relax15_1(RelaxOne(AsWritten, E, Pos(3, 1), Pos(3, 2), st));
  }

  lemma Relax15_1(st: State)
    requires At(st, [Entry(17, 16, Pos(10, 4)), Entry(17, 17, Pos(8, 3)), Entry(19, 18, Pos(9, 4)), Entry(19, 19, Pos(3, 2))], {Pos(3, 2), Pos(8, 3), Pos(9, 4), Pos(10, 4)}, 19, G15[Pos(3, 2) := Fin(14)], P15[Pos(3, 2) := Pos(3, 1)], Running)
    ensures At(Relax(AsWritten, E, Pos(3, 1), [Pos(3, 0)], st), [Entry(17, 16, Pos(10, 4)), Entry(17, 17, Pos(8, 3)), Entry(19, 18, Pos(9, 4)), Entry(19, 19, Pos(3, 2))], {Pos(3, 2), Pos(8, 3), Pos(9, 4), Pos(10, 4)}, 19, G16, P16, Running)
  {
    Look15_1();
    RelaxOneKeeps(AsWritten, E, Pos(3, 1), Pos(3, 0), st);
  }

  lemma Turn15(st: State)
    requires At15(st)
    ensures At16(Step(AsWritten, M, S, E, st))
  {
    Pop15();
    Around15();
    StepExpands(AsWritten, M, S, E, st, 0, [Pos(3, 2), Pos(3, 0)]);
    Relax15_0(st.(queue := RemoveAt(st.queue, 0), openSet := st.openSet - {Pos(3, 1)}));
  }

  lemma Relax16_0(st: State)
    requires At(st, [Entry(17, 17, Pos(8, 3)), Entry(19, 18, Pos(9, 4)), Entry(19, 19, Pos(3, 2))], {Pos(3, 2), Pos(8, 3), Pos(9, 4)}, 19, G16, P16, Running)
    ensures At(Relax(AsWritten, E, Pos(10, 4), [Pos(9, 4), Pos(11, 4)], st), [Entry(17, 17, Pos(8, 3)), Entry(19, 18, Pos(9, 4)), Entry(19, 19, Pos(3, 2))], {Pos(3, 2), Pos(8, 3), Pos(9, 4)}, 19, G17, P17, Running)
  {
    Look16_0();
    KeepsEntry(Pos(10, 4), Pos(9, 4), 3, st);
    Relax16_1(RelaxOne(AsWritten, E, Pos(10, 4), Pos(9, 4), st));
  }

  lemma Relax16_1(st: State)
    requires At(st, [Entry(17, 17, Pos(8, 3)), Entry(19, 18, Pos(9, 4)), Entry(19, 19, Pos(3, 2))], {Pos(3, 2), Pos(8, 3), Pos(9, 4)}, 19, G16[Pos(9, 4) := Fin(4)], P16[Pos(9, 4) := Pos(10, 4)], Running)
    ensures At(Relax(AsWritten, E, Pos(10, 4), [Pos(11, 4)], st), [Entry(17, 17, Pos(8, 3)), Entry(19, 18, Pos(9, 4)), Entry(19, 19, Pos(3, 2))], {Pos(3, 2), Pos(8, 3), Pos(9, 4)}, 19, G17, P17, Running)
  {
    Look16_1();
    RelaxOneKeeps(AsWritten, E, Pos(10, 4), Pos(11, 4), st);
  }

  lemma Turn16(st: State)
    requires At16(st)
    ensures At17(Step(AsWritten, M, S, E, st))
  {
    Pop16();
    Around16();
    StepExpands(AsWritten, M, S, E, st, 0, [Pos(9, 4), Pos(11, 4)]);
    Relax16_0(st.(queue := RemoveAt(st.queue, 0), openSet := st.openSet - {Pos(10, 4)}));
  }

  lemma Relax17_0(st: State)
    requires At(st, [Entry(19, 18, Pos(9, 4)), Entry(19, 19, Pos(3, 2))], {Pos(3, 2), Pos(9, 4)}, 19, G17, P17, Running)
    ensures At(Relax(AsWritten, E, Pos(8, 3), [Pos(8, 4), Pos(9, 3)], st), [Entry(19, 18, Pos(9, 4)), Entry(19, 19, Pos(3, 2)), Entry(19, 20, Pos(8, 4))], {Pos(3, 2), Pos(8, 4), Pos(9, 4)}, 20, G18, P18, Running)
  {
    Look17_0();
    Enqueues(Pos(8, 3), Pos(8, 4), 6, st);
    Relax17_1(RelaxOne(AsWritten, E, Pos(8, 3), Pos(8, 4), st));
  }

  lemma Relax17_1(st: State)
    requires At(st, [Entry(19, 18, Pos(9, 4)), Entry(19, 19, Pos(3, 2)), Entry(19, 20, Pos(8, 4))], {Pos(3, 2), Pos(8, 4), Pos(9, 4)}, 20, G17[Pos(8, 4) := Fin(7)], P17[Pos(8, 4) := Pos(8, 3)], Running)
    ensures At(Relax(AsWritten, E, Pos(8, 3), [Pos(9, 3)], st), [Entry(19, 18, Pos(9, 4)), Entry(19, 19, Pos(3, 2)), Entry(19, 20, Pos(8, 4))], {Pos(3, 2), Pos(8, 4), Pos(9, 4)}, 20, G18, P18, Running)
  {
    Look17_1();
    RelaxOneKeeps(AsWritten, E, Pos(8, 3), Pos(9, 3), st);
  }

  lemma Turn17(st: State)
    requires At17(st)
    ensures At18(Step(AsWritten, M, S, E, st))
  {
    Pop17();
    Around17();
    StepExpands(AsWritten, M, S, E, st, 0, [Pos(8, 4), Pos(9, 3)]);
    Relax17_0(st.(queue := RemoveAt(st.queue, 0), openSet := st.openSet - {Pos(8, 3)}));
  }

  lemma Relax18_0(st: State)
    requires At(st, [Entry(19, 19, Pos(3, 2)), Entry(19, 20, Pos(8, 4))], {Pos(3, 2), Pos(8, 4)}, 20, G18, P18, Running)
    ensures At(Relax(AsWritten, E, Pos(9, 4), [Pos(8, 4), Pos(10, 4), Pos(9, 3)], st), [Entry(19, 19, Pos(3, 2)), Entry(19, 20, Pos(8, 4))], {Pos(3, 2), Pos(8, 4)}, 20, G19, P19, Running)
  {
    Look18_0();
    KeepsEntry(Pos(9, 4), Pos(8, 4), 4, st);
    Relax18_1(RelaxOne(AsWritten, E, Pos(9, 4), Pos(8, 4), st));
  }

  lemma Relax18_1(st: State)
    requires At(st, [Entry(19, 19, Pos(3, 2)), Entry(19, 20, Pos(8, 4))], {Pos(3, 2), Pos(8, 4)}, 20, G18[Pos(8, 4) := Fin(5)], P18[Pos(8, 4) := Pos(9, 4)], Running)
    ensures At(Relax(AsWritten, E, Pos(9, 4), [Pos(10, 4), Pos(9, 3)], st), [Entry(19, 19, Pos(3, 2)), Entry(19, 20, Pos(8, 4))], {Pos(3, 2), Pos(8, 4)}, 20, G19, P19, Running)
  {
    Look18_1();
    RelaxOneKeeps(AsWritten, E, Pos(9, 4), Pos(10, 4), st);
    Relax18_2(RelaxOne(AsWritten, E, Pos(9, 4), Pos(10, 4), st));
  }

  lemma Relax18_2(st: State)
    requires At(st, [Entry(19, 19, Pos(3, 2)), Entry(19, 20, Pos(8, 4))], {Pos(3, 2), Pos(8, 4)}, 20, G18[Pos(8, 4) := Fin(5)], P18[Pos(8, 4) := Pos(9, 4)], Running)
    ensures At(Relax(AsWritten, E, Pos(9, 4), [Pos(9, 3)], st), [Entry(19, 19, Pos(3, 2)), Entry(19, 20, Pos(8, 4))], {Pos(3, 2), Pos(8, 4)}, 20, G19, P19, Running)
  {
    Look18_2();
    RelaxOneKeeps(AsWritten, E, Pos(9, 4), Pos(9, 3), st);
  }

  lemma Turn18(st: State)
    requires At18(st)
    ensures At19(Step(AsWritten, M, S, E, st))
  {
    Pop18();
    Around18();
    StepExpands(AsWritten, M, S, E, st, 0, [Pos(8, 4), Pos(10, 4), Pos(9, 3)]);
    Relax18_0(st.(queue := RemoveAt(st.queue, 0), openSet := st.openSet - {Pos(9, 4)}));
  }

  lemma Relax19_0(st: State)
    requires At(st, [Entry(19, 20, Pos(8, 4))], {Pos(8, 4)}, 20, G19, P19, Running)
    ensures At(Relax(AsWritten, E, Pos(3, 2), [Pos(2, 2), Pos(4, 2), Pos(3, 1)], st), [Entry(19, 20, Pos(8, 4)), Entry(19, 21, Pos(2, 2)), Entry(21, 22, Pos(4, 2))], {Pos(2, 2), Pos(4, 2), Pos(8, 4)}, 22, G20, P20, Running)
  {
    Look19_0();
    Enqueues(Pos(3, 2), Pos(2, 2), 14, st);
    Relax19_1(RelaxOne(AsWritten, E, Pos(3, 2), Pos(2, 2), st));
  }

  lemma Relax19_1(st: State)
    requires At(st, [Entry(19, 20, Pos(8, 4)), Entry(19, 21, Pos(2, 2))], {Pos(2, 2), Pos(8, 4)}, 21, G19[Pos(2, 2) := Fin(15)], P19[Pos(2, 2) := Pos(3, 2)], Running)
    ensures At(Relax(AsWritten, E, Pos(3, 2), [Pos(4, 2), Pos(3, 1)], st), [Entry(19, 20, Pos(8, 4)), Entry(19, 21, Pos(2, 2)), Entry(21, 22, Pos(4, 2))], {Pos(2, 2), Pos(4, 2), Pos(8, 4)}, 22, G20, P20, Running)
  {
    Look19_1();
    Enqueues(Pos(3, 2), Pos(4, 2), 14, st);
    Relax19_2(RelaxOne(AsWritten, E, Pos(3, 2), Pos(4, 2), st));
  }

  lemma Relax19_2(st: State)
    requires At(st, [Entry(19, 20, Pos(8, 4)), Entry(19, 21, Pos(2, 2)), Entry(21, 22, Pos(4, 2))], {Pos(2, 2), Pos(4, 2), Pos(8, 4)}, 22, G19[Pos(2, 2) := Fin(15)][Pos(4, 2) := Fin(15)], P19[Pos(2, 2) := Pos(3, 2)][Pos(4, 2) := Pos(3, 2)], Running)
    ensures At(Relax(AsWritten, E, Pos(3, 2), [Pos(3, 1)], st), [Entry(19, 20, Pos(8, 4)), Entry(19, 21, Pos(2, 2)), Entry(21, 22, Pos(4, 2))], {Pos(2, 2), Pos(4, 2), Pos(8, 4)}, 22, G20, P20, Running)
  {
    Look19_2();
    RelaxOneKeeps(AsWritten, E, Pos(3, 2), Pos(3, 1), st);
  }

  lemma Turn19(st: State)
    requires At19(st)
    ensures At20(Step(AsWritten, M, S, E, st))
  {
    Pop19();
    Around19();
    StepExpands(AsWritten, M, S, E, st, 0, [Pos(2, 2), Pos(4, 2), Pos(3, 1)]);
    Relax19_0(st.(queue := RemoveAt(st.queue, 0), openSet := st.openSet - {Pos(3, 2)}));
  }

  lemma Relax20_0(st: State)
    requires At(st, [Entry(19, 21, Pos(2, 2)), Entry(21, 22, Pos(4, 2))], {Pos(2, 2), Pos(4, 2)}, 22, G20, P20, Running)
    ensures At(Relax(AsWritten, E, Pos(8, 4), [Pos(7, 4), Pos(9, 4), Pos(8, 3)], st), [Entry(19, 21, Pos(2, 2)), Entry(21, 22, Pos(4, 2)), Entry(17, 23, Pos(7, 4))], {Pos(2, 2), Pos(4, 2), Pos(7, 4)}, 23, G21, P21, Running)
  {
    Look20_0();
    Enqueues(Pos(8, 4), Pos(7, 4), 5, st);
    Relax20_1(RelaxOne(AsWritten, E, Pos(8, 4), Pos(7, 4), st));
  }

  lemma Relax20_1(st: State)
    requires At(st, [Entry(19, 21, Pos(2, 2)), Entry(21, 22, Pos(4, 2)), Entry(17, 23, Pos(7, 4))], {Pos(2, 2), Pos(4, 2), Pos(7, 4)}, 23, G20[Pos(7, 4) := Fin(6)], P20[Pos(7, 4) := Pos(8, 4)], Running)
    ensures At(Relax(AsWritten, E, Pos(8, 4), [Pos(9, 4), Pos(8, 3)], st), [Entry(19, 21, Pos(2, 2)), Entry(21, 22, Pos(4, 2)), Entry(17, 23, Pos(7, 4))], {Pos(2, 2), Pos(4, 2), Pos(7, 4)}, 23, G21, P21, Running)
  {
    Look20_1();
    RelaxOneKeeps(AsWritten, E, Pos(8, 4), Pos(9, 4), st);
    Relax20_2(RelaxOne(AsWritten, E, Pos(8, 4), Pos(9, 4), st));
  }

  lemma Relax20_2(st: State)
    requires At(st, [Entry(19, 21, Pos(2, 2)), Entry(21, 22, Pos(4, 2)), Entry(17, 23, Pos(7, 4))], {Pos(2, 2), Pos(4, 2), Pos(7, 4)}, 23, G20[Pos(7, 4) := Fin(6)], P20[Pos(7, 4) := Pos(8, 4)], Running)
    ensures At(Relax(AsWritten, E, Pos(8, 4), [Pos(8, 3)], st), [Entry(19, 21, Pos(2, 2)), Entry(21, 22, Pos(4, 2)), Entry(17, 23, Pos(7, 4))], {Pos(2, 2), Pos(4, 2), Pos(7, 4)}, 23, G21, P21, Running)
  {
    Look20_2();
    RelaxOneKeeps(AsWritten, E, Pos(8, 4), Pos(8, 3), st);
  }

  lemma Turn20(st: State)
    requires At20(st)
    ensures At21(Step(AsWritten, M, S, E, st))
  {
    Pop20();
    Around20();
    StepExpands(AsWritten, M, S, E, st, 0, [Pos(7, 4), Pos(9, 4), Pos(8, 3)]);
    Relax20_0(st.(queue := RemoveAt(st.queue, 0), openSet := st.openSet - {Pos(8, 4)}));
  }

  lemma Relax21_0(st: State)
    requires At(st, [Entry(19, 21, Pos(2, 2)), Entry(21, 22, Pos(4, 2))], {Pos(2, 2), Pos(4, 2)}, 23, G21, P21, Running)
    ensures At(Relax(AsWritten, E, Pos(7, 4), [Pos(6, 4), Pos(8, 4)], st), [Entry(19, 21, Pos(2, 2)), Entry(21, 22, Pos(4, 2)), Entry(17, 24, Pos(6, 4))], {Pos(2, 2), Pos(4, 2), Pos(6, 4)}, 24, G22, P22, Running)
  {
    Look21_0();
    Enqueues(Pos(7, 4), Pos(6, 4), 6, st);
    Relax21_1(RelaxOne(AsWritten, E, Pos(7, 4), Pos(6, 4), st));
  }

  lemma Relax21_1(st: State)
    requires At(st, [Entry(19, 21, Pos(2, 2)), Entry(21, 22, Pos(4, 2)), Entry(17, 24, Pos(6, 4))], {Pos(2, 2), Pos(4, 2), Pos(6, 4)}, 24, G21[Pos(6, 4) := Fin(7)], P21[Pos(6, 4) := Pos(7, 4)], Running)
    ensures At(Relax(AsWritten, E, Pos(7, 4), [Pos(8, 4)], st), [Entry(19, 21, Pos(2, 2)), Entry(21, 22, Pos(4, 2)), Entry(17, 24, Pos(6, 4))], {Pos(2, 2), Pos(4, 2), Pos(6, 4)}, 24, G22, P22, Running)
  {
    Look21_1();
    RelaxOneKeeps(AsWritten, E, Pos(7, 4), Pos(8, 4), st);
  }

  lemma Turn21(st: State)
    requires At21(st)
    ensures At22(Step(AsWritten, M, S, E, st))
  {
    Pop21();
    Around21();
    StepExpands(AsWritten, M, S, E, st, 2, [Pos(6, 4), Pos(8, 4)]);
    Relax21_0(st.(queue := RemoveAt(st.queue, 2), openSet := st.openSet - {Pos(7, 4)}));
  }

  lemma Relax22_0(st: State)
    requires At(st, [Entry(19, 21, Pos(2, 2)), Entry(21, 22, Pos(4, 2))], {Pos(2, 2), Pos(4, 2)}, 24, G22, P22, Running)
    ensures At(Relax(AsWritten, E, Pos(6, 4), [Pos(5, 4), Pos(7, 4)], st), [Entry(19, 21, Pos(2, 2)), Entry(21, 22, Pos(4, 2)), Entry(17, 25, Pos(5, 4))], {Pos(2, 2), Pos(4, 2), Pos(5, 4)}, 25, G23, P23, Running)
  {
    Look22_0();
    Enqueues(Pos(6, 4), Pos(5, 4), 7, st);
    Relax22_1(RelaxOne(AsWritten, E, Pos(6, 4), Pos(5, 4), st));
  }

  lemma Relax22_1(st: State)
    requires At(st, [Entry(19, 21, Pos(2, 2)), Entry(21, 22, Pos(4, 2)), Entry(17, 25, Pos(5, 4))], {Pos(2, 2), Pos(4, 2), Pos(5, 4)}, 25, G22[Pos(5, 4) := Fin(8)], P22[Pos(5, 4) := Pos(6, 4)], Running)
    ensures At(Relax(AsWritten, E, Pos(6, 4), [Pos(7, 4)], st), [Entry(19, 21, Pos(2, 2)), Entry(21, 22, Pos(4, 2)), Entry(17, 25, Pos(5, 4))], {Pos(2, 2), Pos(4, 2), Pos(5, 4)}, 25, G23, P23, Running)
  {
    Look22_1();
    RelaxOneKeeps(AsWritten, E, Pos(6, 4), Pos(7, 4), st);
  }

  lemma Turn22(st: State)
    requires At22(st)
    ensures At23(Step(AsWritten, M, S, E, st))
  {
    Pop22();
    Around22();
    StepExpands(AsWritten, M, S, E, st, 2, [Pos(5, 4), Pos(7, 4)]);
    Relax22_0(st.(queue := RemoveAt(st.queue, 2), openSet := st.openSet - {Pos(6, 4)}));
  }

  lemma Relax23_0(st: State)
    requires At(st, [Entry(19, 21, Pos(2, 2)), Entry(21, 22, Pos(4, 2))], {Pos(2, 2), Pos(4, 2)}, 25, G23, P23, Running)
    ensures At(Relax(AsWritten, E, Pos(5, 4), [Pos(6, 4), Pos(5, 3)], st), [Entry(19, 21, Pos(2, 2)), Entry(21, 22, Pos(4, 2)), Entry(17, 26, Pos(5, 3))], {Pos(2, 2), Pos(4, 2), Pos(5, 3)}, 26, G24, P24, Running)
  {
    Look23_0();
    RelaxOneKeeps(AsWritten, E, Pos(5, 4), Pos(6, 4), st);
    Relax23_1(RelaxOne(AsWritten, E, Pos(5, 4), Pos(6, 4), st));
  }

  lemma Relax23_1(st: State)
    requires At(st, [Entry(19, 21, Pos(2, 2)), Entry(21, 22, Pos(4, 2))], {Pos(2, 2), Pos(4, 2)}, 25, G23, P23, Running)
    ensures At(Relax(AsWritten, E, Pos(5, 4), [Pos(5, 3)], st), [Entry(19, 21, Pos(2, 2)), Entry(21, 22, Pos(4, 2)), Entry(17, 26, Pos(5, 3))], {Pos(2, 2), Pos(4, 2), Pos(5, 3)}, 26, G24, P24, Running)
  {
    Look23_1();
    Enqueues(Pos(5, 4), Pos(5, 3), 8, st);
  }

  lemma Turn23(st: State)
    requires At23(st)
    ensures At24(Step(AsWritten, M, S, E, st))
  {
    Pop23();
    Around23();
    StepExpands(AsWritten, M, S, E, st, 2, [Pos(6, 4), Pos(5, 3)]);
    Relax23_0(st.(queue := RemoveAt(st.queue, 2), openSet := st.openSet - {Pos(5, 4)}));
  }

  lemma Relax24_0(st: State)
    requires At(st, [Entry(19, 21, Pos(2, 2)), Entry(21, 22, Pos(4, 2))], {Pos(2, 2), Pos(4, 2)}, 26, G24, P24, Running)
    ensures At(Relax(AsWritten, E, Pos(5, 3), [Pos(4, 3), Pos(5, 4)], st), [Entry(19, 21, Pos(2, 2)), Entry(21, 22, Pos(4, 2)), Entry(17, 27, Pos(4, 3))], {Pos(2, 2), Pos(4, 2), Pos(4, 3)}, 27, G25, P25, Running)
  {
    Look24_0();
    Enqueues(Pos(5, 3), Pos(4, 3), 9, st);
    Relax24_1(RelaxOne(AsWritten, E, Pos(5, 3), Pos(4, 3), st));
  }

  lemma Relax24_1(st: State)
    requires At(st, [Entry(19, 21, Pos(2, 2)), Entry(21, 22, Pos(4, 2)), Entry(17, 27, Pos(4, 3))], {Pos(2, 2), Pos(4, 2), Pos(4, 3)}, 27, G24[Pos(4, 3) := Fin(10)], P24[Pos(4, 3) := Pos(5, 3)], Running)
    ensures At(Relax(AsWritten, E, Pos(5, 3), [Pos(5, 4)], st), [Entry(19, 21, Pos(2, 2)), Entry(21, 22, Pos(4, 2)), Entry(17, 27, Pos(4, 3))], {Pos(2, 2), Pos(4, 2), Pos(4, 3)}, 27, G25, P25, Running)
  {
    Look24_1();
    RelaxOneKeeps(AsWritten, E, Pos(5, 3), Pos(5, 4), st);
  }

  lemma Turn24(st: State)
    requires At24(st)
    ensures At25(Step(AsWritten, M, S, E, st))
  {
    Pop24();
    Around24();
    StepExpands(AsWritten, M, S, E, st, 2, [Pos(4, 3), Pos(5, 4)]);
    Relax24_0(st.(queue := RemoveAt(st.queue, 2), openSet := st.openSet - {Pos(5, 3)}));
  }

  lemma Relax25_0(st: State)
    requires At(st, [Entry(19, 21, Pos(2, 2)), Entry(21, 22, Pos(4, 2))], {Pos(2, 2), Pos(4, 2)}, 27, G25, P25, Running)
    ensures At(Relax(AsWritten, E, Pos(4, 3), [Pos(5, 3), Pos(4, 2)], st), [Entry(19, 21, Pos(2, 2)), Entry(21, 22, Pos(4, 2))], {Pos(2, 2), Pos(4, 2)}, 27, G26, P26, Running)
  {
    Look25_0();
    RelaxOneKeeps(AsWritten, E, Pos(4, 3), Pos(5, 3), st);
    Relax25_1(RelaxOne(AsWritten, E, Pos(4, 3), Pos(5, 3), st));
  }

  lemma Relax25_1(st: State)
    requires At(st, [Entry(19, 21, Pos(2, 2)), Entry(21, 22, Pos(4, 2))], {Pos(2, 2), Pos(4, 2)}, 27, G25, P25, Running)
    ensures At(Relax(AsWritten, E, Pos(4, 3), [Pos(4, 2)], st), [Entry(19, 21, Pos(2, 2)), Entry(21, 22, Pos(4, 2))], {Pos(2, 2), Pos(4, 2)}, 27, G26, P26, Running)
  {
    Look25_1();
    KeepsEntry(Pos(4, 3), Pos(4, 2), 10, st);
  }

  lemma Turn25(st: State)
    requires At25(st)
    ensures At26(Step(AsWritten, M, S, E, st))
  {
    Pop25();
    Around25();
    StepExpands(AsWritten, M, S, E, st, 2, [Pos(5, 3), Pos(4, 2)]);
    Relax25_0(st.(queue := RemoveAt(st.queue, 2), openSet := st.openSet - {Pos(4, 3)}));
  }

  lemma Relax26_0(st: State)
    requires At(st, [Entry(21, 22, Pos(4, 2))], {Pos(4, 2)}, 27, G26, P26, Running)
    ensures At(Relax(AsWritten, E, Pos(2, 2), [Pos(1, 2), Pos(3, 2)], st), [Entry(21, 22, Pos(4, 2)), Entry(19, 28, Pos(1, 2))], {Pos(1, 2), Pos(4, 2)}, 28, G27, P27, Running)
  {
    Look26_0();
    Enqueues(Pos(2, 2), Pos(1, 2), 15, st);
    Relax26_1(RelaxOne(AsWritten, E, Pos(2, 2), Pos(1, 2), st));
  }

  lemma Relax26_1(st: State)
    requires At(st, [Entry(21, 22, Pos(4, 2)), Entry(19, 28, Pos(1, 2))], {Pos(1, 2), Pos(4, 2)}, 28, G26[Pos(1, 2) := Fin(16)], P26[Pos(1, 2) := Pos(2, 2)], Running)
    ensures At(Relax(AsWritten, E, Pos(2, 2), [Pos(3, 2)], st), [Entry(21, 22, Pos(4, 2)), Entry(19, 28, Pos(1, 2))], {Pos(1, 2), Pos(4, 2)}, 28, G27, P27, Running)
  {
    Look26_1();
    RelaxOneKeeps(AsWritten, E, Pos(2, 2), Pos(3, 2), st);
  }

  lemma Turn26(st: State)
    requires At26(st)
    ensures At27(Step(AsWritten, M, S, E, st))
  {
    Pop26();
    Around26();
    StepExpands(AsWritten, M, S, E, st, 0, [Pos(1, 2), Pos(3, 2)]);
    Relax26_0(st.(queue := RemoveAt(st.queue, 0), openSet := st.openSet - {Pos(2, 2)}));
  }

  lemma Relax27_0(st: State)
    requires At(st, [Entry(21, 22, Pos(4, 2))], {Pos(4, 2)}, 28, G27, P27, Running)
    ensures At(Relax(AsWritten, E, Pos(1, 2), [Pos(0, 2), Pos(2, 2)], st), [Entry(21, 22, Pos(4, 2)), Entry(19, 29, Pos(0, 2))], {Pos(0, 2), Pos(4, 2)}, 29, G28, P28, Running)
  {
    Look27_0();
    Enqueues(Pos(1, 2), Pos(0, 2), 16, st);
    Relax27_1(RelaxOne(AsWritten, E, Pos(1, 2), Pos(0, 2), st));
  }

  lemma Relax27_1(st: State)
    requires At(st, [Entry(21, 22, Pos(4, 2)), Entry(19, 29, Pos(0, 2))], {Pos(0, 2), Pos(4, 2)}, 29, G27[Pos(0, 2) := Fin(17)], P27[Pos(0, 2) := Pos(1, 2)], Running)
    ensures At(Relax(AsWritten, E, Pos(1, 2), [Pos(2, 2)], st), [Entry(21, 22, Pos(4, 2)), Entry(19, 29, Pos(0, 2))], {Pos(0, 2), Pos(4, 2)}, 29, G28, P28, Running)
  {
    Look27_1();
    RelaxOneKeeps(AsWritten, E, Pos(1, 2), Pos(2, 2), st);
  }

  lemma Turn27(st: State)
    requires At27(st)
    ensures At28(Step(AsWritten, M, S, E, st))
  {
    Pop27();
    Around27();
    StepExpands(AsWritten, M, S, E, st, 1, [Pos(0, 2), Pos(2, 2)]);
    Relax27_0(st.(queue := RemoveAt(st.queue, 1), openSet := st.openSet - {Pos(1, 2)}));
  }

  lemma Relax28_0(st: State)
    requires At(st, [Entry(21, 22, Pos(4, 2))], {Pos(4, 2)}, 29, G28, P28, Running)
    ensures At(Relax(AsWritten, E, Pos(0, 2), [Pos(1, 2), Pos(0, 1)], st), [Entry(21, 22, Pos(4, 2)), Entry(19, 30, Pos(0, 1))], {Pos(0, 1), Pos(4, 2)}, 30, G29, P29, Running)
  {
    Look28_0();
    RelaxOneKeeps(AsWritten, E, Pos(0, 2), Pos(1, 2), st);
    Relax28_1(RelaxOne(AsWritten, E, Pos(0, 2), Pos(1, 2), st));
  }

  lemma Relax28_1(st: State)
    requires At(st, [Entry(21, 22, Pos(4, 2))], {Pos(4, 2)}, 29, G28, P28, Running)
    ensures At(Relax(AsWritten, E, Pos(0, 2), [Pos(0, 1)], st), [Entry(21, 22, Pos(4, 2)), Entry(19, 30, Pos(0, 1))], {Pos(0, 1), Pos(4, 2)}, 30, G29, P29, Running)
  {
    Look28_1();
    Enqueues(Pos(0, 2), Pos(0, 1), 17, st);
  }

  lemma Turn28(st: State)
    requires At28(st)
    ensures At29(Step(AsWritten, M, S, E, st))
  {
    Pop28();
    Around28();
    StepExpands(AsWritten, M, S, E, st, 1, [Pos(1, 2), Pos(0, 1)]);
    Relax28_0(st.(queue := RemoveAt(st.queue, 1), openSet := st.openSet - {Pos(0, 2)}));
  }

  lemma Relax29_0(st: State)
    requires At(st, [Entry(21, 22, Pos(4, 2))], {Pos(4, 2)}, 30, G29, P29, Running)
    ensures At(Relax(AsWritten, E, Pos(0, 1), [Pos(0, 2), Pos(0, 0)], st), [Entry(21, 22, Pos(4, 2)), Entry(19, 31, Pos(0, 0))], {Pos(0, 0), Pos(4, 2)}, 31, G30, P30, Running)
  {
    Look29_0();
    RelaxOneKeeps(AsWritten, E, Pos(0, 1), Pos(0, 2), st);
    Relax29_1(RelaxOne(AsWritten, E, Pos(0, 1), Pos(0, 2), st));
  }

  lemma Relax29_1(st: State)
    requires At(st, [Entry(21, 22, Pos(4, 2))], {Pos(4, 2)}, 30, G29, P29, Running)
    ensures At(Relax(AsWritten, E, Pos(0, 1), [Pos(0, 0)], st), [Entry(21, 22, Pos(4, 2)), Entry(19, 31, Pos(0, 0))], {Pos(0, 0), Pos(4, 2)}, 31, G30, P30, Running)
  {
    Look29_1();
    Enqueues(Pos(0, 1), Pos(0, 0), 18, st);
  }

  lemma Turn29(st: State)
    requires At29(st)
    ensures At30(Step(AsWritten, M, S, E, st))
  {
    Pop29();
    Around29();
    StepExpands(AsWritten, M, S, E, st, 1, [Pos(0, 2), Pos(0, 0)]);
    Relax29_0(st.(queue := RemoveAt(st.queue, 1), openSet := st.openSet - {Pos(0, 1)}));
  }

  /** Turn 30 pops `end`. */
  lemma Turn30(st: State)
    requires At30(st)
    ensures At31(Step(AsWritten, M, S, E, st))
  {
    MinIndexUnique(st.queue, 1);
  }

  lemma RunFrom31(st: State)
    requires Inv(AsWritten, M, S, E, st) && At31(st)
    ensures At31(Run(AsWritten, M, S, E, st))
  {
    RunStops(AsWritten, M, S, E, st);
  }

  lemma RunFrom30(st: State)
    requires Inv(AsWritten, M, S, E, st) && At30(st)
    ensures At31(Run(AsWritten, M, S, E, st))
  {
    Turn30(st);
    StepInv(AsWritten, M, S, E, st);
    RunFrom31(Step(AsWritten, M, S, E, st));
  }

  lemma RunFrom29(st: State)
    requires Inv(AsWritten, M, S, E, st) && At29(st)
    ensures At31(Run(AsWritten, M, S, E, st))
  {
    Turn29(st);
    StepInv(AsWritten, M, S, E, st);
    RunFrom30(Step(AsWritten, M, S, E, st));
  }

  lemma RunFrom28(st: State)
    requires Inv(AsWritten, M, S, E, st) && At28(st)
    ensures At31(Run(AsWritten, M, S, E, st))
  {
    Turn28(st);
    StepInv(AsWritten, M, S, E, st);
    RunFrom29(Step(AsWritten, M, S, E, st));
  }

  lemma RunFrom27(st: State)
    requires Inv(AsWritten, M, S, E, st) && At27(st)
    ensures At31(Run(AsWritten, M, S, E, st))
  {
    Turn27(st);
    StepInv(AsWritten, M, S, E, st);
    RunFrom28(Step(AsWritten, M, S, E, st));
  }

  lemma RunFrom26(st: State)
    requires Inv(AsWritten, M, S, E, st) && At26(st)
    ensures At31(Run(AsWritten, M, S, E, st))
  {
    Turn26(st);
    StepInv(AsWritten, M, S, E, st);
    RunFrom27(Step(AsWritten, M, S, E, st));
  }

  lemma RunFrom25(st: State)
    requires Inv(AsWritten, M, S, E, st) && At25(st)
    ensures At31(Run(AsWritten, M, S, E, st))
  {
    Turn25(st);
    StepInv(AsWritten, M, S, E, st);
    RunFrom26(Step(AsWritten, M, S, E, st));
  }

  lemma RunFrom24(st: State)
    requires Inv(AsWritten, M, S, E, st) && At24(st)
    ensures At31(Run(AsWritten, M, S, E, st))
  {
    Turn24(st);
    StepInv(AsWritten, M, S, E, st);
    RunFrom25(Step(AsWritten, M, S, E, st));
  }

  lemma RunFrom23(st: State)
    requires Inv(AsWritten, M, S, E, st) && At23(st)
    ensures At31(Run(AsWritten, M, S, E, st))
  {
    Turn23(st);
    StepInv(AsWritten, M, S, E, st);
    RunFrom24(Step(AsWritten, M, S, E, st));
  }

  lemma RunFrom22(st: State)
    requires Inv(AsWritten, M, S, E, st) && At22(st)
    ensures At31(Run(AsWritten, M, S, E, st))
  {
    Turn22(st);
    StepInv(AsWritten, M, S, E, st);
    RunFrom23(Step(AsWritten, M, S, E, st));
  }

  lemma RunFrom21(st: State)
    requires Inv(AsWritten, M, S, E, st) && At21(st)
    ensures At31(Run(AsWritten, M, S, E, st))
  {
    Turn21(st);
    StepInv(AsWritten, M, S, E, st);
    RunFrom22(Step(AsWritten, M, S, E, st));
  }

  lemma RunFrom20(st: State)
    requires Inv(AsWritten, M, S, E, st) && At20(st)
    ensures At31(Run(AsWritten, M, S, E, st))
  {
    Turn20(st);
    StepInv(AsWritten, M, S, E, st);
    RunFrom21(Step(AsWritten, M, S, E, st));
  }

  lemma RunFrom19(st: State)
    requires Inv(AsWritten, M, S, E, st) && At19(st)
    ensures At31(Run(AsWritten, M, S, E, st))
  {
    Turn19(st);
    StepInv(AsWritten, M, S, E, st);
    RunFrom20(Step(AsWritten, M, S, E, st));
  }

  lemma RunFrom18(st: State)
    requires Inv(AsWritten, M, S, E, st) && At18(st)
    ensures At31(Run(AsWritten, M, S, E, st))
  {
    Turn18(st);
    StepInv(AsWritten, M, S, E, st);
    RunFrom19(Step(AsWritten, M, S, E, st));
  }

  lemma RunFrom17(st: State)
    requires Inv(AsWritten, M, S, E, st) && At17(st)
    ensures At31(Run(AsWritten, M, S, E, st))
  {
    Turn17(st);
    StepInv(AsWritten, M, S, E, st);
    RunFrom18(Step(AsWritten, M, S, E, st));
  }

  lemma RunFrom16(st: State)
    requires Inv(AsWritten, M, S, E, st) && At16(st)
    ensures At31(Run(AsWritten, M, S, E, st))
  {
    Turn16(st);
    StepInv(AsWritten, M, S, E, st);
    RunFrom17(Step(AsWritten, M, S, E, st));
  }

  lemma RunFrom15(st: State)
    requires Inv(AsWritten, M, S, E, st) && At15(st)
    ensures At31(Run(AsWritten, M, S, E, st))
  {
    Turn15(st);
    StepInv(AsWritten, M, S, E, st);
    RunFrom16(Step(AsWritten, M, S, E, st));
  }

  lemma RunFrom14(st: State)
    requires Inv(AsWritten, M, S, E, st) && At14(st)
    ensures At31(Run(AsWritten, M, S, E, st))
  {
    Turn14(st);
    StepInv(AsWritten, M, S, E, st);
    RunFrom15(Step(AsWritten, M, S, E, st));
  }

  lemma RunFrom13(st: State)
    requires Inv(AsWritten, M, S, E, st) && At13(st)
    ensures At31(Run(AsWritten, M, S, E, st))
  {
    Turn13(st);
    StepInv(AsWritten, M, S, E, st);
    RunFrom14(Step(AsWritten, M, S, E, st));
  }

  lemma RunFrom12(st: State)
    requires Inv(AsWritten, M, S, E, st) && At12(st)
    ensures At31(Run(AsWritten, M, S, E, st))
  {
    Turn12(st);
    StepInv(AsWritten, M, S, E, st);
    RunFrom13(Step(AsWritten, M, S, E, st));
  }

  lemma RunFrom11(st: State)
    requires Inv(AsWritten, M, S, E, st) && At11(st)
    ensures At31(Run(AsWritten, M, S, E, st))
  {
    Turn11(st);
    StepInv(AsWritten, M, S, E, st);
    RunFrom12(Step(AsWritten, M, S, E, st));
  }

  lemma RunFrom10(st: State)
    requires Inv(AsWritten, M, S, E, st) && At10(st)
    ensures At31(Run(AsWritten, M, S, E, st))
  {
    Turn10(st);
    StepInv(AsWritten, M, S, E, st);
    RunFrom11(Step(AsWritten, M, S, E, st));
  }

  lemma RunFrom9(st: State)
    requires Inv(AsWritten, M, S, E, st) && At9(st)
    ensures At31(Run(AsWritten, M, S, E, st))
  {
    Turn9(st);
    StepInv(AsWritten, M, S, E, st);
    RunFrom10(Step(AsWritten, M, S, E, st));
  }

  lemma RunFrom8(st: State)
    requires Inv(AsWritten, M, S, E, st) && At8(st)
    ensures At31(Run(AsWritten, M, S, E, st))
  {
    Turn8(st);
    StepInv(AsWritten, M, S, E, st);
    RunFrom9(Step(AsWritten, M, S, E, st));
  }

  lemma RunFrom7(st: State)
    requires Inv(AsWritten, M, S, E, st) && At7(st)
    ensures At31(Run(AsWritten, M, S, E, st))
  {
    Turn7(st);
    StepInv(AsWritten, M, S, E, st);
    RunFrom8(Step(AsWritten, M, S, E, st));
  }

  lemma RunFrom6(st: State)
    requires Inv(AsWritten, M, S, E, st) && At6(st)
    ensures At31(Run(AsWritten, M, S, E, st))
  {
    Turn6(st);
    StepInv(AsWritten, M, S, E, st);
    RunFrom7(Step(AsWritten, M, S, E, st));
  }

  lemma RunFrom5(st: State)
    requires Inv(AsWritten, M, S, E, st) && At5(st)
    ensures At31(Run(AsWritten, M, S, E, st))
  {
    Turn5(st);
    StepInv(AsWritten, M, S, E, st);
    RunFrom6(Step(AsWritten, M, S, E, st));
  }

  lemma RunFrom4(st: State)
    requires Inv(AsWritten, M, S, E, st) && At4(st)
    ensures At31(Run(AsWritten, M, S, E, st))
  {
    Turn4(st);
    StepInv(AsWritten, M, S, E, st);
    RunFrom5(Step(AsWritten, M, S, E, st));
  }

  lemma RunFrom3(st: State)
    requires Inv(AsWritten, M, S, E, st) && At3(st)
    ensures At31(Run(AsWritten, M, S, E, st))
  {
    Turn3(st);
    StepInv(AsWritten, M, S, E, st);
    RunFrom4(Step(AsWritten, M, S, E, st));
  }

  lemma RunFrom2(st: State)
    requires Inv(AsWritten, M, S, E, st) && At2(st)
    ensures At31(Run(AsWritten, M, S, E, st))
  {
    Turn2(st);
    StepInv(AsWritten, M, S, E, st);
    RunFrom3(Step(AsWritten, M, S, E, st));
  }

  lemma RunFrom1(st: State)
    requires Inv(AsWritten, M, S, E, st) && At1(st)
    ensures At31(Run(AsWritten, M, S, E, st))
  {
    Turn1(st);
    StepInv(AsWritten, M, S, E, st);
    RunFrom2(Step(AsWritten, M, S, E, st));
  }

  lemma RunFrom0(st: State)
    requires Inv(AsWritten, M, S, E, st) && At0(st)
    ensures At31(Run(AsWritten, M, S, E, st))
  {
    Turn0(st);
    StepInv(AsWritten, M, S, E, st);
    RunFrom1(Step(AsWritten, M, S, E, st));
  }

  lemma Back0(prev: map<Pos, Pos>, g: map<Pos, Score>)
    requires prev == P31 && g == G31 && Ranked(prev, g)
    ensures Pos(12, 3) in g && g[Pos(12, 3)].Fin? && Chain(prev, g, Pos(12, 3)) == [Pos(12, 3)]
  {
    Link0();
  }

  lemma Back1(prev: map<Pos, Pos>, g: map<Pos, Score>)
    requires prev == P31 && g == G31 && Ranked(prev, g)
    ensures Pos(11, 3) in g && g[Pos(11, 3)].Fin? && Chain(prev, g, Pos(11, 3)) == [Pos(12, 3), Pos(11, 3)]
  {
    Back0(prev, g);
    Link1();
  }

  lemma Back2(prev: map<Pos, Pos>, g: map<Pos, Score>)
    requires prev == P31 && g == G31 && Ranked(prev, g)
    ensures Pos(11, 2) in g && g[Pos(11, 2)].Fin? && Chain(prev, g, Pos(11, 2)) == [Pos(12, 3), Pos(11, 3), Pos(11, 2)]
  {
    Back1(prev, g);
    Link2();
  }

  lemma Back3(prev: map<Pos, Pos>, g: map<Pos, Score>)
    requires prev == P31 && g == G31 && Ranked(prev, g)
    ensures Pos(10, 2) in g && g[Pos(10, 2)].Fin? && Chain(prev, g, Pos(10, 2)) == [Pos(12, 3), Pos(11, 3), Pos(11, 2), Pos(10, 2)]
  {
    Back2(prev, g);
    Link3();
  }

  lemma Back4(prev: map<Pos, Pos>, g: map<Pos, Score>)
    requires prev == P31 && g == G31 && Ranked(prev, g)
    ensures Pos(9, 2) in g && g[Pos(9, 2)].Fin? && Chain(prev, g, Pos(9, 2)) == [Pos(12, 3), Pos(11, 3), Pos(11, 2), Pos(10, 2), Pos(9, 2)]
  {
    Back3(prev, g);
    Link4();
  }

  lemma Back5(prev: map<Pos, Pos>, g: map<Pos, Score>)
    requires prev == P31 && g == G31 && Ranked(prev, g)
    ensures Pos(9, 1) in g && g[Pos(9, 1)].Fin? && Chain(prev, g, Pos(9, 1)) == [Pos(12, 3), Pos(11, 3), Pos(11, 2), Pos(10, 2), Pos(9, 2), Pos(9, 1)]
  {
    Back4(prev, g);
    Link5();
  }

  lemma Back6(prev: map<Pos, Pos>, g: map<Pos, Score>)
    requires prev == P31 && g == G31 && Ranked(prev, g)
    ensures Pos(8, 1) in g && g[Pos(8, 1)].Fin? && Chain(prev, g, Pos(8, 1)) == [Pos(12, 3), Pos(11, 3), Pos(11, 2), Pos(10, 2), Pos(9, 2), Pos(9, 1), Pos(8, 1)]
  {
    Back5(prev, g);
    Link6();
  }

  lemma Back7(prev: map<Pos, Pos>, g: map<Pos, Score>)
    requires prev == P31 && g == G31 && Ranked(prev, g)
    ensures Pos(7, 1) in g && g[Pos(7, 1)].Fin? && Chain(prev, g, Pos(7, 1)) == [Pos(12, 3), Pos(11, 3), Pos(11, 2), Pos(10, 2), Pos(9, 2), Pos(9, 1), Pos(8, 1), Pos(7, 1)]
  {
    Back6(prev, g);
    Link7();
  }

  lemma Back8(prev: map<Pos, Pos>, g: map<Pos, Score>)
    requires prev == P31 && g == G31 && Ranked(prev, g)
    ensures Pos(6, 1) in g && g[Pos(6, 1)].Fin? && Chain(prev, g, Pos(6, 1)) == [Pos(12, 3), Pos(11, 3), Pos(11, 2), Pos(10, 2), Pos(9, 2), Pos(9, 1), Pos(8, 1), Pos(7, 1), Pos(6, 1)]
  {
    Back7(prev, g);
    Link8();
  }

  lemma Back9(prev: map<Pos, Pos>, g: map<Pos, Score>)
    requires prev == P31 && g == G31 && Ranked(prev, g)
    ensures Pos(5, 1) in g && g[Pos(5, 1)].Fin? && Chain(prev, g, Pos(5, 1)) == [Pos(12, 3), Pos(11, 3), Pos(11, 2), Pos(10, 2), Pos(9, 2), Pos(9, 1), Pos(8, 1), Pos(7, 1), Pos(6, 1), Pos(5, 1)]
  {
    Back8(prev, g);
    Link9();
  }

  lemma Back10(prev: map<Pos, Pos>, g: map<Pos, Score>)
    requires prev == P31 && g == G31 && Ranked(prev, g)
    ensures Pos(5, 0) in g && g[Pos(5, 0)].Fin? && Chain(prev, g, Pos(5, 0)) == [Pos(12, 3), Pos(11, 3), Pos(11, 2), Pos(10, 2), Pos(9, 2), Pos(9, 1), Pos(8, 1), Pos(7, 1), Pos(6, 1), Pos(5, 1), Pos(5, 0)]
  {
    Back9(prev, g);
    Link10();
  }

  lemma Back11(prev: map<Pos, Pos>, g: map<Pos, Score>)
    requires prev == P31 && g == G31 && Ranked(prev, g)
    ensures Pos(4, 0) in g && g[Pos(4, 0)].Fin? && Chain(prev, g, Pos(4, 0)) == [Pos(12, 3), Pos(11, 3), Pos(11, 2), Pos(10, 2), Pos(9, 2), Pos(9, 1), Pos(8, 1), Pos(7, 1), Pos(6, 1), Pos(5, 1), Pos(5, 0), Pos(4, 0)]
  {
    Back10(prev, g);
    Link11();
  }

  lemma Back12(prev: map<Pos, Pos>, g: map<Pos, Score>)
    requires prev == P31 && g == G31 && Ranked(prev, g)
    ensures Pos(3, 0) in g && g[Pos(3, 0)].Fin? && Chain(prev, g, Pos(3, 0)) == [Pos(12, 3), Pos(11, 3), Pos(11, 2), Pos(10, 2), Pos(9, 2), Pos(9, 1), Pos(8, 1), Pos(7, 1), Pos(6, 1), Pos(5, 1), Pos(5, 0), Pos(4, 0), Pos(3, 0)]
  {
    Back11(prev, g);
    Link12();
  }

  lemma Back13(prev: map<Pos, Pos>, g: map<Pos, Score>)
    requires prev == P31 && g == G31 && Ranked(prev, g)
    ensures Pos(3, 1) in g && g[Pos(3, 1)].Fin? && Chain(prev, g, Pos(3, 1)) == [Pos(12, 3), Pos(11, 3), Pos(11, 2), Pos(10, 2), Pos(9, 2), Pos(9, 1), Pos(8, 1), Pos(7, 1), Pos(6, 1), Pos(5, 1), Pos(5, 0), Pos(4, 0), Pos(3, 0), Pos(3, 1)]
  {
    Back12(prev, g);
    Link13();
  }

  lemma Back14(prev: map<Pos, Pos>, g: map<Pos, Score>)
    requires prev == P31 && g == G31 && Ranked(prev, g)
    ensures Pos(3, 2) in g && g[Pos(3, 2)].Fin? && Chain(prev, g, Pos(3, 2)) == [Pos(12, 3), Pos(11, 3), Pos(11, 2), Pos(10, 2), Pos(9, 2), Pos(9, 1), Pos(8, 1), Pos(7, 1), Pos(6, 1), Pos(5, 1), Pos(5, 0), Pos(4, 0), Pos(3, 0), Pos(3, 1), Pos(3, 2)]
  {
    Back13(prev, g);
    Link14();
  }

  lemma Back15(prev: map<Pos, Pos>, g: map<Pos, Score>)
    requires prev == P31 && g == G31 && Ranked(prev, g)
    ensures Pos(2, 2) in g && g[Pos(2, 2)].Fin? && Chain(prev, g, Pos(2, 2)) == [Pos(12, 3), Pos(11, 3), Pos(11, 2), Pos(10, 2), Pos(9, 2), Pos(9, 1), Pos(8, 1), Pos(7, 1), Pos(6, 1), Pos(5, 1), Pos(5, 0), Pos(4, 0), Pos(3, 0), Pos(3, 1), Pos(3, 2), Pos(2, 2)]
  {
    Back14(prev, g);
    Link15();
  }

  lemma Back16(prev: map<Pos, Pos>, g: map<Pos, Score>)
    requires prev == P31 && g == G31 && Ranked(prev, g)
    ensures Pos(1, 2) in g && g[Pos(1, 2)].Fin? && Chain(prev, g, Pos(1, 2)) == [Pos(12, 3), Pos(11, 3), Pos(11, 2), Pos(10, 2), Pos(9, 2), Pos(9, 1), Pos(8, 1), Pos(7, 1), Pos(6, 1), Pos(5, 1), Pos(5, 0), Pos(4, 0), Pos(3, 0), Pos(3, 1), Pos(3, 2), Pos(2, 2), Pos(1, 2)]
  {
    Back15(prev, g);
    Link16();
  }

  lemma Back17(prev: map<Pos, Pos>, g: map<Pos, Score>)
    requires prev == P31 && g == G31 && Ranked(prev, g)
    ensures Pos(0, 2) in g && g[Pos(0, 2)].Fin? && Chain(prev, g, Pos(0, 2)) == [Pos(12, 3), Pos(11, 3), Pos(11, 2), Pos(10, 2), Pos(9, 2), Pos(9, 1), Pos(8, 1), Pos(7, 1), Pos(6, 1), Pos(5, 1), Pos(5, 0), Pos(4, 0), Pos(3, 0), Pos(3, 1), Pos(3, 2), Pos(2, 2), Pos(1, 2), Pos(0, 2)]
  {
    Back16(prev, g);
    Link17();
  }

  lemma Back18(prev: map<Pos, Pos>, g: map<Pos, Score>)
    requires prev == P31 && g == G31 && Ranked(prev, g)
    ensures Pos(0, 1) in g && g[Pos(0, 1)].Fin? && Chain(prev, g, Pos(0, 1)) == [Pos(12, 3), Pos(11, 3), Pos(11, 2), Pos(10, 2), Pos(9, 2), Pos(9, 1), Pos(8, 1), Pos(7, 1), Pos(6, 1), Pos(5, 1), Pos(5, 0), Pos(4, 0), Pos(3, 0), Pos(3, 1), Pos(3, 2), Pos(2, 2), Pos(1, 2), Pos(0, 2), Pos(0, 1)]
  {
    Back17(prev, g);
    Link18();
  }

  lemma Back19(prev: map<Pos, Pos>, g: map<Pos, Score>)
    requires prev == P31 && g == G31 && Ranked(prev, g)
    ensures Pos(0, 0) in g && g[Pos(0, 0)].Fin? && Chain(prev, g, Pos(0, 0)) == [Pos(12, 3), Pos(11, 3), Pos(11, 2), Pos(10, 2), Pos(9, 2), Pos(9, 1), Pos(8, 1), Pos(7, 1), Pos(6, 1), Pos(5, 1), Pos(5, 0), Pos(4, 0), Pos(3, 0), Pos(3, 1), Pos(3, 2), Pos(2, 2), Pos(1, 2), Pos(0, 2), Pos(0, 1), Pos(0, 0)]
  {
    Back18(prev, g);
    Link19();
  }

  /** On this maze `astar` as written returns True with `g_score[end]` = 19
      and highlights a 19-step path, while a 17-step walk exists. */
  lemma AsWrittenNotShortest()
    ensures Setting(M, S, E)
    ensures var r := Search(AsWritten, M, S, E, {}, {});
      r.status == Found && r.g[E] == Fin(19) &&
      Chain(r.prev, r.g, E) == Drawn && |Drawn| - 1 == 19 &&
      WalkFrom(M, W, S, E) && |W| - 1 == 17 && !NoShorterWalk(M, S, E, r.g[E].n)
  {
    MazeSetting();
    InitInv(AsWritten, M, S, E, {}, {});
    var st := Init(M, S, E, {}, {});
    assert At0(st);
    RunFrom0(st);
    var r := Search(AsWritten, M, S, E, {}, {});
    Back19(r.prev, r.g);
    ShortWalk();
  }
}
