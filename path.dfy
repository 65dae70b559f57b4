/** The predecessor chain `backtrack_path` follows, and what the search's
    result means: `astar` returns True exactly when `end` is reachable, the
    chain is then a walk from `start` to `end`, and under the decrease-key
    correction it is a shortest one. */
module Path {
  import opened Grid
  import opened SearchLoop
  import opened Links

  /** The cells `backtrack_path` passes through from `x` back to the first
      cell without a predecessor, listed from that cell forward to `x`. */
  function Chain(prev: map<Pos, Pos>, g: map<Pos, Score>, x: Pos): (c: seq<Pos>)
    requires Ranked(prev, g) && x in g && g[x].Fin?
    ensures |c| > 0 && c[|c| - 1] == x && c[0] !in prev
    decreases g[x].n
  {
    if x in prev then Chain(prev, g, prev[x]) + [x] else [x]
  }

  /** Each cell of the chain is the predecessor of the next one, scores
      rise strictly along it, and it is no longer than the score drop. */
  lemma {:induction false} ChainLinks(prev: map<Pos, Pos>, g: map<Pos, Score>, x: Pos)
    requires Ranked(prev, g) && x in g && g[x].Fin?
    ensures var c := Chain(prev, g, x);
      (forall i :: 0 <= i < |c| ==> c[i] in g && g[c[i]].Fin?) &&
      (forall i :: 1 <= i < |c| ==> c[i] in prev && prev[c[i]] == c[i - 1]) &&
      (forall i, j :: 0 <= i < j < |c| ==> g[c[i]].n < g[c[j]].n) &&
      |c| - 1 <= g[x].n - g[c[0]].n
    decreases g[x].n
  {
    if x in prev {
      ChainLinks(prev, g, prev[x]);
      var c0 := Chain(prev, g, prev[x]);
      var c := c0 + [x];
      forall i | 1 <= i < |c|
        ensures c[i] in prev && prev[c[i]] == c[i - 1]
      {
        if i < |c0| {
          assert c[i] == c0[i] && c[i - 1] == c0[i - 1];
        }
      }
      forall i, j | 0 <= i < j < |c|
        ensures g[c[i]].n < g[c[j]].n
      {
        assert c[i] == c0[i];
        if j < |c0| {
          assert c[j] == c0[j];
        } else {
          assert g[c0[i]].n <= g[c0[|c0| - 1]].n;
        }
      }
    }
  }

  /** No cell appears twice on the chain: it is acyclic. */
  lemma ChainDistinct(prev: map<Pos, Pos>, g: map<Pos, Score>, x: Pos)
    requires Ranked(prev, g) && x in g && g[x].Fin?
    ensures var c := Chain(prev, g, x);
      forall i, j :: 0 <= i < j < |c| ==> c[i] != c[j]
  {
    ChainLinks(prev, g, x);
  }

  /** With the search's invariant, the chain from a reached cell starts at
      `start` and is a walk through the neighbour lists. */
  lemma ChainIsWalk(m: Matrix, s: Pos, e: Pos, st: State, x: Pos)
    requires Setting(m, s, e) && ScoresOk(m, s, e, st.g, st.f, st.openSet) && PrevOk(m, s, st.prev, st.g)
    requires x in st.g && st.g[x].Fin?
    ensures WalkFrom(m, Chain(st.prev, st.g, x), s, x)
    ensures |Chain(st.prev, st.g, x)| - 1 <= st.g[x].n
  {
    var c := Chain(st.prev, st.g, x);
    ChainLinks(st.prev, st.g, x);
    assert c[0] == s;
    forall i | 0 <= i < |c| - 1
      ensures c[i + 1] in Neighbors(m, c[i])
    {
      assert st.prev[c[i + 1]] == c[i];
    }
  }

  // ----- what `astar` returns -----

  /** `astar` returns True exactly when `end` can be reached from `start`
      through the neighbour lists, under either policy. */
  lemma SearchFindsIffReachable(pol: Policy, m: Matrix, s: Pos, e: Pos, inQ0: set<Pos>, outQ0: set<Pos>)
    requires Setting(m, s, e)
    ensures Search(pol, m, s, e, inQ0, outQ0).status == Found <==> Reachable(m, s, e)
    ensures Search(pol, m, s, e, inQ0, outQ0).status == Exhausted <==> !Reachable(m, s, e)
  {
    var r := Search(pol, m, s, e, inQ0, outQ0);
    if r.status == Found {
      ChainIsWalk(m, s, e, r, e);
    } else if Reachable(m, s, e) {
      var w :| WalkFrom(m, w, s, e);
      ReachableKeepsOpen(m, s, e, r, w);
    }
  }

  /** Along a tight chain the length is exactly the score drop. */
  lemma {:induction false} ChainExact(prev: map<Pos, Pos>, g: map<Pos, Score>, x: Pos)
    requires Ranked(prev, g) && x in g && g[x].Fin? && TightChain(prev, g, x)
    ensures var c := Chain(prev, g, x); c[0] in g && g[c[0]].Fin? && |c| - 1 == g[x].n - g[c[0]].n
    decreases g[x].n
  {
    if x in prev {
      ChainExact(prev, g, prev[x]);
    }
  }

  /** On True the chain from `end` is a walk from `start` to `end` of
      exactly `g_score[end]` steps, under either policy. */
  lemma FoundPathIsWalk(pol: Policy, m: Matrix, s: Pos, e: Pos, inQ0: set<Pos>, outQ0: set<Pos>)
    requires Setting(m, s, e)
    requires Search(pol, m, s, e, inQ0, outQ0).status == Found
    ensures var r := Search(pol, m, s, e, inQ0, outQ0);
      WalkFrom(m, Chain(r.prev, r.g, e), s, e) && |Chain(r.prev, r.g, e)| - 1 == r.g[e].n
  {
    var r := Search(pol, m, s, e, inQ0, outQ0);
    ChainIsWalk(m, s, e, r, e);
    SearchSound(pol, m, s, e, inQ0, outQ0);
    ChainExact(r.prev, r.g, e);
  }

  /** With the decrease-key correction, on True the chain has exactly
      `g_score[end]` steps and no walk from `start` to `end` is shorter. */
  lemma CorrectedPathIsShortest(m: Matrix, s: Pos, e: Pos, inQ0: set<Pos>, outQ0: set<Pos>)
    requires Setting(m, s, e)
    requires Search(DecreaseKey, m, s, e, inQ0, outQ0).status == Found
    ensures var r := Search(DecreaseKey, m, s, e, inQ0, outQ0);
      var c := Chain(r.prev, r.g, e);
      WalkFrom(m, c, s, e) && |c| - 1 == r.g[e].n &&
      forall w :: WalkFrom(m, w, s, e) ==> |c| <= |w|
  {
    var r := Search(DecreaseKey, m, s, e, inQ0, outQ0);
    ChainIsWalk(m, s, e, r, e);
  }
}
