/** Runs of a step function: any number of steps, in any order. */
module Runs {

  function Run<W, M>(exec: (W, M) -> W, w: W, moves: seq<M>): W {
    if moves == [] then w
    else exec(Run(exec, w, moves[..|moves| - 1]), moves[|moves| - 1])
  }

  lemma {:induction false} RunSplits<W, M>(exec: (W, M) -> W, w: W, first: seq<M>, second: seq<M>)
    ensures Run(exec, w, first + second) == Run(exec, Run(exec, w, first), second)
    decreases |second|
  {
    if second == [] {
      assert first + second == first;
    } else {
      assert (first + second)[..|first + second| - 1] == first + second[..|second| - 1];
      RunSplits(exec, w, first, second[..|second| - 1]);
    }
  }

  lemma RunMore<W, M>(exec: (W, M) -> W, w: W, moves: seq<M>, m: M)
    ensures Run(exec, w, moves + [m]) == exec(Run(exec, w, moves), m)
  {
    assert (moves + [m])[..|moves|] == moves;
  }

  lemma RunShort<W, M>(exec: (W, M) -> W, w: W, a: M, b: M)
    ensures Run(exec, w, [a]) == exec(w, a)
    ensures Run(exec, w, [a, b]) == exec(exec(w, a), b)
  {
    assert [a][..0] == [] && [a, b][..1] == [a];
    assert Run(exec, w, []) == w;
  }

  lemma RunThree<W, M>(exec: (W, M) -> W, w: W, a: M, b: M, c: M)
    ensures Run(exec, w, [a, b, c]) == exec(exec(exec(w, a), b), c)
  {
    RunShort(exec, w, a, b);
    assert [a, b, c][..2] == [a, b];
  }

  lemma ThreePairs<W, M>(exec: (W, M) -> W, w: W, m: seq<M>, x: W, y: W, z: W)
    requires |m| == 6
    requires exec(exec(w, m[0]), m[1]) == x && exec(exec(x, m[2]), m[3]) == y && exec(exec(y, m[4]), m[5]) == z
    ensures Run(exec, w, m) == z
  {
    RunShort(exec, w, m[0], m[1]);
    RunShort(exec, x, m[2], m[3]);
    RunShort(exec, y, m[4], m[5]);
    RunSplits(exec, w, [m[0], m[1]], [m[2], m[3]]);
    RunSplits(exec, w, [m[0], m[1]] + [m[2], m[3]], [m[4], m[5]]);
    assert m == [m[0], m[1]] + [m[2], m[3]] + [m[4], m[5]];
  }

  /** Every step keeps the invariant `safe` and undoes nothing that `keeps` protects. */
  ghost predicate Keeping<W(!new), M(!new)>(exec: (W, M) -> W, safe: W -> bool, keeps: (W, W) -> bool) {
    && (forall w, m :: safe(w) ==> safe(exec(w, m)) && keeps(w, exec(w, m)))
    && (forall w :: keeps(w, w))
    && (forall a, b, c :: keeps(a, b) && keeps(b, c) ==> keeps(a, c))
  }

  /** Then so does every run. */
  lemma {:induction false} RunKeeps<W(!new),
      M(!new)>(exec: (W, M) -> W, safe: W -> bool, keeps: (W, W) -> bool, w: W, moves: seq<M>)
    requires Keeping(exec, safe, keeps) && safe(w)
    ensures safe(Run(exec, w, moves)) && keeps(w, Run(exec, w, moves))
    decreases |moves|
  {
    if moves != [] {
      var front := moves[..|moves| - 1];
      RunKeeps(exec, safe, keeps, w, front);
      var before := Run(exec, w, front);
      var after := exec(before, moves[|moves| - 1]);
      assert safe(after) && keeps(before, after);
      assert keeps(w, before) && keeps(before, after);
    }
  }
}
