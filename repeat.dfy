/**
  A list comprehension `[make() for _ in range(count)]` whose `make` consumes
  draws from a shared choice sequence. Iteration `j` starts at the draw where
  iteration `j - 1` stopped; `width(k)` is how many draws an iteration started
  at draw `k` takes. An iteration that raises (`step` gives `None`) aborts the
  whole comprehension.
*/
module Repeat {
  import opened Options
  import opened Choice

  /** The draw at which iteration `n` starts when iteration 0 starts at `at`. */
  function Start(width: nat -> nat, at: nat, n: nat): nat
    decreases n
  {
    if n == 0 then at else Start(width, at + width(at), n - 1)
  }

  /** The comprehension: the results in iteration order, or `None` when one iteration raises. */
  function Run<T>(step: nat -> Option<T>, width: nat -> nat, at: nat, count: int): (r: Option<seq<T>>)
    ensures r.Some? ==> |r.value| == RangeLen(count)
    decreases RangeLen(count)
  {
    if count <= 0 then Some([])
    else
      match step(at)
      case None => None
      case Some(x) =>
        match Run(step, width, at + width(at), count - 1)
        case None => None
        case Some(rest) => Some([x] + rest)
  }

  /** Result `j` is what iteration `j` made, at the draw where the previous one stopped. */
  lemma {:induction false} RunNth<T>(step: nat -> Option<T>, width: nat -> nat, at: nat, count: int, j: nat)
    requires Run(step, width, at, count).Some? && j < RangeLen(count)
    ensures step(Start(width, at, j)) == Some(Run(step, width, at, count).value[j])
    decreases j
  {
    if j > 0 {
      RunNth(step, width, at + width(at), count - 1, j - 1);
    }
  }

  /** The comprehension raises when some iteration raises. */
  lemma {:induction false} RunFailsAt<T>(step: nat -> Option<T>, width: nat -> nat, at: nat, count: int, j: nat)
    requires j < count && step(Start(width, at, j)).None?
    ensures Run(step, width, at, count).None?
    decreases j
  {
    if j > 0 {
      RunFailsAt(step, width, at + width(at), count - 1, j - 1);
    }
  }

  /** The comprehension returns when no iteration raises. */
  lemma {:induction false} RunSucceeds<T>(step: nat -> Option<T>, width: nat -> nat, at: nat, count: int)
    requires forall j :: 0 <= j < count ==> step(Start(width, at, j)).Some?
    ensures Run(step, width, at, count).Some?
    decreases RangeLen(count)
  {
    if count > 0 {
      var next := at + width(at);
      forall j | 0 <= j < count - 1 ensures step(Start(width, next, j)).Some? {
        assert Start(width, at, j + 1) == Start(width, next, j);
      }
      RunSucceeds(step, width, next, count - 1);
      assert step(Start(width, at, 0)).Some?;
    }
  }

  /** The comprehension returns exactly when none of its iterations raises. */
  lemma RunSomeIff<T>(step: nat -> Option<T>, width: nat -> nat, at: nat, count: int)
    ensures Run(step, width, at, count).Some? <==> forall j :: 0 <= j < count ==> step(Start(width, at, j)).Some?
  {
    if forall j :: 0 <= j < count ==> step(Start(width, at, j)).Some? {
      RunSucceeds(step, width, at, count);
    } else {
      var j :| 0 <= j < count && step(Start(width, at, j)).None?;
      RunFailsAt(step, width, at, count, j);
    }
  }

  /** A first result followed by the results of `n` more iterations is a run of `n + 1`. */
  lemma RunCons<T>(step: nat -> Option<T>, width: nat -> nat, at: nat, n: nat, x: T, rest: seq<T>)
    requires step(at) == Some(x) && Run(step, width, at + width(at), n) == Some(rest)
    ensures Run(step, width, at, n + 1) == Some([x] + rest)
  {
  }

  /** When iteration `j` makes `xs[j]` for every `j`, the comprehension returns exactly `xs`. */
  lemma RunYields<T>(step: nat -> Option<T>, width: nat -> nat, at: nat, xs: seq<T>)
    requires forall j :: 0 <= j < |xs| ==> step(Start(width, at, j)) == Some(xs[j])
    ensures Run(step, width, at, |xs|) == Some(xs)
  {
    RunSucceeds(step, width, at, |xs|);
    var r := Run(step, width, at, |xs|).value;
    forall j | 0 <= j < |xs| ensures r[j] == xs[j] {
      RunNth(step, width, at, |xs|, j);
    }
    assert r == xs;
  }

  /** Iteration `n + 1` starts right after the draws of iteration `n`. */
  lemma {:induction false} StartNext(width: nat -> nat, at: nat, n: nat)
    ensures Start(width, at, n + 1) == Start(width, at, n) + width(Start(width, at, n))
    decreases n
  {
    if n > 0 {
      StartNext(width, at + width(at), n - 1);
    }
  }

  /**
    One more iteration appends its result at the end and leaves the earlier
    ones as they were; it raises when that iteration raises.
  */
  lemma {:induction false} RunAppend<T>(step: nat -> Option<T>, width: nat -> nat, at: nat, n: nat)
    requires Run(step, width, at, n).Some?
    ensures Run(step, width, at, n + 1)
         == match step(Start(width, at, n))
            case None => None
            case Some(x) => Some(Run(step, width, at, n).value + [x])
    decreases n
  {
    var next := at + width(at);
    if n == 0 {
      assert Start(width, at, 0) == at;
      assert Run(step, width, next, 0) == Some([]);
      match step(at)
      case None =>
      case Some(x) =>
        assert Run(step, width, at, 1) == Some([x] + []);
        assert Run(step, width, at, 0).value + [x] == [x] + [];
    } else {
      RunAppend(step, width, next, n - 1);
      var first := step(at).value;
      var rest := Run(step, width, next, n - 1).value;
      assert Start(width, at, n) == Start(width, next, n - 1);
      match step(Start(width, at, n))
      case None =>
      case Some(x) =>
        assert [first] + (rest + [x]) == ([first] + rest) + [x];
    }
  }

  /** When every iteration takes `w` draws, iteration `n` starts `n * w` draws in. */
  lemma {:induction false} StartUniform(width: nat -> nat, w: nat, at: nat, n: nat)
    requires forall k :: width(k) == w
    ensures Start(width, at, n) == at + n * w
    decreases n
  {
    if n > 0 {
      StartUniform(width, w, at + w, n - 1);
      assert at + w + (n - 1) * w == at + n * w;
    }
  }
}
