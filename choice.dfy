/**
  The random source, abstracted as a choice oracle.

  Every generator in the system draws with `random.choice(xs)`, which either
  raises on an empty list or returns `xs[i]` for some index `0 <= i < len(xs)`.
  The model replaces Python's global pseudo-random generator by an oracle: the
  k-th draw of a call is `o(k)`, and a draw over `n` items takes the index
  `o(k)` when that is below `n` (and index 0 otherwise). Every index is
  reachable, so a property proved for every oracle is a property of every run,
  whatever the generator's state or seed.
*/
module Choice {
  import opened Options

  /** The sequence of raw draws made by one call: draw `k` is `o(k)`. */
  type Oracle = nat -> nat

  /** How many times `for _ in range(n)` iterates. */
  function RangeLen(n: int): nat {
    if n < 0 then 0 else n
  }

  /** The index that draw `at` selects among `n > 0` items. */
  function Draw(o: Oracle, at: nat, n: nat): (i: nat)
    requires n > 0
    ensures i < n
  {
    if o(at) < n then o(at) else 0
  }

  /** `random.choice(xs)` made at draw `at`: `None` (an IndexError) on an empty list. */
  function Pick<T>(xs: seq<T>, o: Oracle, at: nat): (r: Option<T>)
    ensures r.Some? <==> |xs| > 0
    ensures r.Some? ==> r.value in xs
  {
    if |xs| == 0 then None else Some(xs[Draw(o, at, |xs|)])
  }

  /** The first position of `x` in `xs`. */
  function IndexOf<T(==)>(xs: seq<T>, x: T): (i: nat)
    requires x in xs
    ensures i < |xs| && xs[i] == x
  {
    if xs[0] == x then 0 else 1 + IndexOf(xs[1..], x)
  }

  /** Every element of a list can be picked: the draw that names its index picks it. */
  lemma PickReaches<T>(xs: seq<T>, x: T, o: Oracle, at: nat)
    requires x in xs && o(at) == IndexOf(xs, x)
    ensures Pick(xs, o, at) == Some(x)
  {
    DrawOfSmall(o, at, |xs|);
  }

  /** A raw draw already below `n` selects itself. */
  lemma DrawOfSmall(o: Oracle, at: nat, n: nat)
    requires o(at) < n
    ensures Draw(o, at, n) == o(at)
  {
  }

  /** Draw `k` of a scripted run: `picks[k - at]` inside the script, 0 outside it. */
  function ScriptedDraw(at: nat, picks: seq<nat>, k: nat): nat {
    if at <= k < at + |picks| then picks[k - at] else 0
  }

  /** `o` makes the draws `picks`, in order, from draw `at` on. */
  ghost predicate Follows(o: Oracle, at: nat, picks: seq<nat>) {
    forall i :: 0 <= i < |picks| ==> o(at + i) == picks[i]
  }

  /** An oracle that makes the draws of a joined script makes those of each part, one after the other. */
  lemma FollowsSplit(o: Oracle, at: nat, first: seq<nat>, rest: seq<nat>)
    requires Follows(o, at, first + rest)
    ensures Follows(o, at, first) && Follows(o, at + |first|, rest)
  {
    forall i | 0 <= i < |first| ensures o(at + i) == first[i] {
      assert (first + rest)[i] == first[i];
    }
    forall i | 0 <= i < |rest| ensures o(at + |first| + i) == rest[i] {
      assert o(at + (|first| + i)) == (first + rest)[|first| + i];
    }
  }

  /** The oracle that makes the draws `picks`, in order, from draw `at` on. */
  function Scripted(at: nat, picks: seq<nat>): (o: Oracle)
    ensures forall i :: 0 <= i < |picks| ==> o(at + i) == picks[i]
    ensures Follows(o, at, picks)
  {
    k => ScriptedDraw(at, picks, k)
  }
}
