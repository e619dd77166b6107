/**
  Full-name generation (`generate_random_name` and `generate_random_names`):
  a first name drawn from one list, then a last name drawn from the other,
  joined by one space.
*/
module NameGenerator {
  import opened Options
  import opened Choice
  import opened Repeat

  /** `s` is a first name from `firsts`, a space and a last name from `lasts`. */
  ghost predicate IsFullName(firsts: seq<string>, lasts: seq<string>, s: string) {
    exists f, l :: f in firsts && l in lasts && s == f + " " + l
  }

  /**
    `f"{random.choice(first_names)} {random.choice(last_names)}"` with the
    first name at draw `at` and the last name at draw `at + 1`; `None` when a
    list is empty, as `random.choice` raises then.
  */
  function NameAt(firsts: seq<string>, lasts: seq<string>, o: Oracle, at: nat): (r: Option<string>)
    ensures r.Some? <==> |firsts| > 0 && |lasts| > 0
    ensures r.Some? ==> IsFullName(firsts, lasts, r.value)
  {
    match Pick(firsts, o, at)
    case None => None
    case Some(f) =>
      match Pick(lasts, o, at + 1)
      case None => None
      case Some(l) => Some(f + " " + l)
  }

  /** The converse of `NameAt`'s contract: every pairing of a first and a last name is drawn by some run. */
  lemma NameReaches(firsts: seq<string>, lasts: seq<string>, f: string, l: string, at: nat)
    requires f in firsts && l in lasts
    ensures exists o: Oracle :: NameAt(firsts, lasts, o, at) == Some(f + " " + l)
  {
    var o := Scripted(at, [IndexOf(firsts, f), IndexOf(lasts, l)]);
    assert o(at + 0) == IndexOf(firsts, f);
    PickReaches(firsts, f, o, at);
    PickReaches(lasts, l, o, at + 1);
    assert NameAt(firsts, lasts, o, at) == Some(f + " " + l);
  }

  function NameStep(firsts: seq<string>, lasts: seq<string>, o: Oracle): nat -> Option<string> {
    (k: nat) => NameAt(firsts, lasts, o, k)
  }

  /** Every name takes two draws. */
  function NameWidth(): nat -> nat {
    (k: nat) => 2
  }

  /** `[f"{random.choice(first_names)} {random.choice(last_names)}" for _ in range(count)]`. */
  function Names(firsts: seq<string>, lasts: seq<string>, o: Oracle, at: nat, count: int): (r: Option<seq<string>>)
    ensures r.Some? ==> |r.value| == RangeLen(count)
  {
    Run(NameStep(firsts, lasts, o), NameWidth(), at, count)
  }

  /** The list raises exactly when at least one name is asked for and a list is empty. */
  lemma NamesSomeIff(firsts: seq<string>, lasts: seq<string>, o: Oracle, at: nat, count: int)
    ensures Names(firsts, lasts, o, at, count).Some? <==> count <= 0 || (|firsts| > 0 && |lasts| > 0)
  {
    RunSomeIff(NameStep(firsts, lasts, o), NameWidth(), at, count);
    if count > 0 && !(|firsts| > 0 && |lasts| > 0) {
      assert NameStep(firsts, lasts, o)(Start(NameWidth(), at, 0)).None?;
    }
  }

  /** Name `j` is the name drawn at draws `at + 2 * j` and `at + 2 * j + 1`. */
  lemma NamesNth(firsts: seq<string>, lasts: seq<string>, o: Oracle, at: nat, count: int, j: nat)
    requires Names(firsts, lasts, o, at, count).Some? && j < RangeLen(count)
    ensures NameAt(firsts, lasts, o, at + 2 * j) == Some(Names(firsts, lasts, o, at, count).value[j])
  {
    RunNth(NameStep(firsts, lasts, o), NameWidth(), at, count, j);
    StartUniform(NameWidth(), 2, at, j);
    assert j * 2 == 2 * j;
  }

  /** Every entry of the list is a first name and a last name from the two lists. */
  lemma NamesAreFullNames(firsts: seq<string>, lasts: seq<string>, o: Oracle, at: nat, count: int)
    requires Names(firsts, lasts, o, at, count).Some?
    ensures forall j :: 0 <= j < RangeLen(count) ==> IsFullName(firsts, lasts, Names(firsts, lasts, o, at, count).value[j])
  {
    forall j | 0 <= j < RangeLen(count) ensures IsFullName(firsts, lasts, Names(firsts, lasts, o, at, count).value[j]) {
      NamesNth(firsts, lasts, o, at, count, j);
    }
  }

  /** The draws that name `fs[j]` and then `ls[j]`, for each `j` in turn. */
  function NamesScript(firsts: seq<string>, lasts: seq<string>, fs: seq<string>, ls: seq<string>): (picks: seq<nat>)
    requires |fs| == |ls|
    requires forall j :: 0 <= j < |fs| ==> fs[j] in firsts && ls[j] in lasts
    ensures |picks| == 2 * |fs|
    ensures forall j :: 0 <= j < |fs| ==> picks[2 * j] == IndexOf(firsts, fs[j]) && picks[2 * j + 1] == IndexOf(lasts, ls[j])
    decreases |fs|
  {
    if |fs| == 0 then []
    else
      var rest := NamesScript(firsts, lasts, fs[1..], ls[1..]);
      var picks := [IndexOf(firsts, fs[0]), IndexOf(lasts, ls[0])] + rest;
      forall j | 0 <= j < |fs|
        ensures picks[2 * j] == IndexOf(firsts, fs[j]) && picks[2 * j + 1] == IndexOf(lasts, ls[j])
      {
        if j > 0 {
          var k := j - 1;
          assert fs[1..][k] == fs[j] && ls[1..][k] == ls[j];
          assert rest[2 * k] == IndexOf(firsts, fs[j]) && rest[2 * k + 1] == IndexOf(lasts, ls[j]);
          assert picks[2 * j] == rest[2 * k] && picks[2 * j + 1] == rest[2 * k + 1];
        }
      }
      picks
  }

  /** The full names `fs[j] + " " + ls[j]`, in order. */
  function Pairings(fs: seq<string>, ls: seq<string>): (ns: seq<string>)
    requires |fs| == |ls|
    ensures |ns| == |fs| && forall j :: 0 <= j < |fs| ==> ns[j] == fs[j] + " " + ls[j]
  {
    seq(|fs|, j requires 0 <= j < |fs| => fs[j] + " " + ls[j])
  }

  /** Draws naming a first name and then a last name make that full name. */
  lemma NameDrawn(firsts: seq<string>, lasts: seq<string>, f: string, l: string, o: Oracle, at: nat)
    requires f in firsts && l in lasts
    requires o(at) == IndexOf(firsts, f) && o(at + 1) == IndexOf(lasts, l)
    ensures NameAt(firsts, lasts, o, at) == Some(f + " " + l)
  {
    PickReaches(firsts, f, o, at);
    PickReaches(lasts, l, o, at + 1);
  }

  /**
    The converse of the contract of `Names`: any list of pairings of a listed
    first name with a listed last name is a possible result.
  */
  lemma NamesReach(firsts: seq<string>, lasts: seq<string>, fs: seq<string>, ls: seq<string>, at: nat)
    requires |fs| == |ls|
    requires forall j :: 0 <= j < |fs| ==> fs[j] in firsts && ls[j] in lasts
    ensures exists o: Oracle :: Names(firsts, lasts, o, at, |fs|) == Some(Pairings(fs, ls))
  {
    var picks := NamesScript(firsts, lasts, fs, ls);
    var o := Scripted(at, picks);
    var xs := Pairings(fs, ls);
    var step, width := NameStep(firsts, lasts, o), NameWidth();
    forall j | 0 <= j < |xs| ensures step(Start(width, at, j)) == Some(xs[j]) {
      var k := at + 2 * j;
      assert Start(width, at, j) == k by {
        StartUniform(width, 2, at, j);
      }
      assert o(k) == picks[2 * j] && o(k + 1) == picks[2 * j + 1] by {
        assert k + 1 == at + (2 * j + 1);
      }
      NameDrawn(firsts, lasts, fs[j], ls[j], o, k);
    }
    RunYields(step, width, at, xs);
    assert Names(firsts, lasts, o, at, |fs|) == Some(xs);
  }

  /** A list of full names is the pairing of a list of first names with a list of last names. */
  lemma {:induction false} SplitNames(firsts: seq<string>, lasts: seq<string>, ns: seq<string>) returns (fs: seq<string>, ls: seq<string>)
    requires forall j :: 0 <= j < |ns| ==> IsFullName(firsts, lasts, ns[j])
    ensures |fs| == |ls| == |ns| && Pairings(fs, ls) == ns
    ensures forall j :: 0 <= j < |fs| ==> fs[j] in firsts && ls[j] in lasts
    decreases |ns|
  {
    if |ns| == 0 {
      fs, ls := [], [];
    } else {
      var f, l :| f in firsts && l in lasts && ns[0] == f + " " + l;
      var fs', ls' := SplitNames(firsts, lasts, ns[1..]);
      fs, ls := [f] + fs', [l] + ls';
      assert Pairings(fs, ls) == [ns[0]] + Pairings(fs', ls');
      assert [ns[0]] + ns[1..] == ns;
    }
  }
}
