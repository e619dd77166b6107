/**
  Phrase generation (`generate_random_phrase`). The source picks one of three
  closures and calls it; here the closures are an explicit `Shape` and the
  pure table `Slots`, which says which category fills each slot, left to right.
*/
module PhraseGenerator {
  import opened Options
  import opened Choice
  import opened Text
  import opened Repeat

  datatype Category = Noun | Adjective | Verb

  /** The three phrase forms, in the order of the source's `phrase_types` list. */
  datatype Shape = AdjNoun | NounVerb | AdjNounVerb

  const Shapes: seq<Shape> := [AdjNoun, NounVerb, AdjNounVerb]

  /** The categories a shape draws from, in the order the words are drawn and written. */
  function Slots(s: Shape): (cs: seq<Category>)
    ensures 2 <= |cs| <= 3 && Noun in cs
  {
    match s
    case AdjNoun => [Adjective, Noun]
    case NounVerb => [Noun, Verb]
    case AdjNounVerb => [Adjective, Noun, Verb]
  }

  /** The word lists phrases are drawn from. */
  datatype Lexicon = Lexicon(nouns: seq<string>, adjectives: seq<string>, verbs: seq<string>)

  function Words(lex: Lexicon, c: Category): seq<string> {
    match c
    case Noun => lex.nouns
    case Adjective => lex.adjectives
    case Verb => lex.verbs
  }

  /** Every category in `cs` has a word to draw. */
  predicate AllFillable(lex: Lexicon, cs: seq<Category>) {
    |cs| == 0 || (|Words(lex, cs[0])| > 0 && AllFillable(lex, cs[1..]))
  }

  /** `AllFillable` says that no category of `cs` has an empty list. */
  lemma {:induction false} AllFillableMeans(lex: Lexicon, cs: seq<Category>)
    ensures AllFillable(lex, cs) <==> forall c :: c in cs ==> |Words(lex, c)| > 0
    decreases |cs|
  {
    if |cs| > 0 {
      AllFillableMeans(lex, cs[1..]);
      assert forall c :: c in cs <==> c == cs[0] || c in cs[1..];
    }
  }

  /** Every category a shape needs has a word to draw. */
  predicate Available(lex: Lexicon, s: Shape) {
    AllFillable(lex, Slots(s))
  }

  /** `p` is a phrase of shape `s` whose every word comes from the list of its slot. */
  ghost predicate IsPhrase(lex: Lexicon, s: Shape, p: string) {
    match s
    case AdjNoun =>
      exists a, n :: a in lex.adjectives && n in lex.nouns && p == a + " " + n
    case NounVerb =>
      exists n, v :: n in lex.nouns && v in lex.verbs && p == n + " " + v
    case AdjNounVerb =>
      exists a, n, v :: a in lex.adjectives && n in lex.nouns && v in lex.verbs && p == a + " " + n + " " + v
  }

  ghost predicate IsAnyPhrase(lex: Lexicon, p: string) {
    exists s :: IsPhrase(lex, s, p)
  }

  /** `random.choice(phrase_types)` made at draw `at`. */
  function ShapeAt(o: Oracle, at: nat): Shape {
    Shapes[Draw(o, at, 3)]
  }

  /** The shape pick is `random.choice` over the three-entry list of forms. */
  lemma ShapeAtIsPick(o: Oracle, at: nat)
    ensures Pick(Shapes, o, at) == Some(ShapeAt(o, at))
  {
  }

  /** `ws` holds one word per slot of `cs`, each from the list of its slot's category. */
  predicate Fills(lex: Lexicon, cs: seq<Category>, ws: seq<string>) {
    |ws| == |cs| && (|cs| == 0 || (ws[0] in Words(lex, cs[0]) && Fills(lex, cs[1..], ws[1..])))
  }

  /** Draws one word per slot, slot `i` at draw `at + i`; fails at the first empty list. */
  function FillSlots(lex: Lexicon, cs: seq<Category>, o: Oracle, at: nat): (r: Option<seq<string>>)
    ensures r.Some? <==> AllFillable(lex, cs)
    ensures r.Some? ==> Fills(lex, cs, r.value)
    decreases |cs|
  {
    if |cs| == 0 then Some([])
    else
      match Pick(Words(lex, cs[0]), o, at)
      case None => None
      case Some(w) =>
        match FillSlots(lex, cs[1..], o, at + 1)
        case None => None
        case Some(rest) => Some([w] + rest)
  }

  /**
    One iteration of the source's loop: pick a shape at draw `at`, then fill its
    slots from draw `at + 1` on. It fails exactly when the chosen shape needs an
    empty list.
  */
  function PhraseAt(lex: Lexicon, o: Oracle, at: nat): (r: Option<string>)
    ensures r.Some? <==> Available(lex, ShapeAt(o, at))
  {
    match FillSlots(lex, Slots(ShapeAt(o, at)), o, at + 1)
    case None => None
    case Some(ws) => Some(JoinSpaces(ws))
  }

  /** What one iteration yields is a phrase of the shape it picked, each word from its slot's list. */
  lemma PhraseAtShape(lex: Lexicon, o: Oracle, at: nat)
    requires PhraseAt(lex, o, at).Some?
    ensures IsPhrase(lex, ShapeAt(o, at), PhraseAt(lex, o, at).value)
  {
    var s := ShapeAt(o, at);
    FilledSlotsArePhrase(lex, s, FillSlots(lex, Slots(s), o, at + 1).value);
  }

  /** Words that fill a shape's slots, joined by spaces, are a phrase of that shape. */
  lemma FilledSlotsArePhrase(lex: Lexicon, s: Shape, ws: seq<string>)
    requires Fills(lex, Slots(s), ws)
    ensures IsPhrase(lex, s, JoinSpaces(ws))
  {
    match s
    case AdjNoun =>
      assert JoinSpaces(ws) == ws[0] + " " + ws[1];
      assert ws[0] in lex.adjectives && ws[1] in lex.nouns;
    case NounVerb =>
      assert JoinSpaces(ws) == ws[0] + " " + ws[1];
      assert ws[0] in lex.nouns && ws[1] in lex.verbs;
    case AdjNounVerb =>
      assert ws[1..][1..] == [ws[2]];
      assert Fills(lex, Slots(s)[1..], ws[1..]);
      assert Fills(lex, [Verb], [ws[2]]);
      assert JoinSpaces(ws[1..]) == ws[1] + " " + ws[2];
      assert JoinSpaces(ws) == ws[0] + " " + ws[1] + " " + ws[2];
      assert ws[0] in lex.adjectives && ws[1] in lex.nouns && ws[2] in lex.verbs;
  }

  /** The draws one phrase takes: one for its shape and one per slot. */
  function PhraseDraws(o: Oracle, at: nat): (n: nat)
    ensures 3 <= n <= 4
  {
    1 + |Slots(ShapeAt(o, at))|
  }

  /** One iteration of the comprehension, as a function of the draw it starts at. */
  function PhraseStep(lex: Lexicon, o: Oracle): nat -> Option<string> {
    (k: nat) => PhraseAt(lex, o, k)
  }

  function PhraseWidth(o: Oracle): nat -> nat {
    (k: nat) => PhraseDraws(o, k)
  }

  /** The draw at which phrase number `n` starts when the first starts at `at`. */
  function PhraseStart(o: Oracle, at: nat, n: nat): nat {
    Start(PhraseWidth(o), at, n)
  }

  /**
    `[random.choice(phrase_types)() for _ in range(word_count)]`: the phrases in
    generation order, or `None` when some iteration raises.
  */
  function Phrases(lex: Lexicon, o: Oracle, at: nat, count: int): (r: Option<seq<string>>)
    ensures r.Some? ==> |r.value| == RangeLen(count)
  {
    Run(PhraseStep(lex, o), PhraseWidth(o), at, count)
  }

  /**
    A call raises exactly when some iteration picks a shape that needs an
    empty list.
  */
  lemma PhrasesSucceedIff(lex: Lexicon, o: Oracle, at: nat, count: int)
    ensures Phrases(lex, o, at, count).Some?
        <==> forall j :: 0 <= j < count ==> Available(lex, ShapeAt(o, PhraseStart(o, at, j)))
  {
    var step, width := PhraseStep(lex, o), PhraseWidth(o);
    RunSomeIff(step, width, at, count);
    forall j: nat | j < count
      ensures step(Start(width, at, j)).Some? <==> Available(lex, ShapeAt(o, PhraseStart(o, at, j)))
    {
      assert step(Start(width, at, j)) == PhraseAt(lex, o, PhraseStart(o, at, j));
    }
    assert Phrases(lex, o, at, count) == Run(step, width, at, count);
    if Phrases(lex, o, at, count).Some? {
      assert forall j :: 0 <= j < count ==> step(Start(width, at, j)).Some?;
      assert forall j :: 0 <= j < count ==> Available(lex, ShapeAt(o, PhraseStart(o, at, j)));
    } else {
      assert !forall j :: 0 <= j < count ==> step(Start(width, at, j)).Some?;
    }
  }

  /** Every shape contains a noun, so with no nouns no phrase can be made at all. */
  lemma NoNounsNoPhrases(lex: Lexicon, o: Oracle, at: nat, count: int)
    requires |lex.nouns| == 0 && count >= 1
    ensures Phrases(lex, o, at, count) == None
  {
    AllFillableMeans(lex, Slots(ShapeAt(o, PhraseStart(o, at, 0))));
    PhrasesSucceedIff(lex, o, at, count);
  }

  /** With every list non-empty, each of the three shapes can be filled. */
  lemma FullLexiconAvailable(lex: Lexicon, s: Shape)
    requires |lex.nouns| > 0 && |lex.adjectives| > 0 && |lex.verbs| > 0
    ensures Available(lex, s)
  {
    AllFillableMeans(lex, Slots(s));
    forall c | c in Slots(s) ensures |Words(lex, c)| > 0 {
      match c
      case Noun =>
      case Adjective =>
      case Verb =>
    }
  }

  /** With every list non-empty, a call never raises. */
  lemma FullLexiconNeverFails(lex: Lexicon, o: Oracle, at: nat, count: int)
    requires |lex.nouns| > 0 && |lex.adjectives| > 0 && |lex.verbs| > 0
    ensures Phrases(lex, o, at, count).Some?
  {
    forall j | 0 <= j < count ensures Available(lex, ShapeAt(o, PhraseStart(o, at, j))) {
      FullLexiconAvailable(lex, ShapeAt(o, PhraseStart(o, at, j)));
    }
    PhrasesSucceedIff(lex, o, at, count);
  }

  /**
    Phrase `j` of a call is the phrase made by iteration `j`, which starts where
    iteration `j - 1` stopped drawing: the list is in generation order.
  */
  lemma PhrasesNth(lex: Lexicon, o: Oracle, at: nat, count: int, j: nat)
    requires Phrases(lex, o, at, count).Some? && j < RangeLen(count)
    ensures PhraseAt(lex, o, PhraseStart(o, at, j)) == Some(Phrases(lex, o, at, count).value[j])
  {
    RunNth(PhraseStep(lex, o), PhraseWidth(o), at, count, j);
  }

  /** Phrase `n + 1` starts right after the draws of phrase `n`. */
  lemma PhraseStartNext(o: Oracle, at: nat, n: nat)
    ensures PhraseStart(o, at, n + 1) == PhraseStart(o, at, n) + PhraseDraws(o, PhraseStart(o, at, n))
  {
    StartNext(PhraseWidth(o), at, n);
  }

  /**
    One more iteration appends one more phrase at the end and leaves the
    earlier ones as they were; it raises when that phrase cannot be made.
  */
  lemma PhrasesAppend(lex: Lexicon, o: Oracle, at: nat, n: nat)
    requires Phrases(lex, o, at, n).Some?
    ensures Phrases(lex, o, at, n + 1)
         == match PhraseAt(lex, o, PhraseStart(o, at, n))
            case None => None
            case Some(p) => Some(Phrases(lex, o, at, n).value + [p])
  {
    RunAppend(PhraseStep(lex, o), PhraseWidth(o), at, n);
  }

  /** The draw that makes `Shapes[i]` the chosen shape. */
  function ShapeIndex(s: Shape): (i: nat)
    ensures i < 3 && Shapes[i] == s
  {
    match s
    case AdjNoun => 0
    case NounVerb => 1
    case AdjNounVerb => 2
  }

  /** Draws that name each word's position in its slot's list fill the slots with those words. */
  lemma {:induction false} FillSlotsReaches(lex: Lexicon, cs: seq<Category>, ws: seq<string>, o: Oracle, at: nat)
    requires |ws| == |cs|
    requires forall i :: 0 <= i < |cs| ==> ws[i] in Words(lex, cs[i]) && o(at + i) == IndexOf(Words(lex, cs[i]), ws[i])
    ensures FillSlots(lex, cs, o, at) == Some(ws)
    decreases |cs|
  {
    if |cs| > 0 {
      PickReaches(Words(lex, cs[0]), ws[0], o, at);
      forall i | 0 <= i < |cs| - 1
        ensures ws[1..][i] in Words(lex, cs[1..][i]) && o(at + 1 + i) == IndexOf(Words(lex, cs[1..][i]), ws[1..][i])
      {
        assert at + 1 + i == at + (i + 1);
      }
      FillSlotsReaches(lex, cs[1..], ws[1..], o, at + 1);
      assert ws == [ws[0]] + ws[1..];
    }
  }

  /** The draws that produce the words `ws` of a phrase of shape `s`. */
  function PhraseScript(lex: Lexicon, s: Shape, ws: seq<string>): (picks: seq<nat>)
    requires |ws| == |Slots(s)|
    requires forall i :: 0 <= i < |ws| ==> ws[i] in Words(lex, Slots(s)[i])
    ensures |picks| == 1 + |ws| && picks[0] == ShapeIndex(s)
    ensures forall i :: 0 <= i < |ws| ==> picks[i + 1] == IndexOf(Words(lex, Slots(s)[i]), ws[i])
  {
    [ShapeIndex(s)] + WordPicks(lex, Slots(s), ws)
  }

  /** The draws that pick each word of `ws` from the list of its slot's category in `cs`. */
  function WordPicks(lex: Lexicon, cs: seq<Category>, ws: seq<string>): (picks: seq<nat>)
    requires |ws| == |cs|
    requires forall i :: 0 <= i < |ws| ==> ws[i] in Words(lex, cs[i])
    ensures |picks| == |ws|
    ensures forall i :: 0 <= i < |ws| ==> picks[i] == IndexOf(Words(lex, cs[i]), ws[i])
  {
    seq(|ws|, i requires 0 <= i < |ws| => IndexOf(Words(lex, cs[i]), ws[i]))
  }

  /** An oracle following a phrase's script draws the shape's position, then each word's position. */
  lemma PhraseScriptDraws(lex: Lexicon, s: Shape, ws: seq<string>, o: Oracle, at: nat)
    requires |ws| == |Slots(s)|
    requires forall i :: 0 <= i < |ws| ==> ws[i] in Words(lex, Slots(s)[i])
    requires Follows(o, at, PhraseScript(lex, s, ws))
    ensures o(at) == ShapeIndex(s)
    ensures forall i :: 0 <= i < |ws| ==> o(at + 1 + i) == IndexOf(Words(lex, Slots(s)[i]), ws[i])
  {
    var picks := PhraseScript(lex, s, ws);
    assert o(at + 0) == picks[0];
    forall i | 0 <= i < |ws|
      ensures o(at + 1 + i) == IndexOf(Words(lex, Slots(s)[i]), ws[i])
    {
      assert o(at + (i + 1)) == picks[i + 1];
    }
  }

  /** Draws that name a shape and then each word's position in its slot's list make that phrase. */
  lemma PhraseDrawn(lex: Lexicon, s: Shape, ws: seq<string>, o: Oracle, at: nat)
    requires |ws| == |Slots(s)|
    requires o(at) == ShapeIndex(s)
    requires forall i :: 0 <= i < |ws| ==> ws[i] in Words(lex, Slots(s)[i]) && o(at + 1 + i) == IndexOf(Words(lex, Slots(s)[i]), ws[i])
    ensures ShapeAt(o, at) == s && PhraseAt(lex, o, at) == Some(JoinSpaces(ws))
  {
    assert ShapeAt(o, at) == s by {
      DrawOfSmall(o, at, 3);
    }
    SlotsDrawn(lex, s, ws, o, at);
    PhraseOfFilled(lex, s, o, at, ws);
  }

  /** Draws naming each word's position in its slot's list fill the shape's slots with those words. */
  lemma SlotsDrawn(lex: Lexicon, s: Shape, ws: seq<string>, o: Oracle, at: nat)
    requires |ws| == |Slots(s)|
    requires forall i :: 0 <= i < |ws| ==> ws[i] in Words(lex, Slots(s)[i]) && o(at + 1 + i) == IndexOf(Words(lex, Slots(s)[i]), ws[i])
    ensures FillSlots(lex, Slots(s), o, at + 1) == Some(ws)
  {
    var cs := Slots(s);
    forall i | 0 <= i < |cs|
      ensures ws[i] in Words(lex, cs[i]) && o(at + 1 + i) == IndexOf(Words(lex, cs[i]), ws[i])
    {
    }
    FillSlotsReaches(lex, cs, ws, o, at + 1);
  }

  /** An iteration that picks `s` and fills its slots with `ws` yields the words `ws` joined by spaces. */
  lemma PhraseOfFilled(lex: Lexicon, s: Shape, o: Oracle, at: nat, ws: seq<string>)
    requires ShapeAt(o, at) == s && FillSlots(lex, Slots(s), o, at + 1) == Some(ws)
    ensures PhraseAt(lex, o, at) == Some(JoinSpaces(ws))
  {
  }

  /** Some run of draws produces a phrase of shape `s` with exactly the words `ws`. */
  lemma PhraseWordsReachable(lex: Lexicon, s: Shape, ws: seq<string>, at: nat) returns (o: Oracle)
    requires |ws| == |Slots(s)|
    requires forall i :: 0 <= i < |ws| ==> ws[i] in Words(lex, Slots(s)[i])
    ensures ShapeAt(o, at) == s && PhraseAt(lex, o, at) == Some(JoinSpaces(ws))
  {
    o := Scripted(at, PhraseScript(lex, s, ws));
    PhraseScriptDraws(lex, s, ws, o, at);
    PhraseDrawn(lex, s, ws, o, at);
  }

  /** The words of a phrase of shape `s`, one per slot, each from its slot's list. */
  lemma PhraseWords(lex: Lexicon, s: Shape, p: string) returns (ws: seq<string>)
    requires IsPhrase(lex, s, p)
    ensures |ws| == |Slots(s)| && JoinSpaces(ws) == p
    ensures forall i :: 0 <= i < |ws| ==> ws[i] in Words(lex, Slots(s)[i])
  {
    match s {
      case AdjNoun =>
        var a, n :| a in lex.adjectives && n in lex.nouns && p == a + " " + n;
        ws := [a, n];
        assert ws[1..] == [n];
      case NounVerb =>
        var n, v :| n in lex.nouns && v in lex.verbs && p == n + " " + v;
        ws := [n, v];
        assert ws[1..] == [v];
      case AdjNounVerb =>
        var a, n, v :| a in lex.adjectives && n in lex.nouns && v in lex.verbs && p == a + " " + n + " " + v;
        ws := [a, n, v];
        assert ws[1..][1..] == [v];
        assert JoinSpaces(ws[1..]) == n + " " + v;
    }
  }

  /**
    The converse of `PhraseAt`'s contract: every phrase of every shape, with
    any words from the lists of its slots, is produced by some run of draws.
  */
  lemma PhraseReaches(lex: Lexicon, s: Shape, p: string, at: nat)
    requires IsPhrase(lex, s, p)
    ensures exists o: Oracle :: ShapeAt(o, at) == s && PhraseAt(lex, o, at) == Some(p)
  {
    var ws := PhraseWords(lex, s, p);
    var o := PhraseWordsReachable(lex, s, ws, at);
  }

  /** A first phrase followed by a list of `n` more is a list of `n + 1` phrases. */
  lemma PhrasesCons(lex: Lexicon, o: Oracle, at: nat, p: string, n: nat, rest: seq<string>)
    requires PhraseAt(lex, o, at) == Some(p)
    requires Phrases(lex, o, at + PhraseDraws(o, at), n) == Some(rest)
    ensures Phrases(lex, o, at, n + 1) == Some([p] + rest)
  {
    var step, width := PhraseStep(lex, o), PhraseWidth(o);
    assert step(at) == Some(p);
    RunCons(step, width, at, n, p, rest);
  }

  /** Draws that produce the phrase `p`, whatever the oracle does outside them. */
  lemma PhraseScriptFor(lex: Lexicon, p: string, at: nat) returns (picks: seq<nat>)
    requires IsAnyPhrase(lex, p)
    ensures forall o :: Follows(o, at, picks) ==> PhraseAt(lex, o, at) == Some(p) && PhraseDraws(o, at) == |picks|
  {
    var s :| IsPhrase(lex, s, p);
    var ws := PhraseWords(lex, s, p);
    picks := PhraseScript(lex, s, ws);
    forall o | Follows(o, at, picks) ensures PhraseAt(lex, o, at) == Some(p) && PhraseDraws(o, at) == |picks| {
      PhraseScriptDraws(lex, s, ws, o, at);
      PhraseDrawn(lex, s, ws, o, at);
    }
  }

  /** An oracle following a first phrase's draws and then the draws of `n` more phrases draws all `n + 1` phrases. */
  lemma PhrasesFollow(lex: Lexicon, o: Oracle, at: nat, p: string, rest: seq<string>, first: seq<nat>, next: seq<nat>)
    requires Follows(o, at, first + next)
    requires Follows(o, at, first) ==> PhraseAt(lex, o, at) == Some(p) && PhraseDraws(o, at) == |first|
    requires Follows(o, at + |first|, next) ==> Phrases(lex, o, at + |first|, |rest|) == Some(rest)
    ensures Phrases(lex, o, at, |rest| + 1) == Some([p] + rest)
  {
    FollowsSplit(o, at, first, next);
    PhrasesCons(lex, o, at, p, |rest|, rest);
  }

  /** Draws that produce the phrases `ps` one after the other, from draw `at` on. */
  lemma {:induction false} PhrasesScript(lex: Lexicon, ps: seq<string>, at: nat) returns (picks: seq<nat>)
    requires forall j :: 0 <= j < |ps| ==> IsAnyPhrase(lex, ps[j])
    ensures forall o :: Follows(o, at, picks) ==> Phrases(lex, o, at, |ps|) == Some(ps)
    decreases |ps|
  {
    if |ps| == 0 {
      picks := [];
    } else {
      var first := PhraseScriptFor(lex, ps[0], at);
      forall j | 0 <= j < |ps[1..]| ensures IsAnyPhrase(lex, ps[1..][j]) {
        assert ps[1..][j] == ps[j + 1];
      }
      var rest := PhrasesScript(lex, ps[1..], at + |first|);
      picks := first + rest;
      assert [ps[0]] + ps[1..] == ps;
      forall o | Follows(o, at, picks) ensures Phrases(lex, o, at, |ps|) == Some(ps) {
        PhrasesFollow(lex, o, at, ps[0], ps[1..], first, rest);
      }
    }
  }

  /**
    The converse of the contract of `Phrases` and `PhrasesShape`: every list
    of phrases, each of one of the three shapes over the lists, is a possible
    result.
  */
  lemma PhrasesReach(lex: Lexicon, ps: seq<string>, at: nat)
    requires forall j :: 0 <= j < |ps| ==> IsAnyPhrase(lex, ps[j])
    ensures exists o: Oracle :: Phrases(lex, o, at, |ps|) == Some(ps)
  {
    var picks := PhrasesScript(lex, ps, at);
    var o := Scripted(at, picks);
    assert Phrases(lex, o, at, |ps|) == Some(ps);
  }

  /** Every phrase a call returns has one of the three shapes, each word from its slot's list. */
  lemma PhrasesShape(lex: Lexicon, o: Oracle, at: nat, count: int)
    requires Phrases(lex, o, at, count).Some?
    ensures forall i :: 0 <= i < RangeLen(count) ==> IsAnyPhrase(lex, Phrases(lex, o, at, count).value[i])
  {
    forall i | 0 <= i < RangeLen(count) ensures IsAnyPhrase(lex, Phrases(lex, o, at, count).value[i]) {
      PhrasesNth(lex, o, at, count, i);
      PhraseAtShape(lex, o, PhraseStart(o, at, i));
    }
  }
}
