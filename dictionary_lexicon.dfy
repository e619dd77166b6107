/**
  `ExtendedRandomWordGenerator`, the third program's generator: its noun,
  adjective and verb lists come from a dictionary file, one word per line,
  sorted by a morphological analyser, and its name lists from two files of
  names, one per line. The file contents are sequences of lines; the
  analyser (the part of speech of a word's first parse, if it has one) and
  Unicode lower-casing are parameters.
*/
module DictionaryLexicon {
  import opened Options
  import opened Choice
  import opened Text
  import opened PhraseGenerator
  import opened NameGenerator

  /** `word.strip().lower()`, as a function of the line. */
  function Normaliser(lower: string -> string): string -> string {
    line => lower(Strip(line))
  }

  /** Whitespace around a word never changes what it normalises to. */
  lemma NormaliserIgnoresSpace(lower: string -> string, line: string)
    ensures Normaliser(lower)(Strip(line)) == Normaliser(lower)(line)
  {
    StripIdempotent(line);
  }

  /** Whether the first parse of a line's normalised word has part of speech `pos`. */
  predicate Keeps(norm: string -> string, tagOf: string -> Option<string>, pos: string, line: string) {
    tagOf(norm(line)) == Some(pos)
  }

  /** The set `_load_words(pos)` has built after reading `lines`, `norm` normalising each line. */
  function Kept(lines: seq<string>, norm: string -> string, tagOf: string -> Option<string>, pos: string): (words: set<string>)
    ensures |words| <= |lines|
  {
    if |lines| == 0 then {}
    else
      var line := lines[|lines| - 1];
      Kept(lines[..|lines| - 1], norm, tagOf, pos) + if Keeps(norm, tagOf, pos, line) then {norm(line)} else {}
  }

  /** The set holds exactly the normalised words of the lines whose first parse has part of speech `pos`. */
  lemma {:induction false} KeptMembership(lines: seq<string>, norm: string -> string, tagOf: string -> Option<string>, pos: string, w: string)
    ensures w in Kept(lines, norm, tagOf, pos)
        <==> exists i :: 0 <= i < |lines| && Keeps(norm, tagOf, pos, lines[i]) && norm(lines[i]) == w
    decreases |lines|
  {
    if |lines| > 0 {
      var front := lines[..|lines| - 1];
      KeptMembership(front, norm, tagOf, pos, w);
      if w in Kept(front, norm, tagOf, pos) {
        var i :| 0 <= i < |front| && Keeps(norm, tagOf, pos, front[i]) && norm(front[i]) == w;
        assert lines[i] == front[i];
      }
      if exists i :: 0 <= i < |lines| && Keeps(norm, tagOf, pos, lines[i]) && norm(lines[i]) == w {
        var i :| 0 <= i < |lines| && Keeps(norm, tagOf, pos, lines[i]) && norm(lines[i]) == w;
        if i < |front| {
          assert front[i] == lines[i];
        }
      }
    }
  }

  predicate NoDuplicates(xs: seq<string>) {
    forall i, j :: 0 <= i < j < |xs| ==> xs[i] != xs[j]
  }

  /** `list(words)`: the set's words, each once, in an order of the set's own choosing. */
  method ListOf(found: set<string>) returns (words: seq<string>)
    ensures forall w :: w in words <==> w in found
    ensures NoDuplicates(words)
  {
    words := [];
    var rest := found;
    while rest != {}
      invariant forall w :: w in found <==> w in rest || w in words
      invariant forall w :: w in words ==> w !in rest
      invariant NoDuplicates(words)
      decreases |rest|
    {
      var w :| w in rest;
      words := words + [w];
      rest := rest - {w};
    }
  }

  /**
    `_load_words(pos)`: reads every line into a set, then lists the set in
    an order of its own choosing.
  */
  method LoadWords(lines: seq<string>, lower: string -> string, tagOf: string -> Option<string>, pos: string)
    returns (words: seq<string>)
    ensures forall w :: w in words <==> w in Kept(lines, Normaliser(lower), tagOf, pos)
    ensures NoDuplicates(words)
  {
    var norm := Normaliser(lower);
    var found: set<string> := {};
    for i := 0 to |lines|
      invariant found == Kept(lines[..i], norm, tagOf, pos)
    {
      assert lines[..i + 1][..i] == lines[..i];
      var word := norm(lines[i]);
      if tagOf(word) == Some(pos) {
        found := found + {word};
      }
    }
    assert lines[..|lines|] == lines;
    words := ListOf(found);
  }

  /** `_load_first_names` and `_load_last_names`: one stripped entry per line, in file order. */
  function LoadNames(lines: seq<string>): (names: seq<string>)
    ensures |names| == |lines|
    ensures forall i :: 0 <= i < |lines| ==> names[i] == Strip(lines[i]) && IsTrimmed(names[i])
  {
    seq(|lines|, i requires 0 <= i < |lines| => Strip(lines[i]))
  }

  /** The part-of-speech grammemes of the OpenCorpora tag set, as the analyser reports them. */
  const PosTags: set<string> :=
    {"NOUN", "ADJF", "ADJS", "COMP", "VERB", "INFN", "PRTF", "PRTS", "GRND", "NUMR", "ADVB", "NPRO", "PRED", "PREP", "CONJ", "PRCL", "INTJ"}

  const NounTag: string := "NOUN"
  const AdjectiveTag: string := "ADJF"
  const VerbTag: string := "VERB"

  /** The tags the source passes to `_load_words`. */
  const WrittenNounTag: string := "noun"
  const WrittenAdjectiveTag: string := "adjf"
  const WrittenVerbTag: string := "verb"

  /** An analyser whose parts of speech are OpenCorpora grammemes. */
  ghost predicate GrammemeTagger(tagOf: string -> Option<string>) {
    forall w :: tagOf(w).Some? ==> tagOf(w).value in PosTags
  }

  /** Every word kept for `pos` has `pos` as the part of speech of its first parse. */
  lemma {:induction false} KeptTagged(lines: seq<string>, norm: string -> string, tagOf: string -> Option<string>, pos: string)
    ensures forall w :: w in Kept(lines, norm, tagOf, pos) ==> tagOf(w) == Some(pos)
    decreases |lines|
  {
    if |lines| > 0 {
      KeptTagged(lines[..|lines| - 1], norm, tagOf, pos);
    }
  }

  /** A part of speech the analyser never reports keeps no line at all. */
  lemma UnreportedTagKeepsNothing(lines: seq<string>, norm: string -> string, tagOf: string -> Option<string>, pos: string)
    requires GrammemeTagger(tagOf) && pos !in PosTags
    ensures Kept(lines, norm, tagOf, pos) == {}
  {
    KeptTagged(lines, norm, tagOf, pos);
  }

  /** With the lower-case tags as written, no line is ever kept, whatever the dictionary holds. */
  lemma WrittenTagsKeepNothing(lines: seq<string>, norm: string -> string, tagOf: string -> Option<string>)
    requires GrammemeTagger(tagOf)
    ensures Kept(lines, norm, tagOf, WrittenNounTag) == {}
    ensures Kept(lines, norm, tagOf, WrittenAdjectiveTag) == {}
    ensures Kept(lines, norm, tagOf, WrittenVerbTag) == {}
  {
    UnreportedTagKeepsNothing(lines, norm, tagOf, WrittenNounTag);
    UnreportedTagKeepsNothing(lines, norm, tagOf, WrittenAdjectiveTag);
    UnreportedTagKeepsNothing(lines, norm, tagOf, WrittenVerbTag);
  }

  /**
    So a generator built with the tags as written has no nouns, and asking
    it for one phrase or more always raises.
  */
  lemma WrittenTagsNeverMakePhrases(lines: seq<string>, norm: string -> string, tagOf: string -> Option<string>,
                                    nouns: seq<string>, adjectives: seq<string>, verbs: seq<string>,
                                    o: Oracle, wordCount: int)
    requires GrammemeTagger(tagOf) && wordCount >= 1
    requires forall w :: w in nouns <==> w in Kept(lines, norm, tagOf, WrittenNounTag)
    ensures Phrases(Lexicon(nouns, adjectives, verbs), o, 0, wordCount) == None
  {
    var kept := Kept(lines, norm, tagOf, WrittenNounTag);
    assert kept == {} by {
      WrittenTagsKeepNothing(lines, norm, tagOf);
    }
    assert forall w :: w !in nouns;
    assert forall w :: w in multiset(nouns) <==> w in nouns;
    assert multiset(nouns) == multiset{};
    assert |nouns| == |multiset(nouns)| == 0;
    NoNounsNoPhrases(Lexicon(nouns, adjectives, verbs), o, 0, wordCount);
  }

  /** A one-line dictionary holding a noun: the written tag finds nothing, the grammeme finds the noun. */
  lemma WrittenTagsExample()
    ensures Kept(["кот"], s => s, w => Some(NounTag), WrittenNounTag) == {}
    ensures Kept(["кот"], s => s, w => Some(NounTag), NounTag) == {"кот"}
  {
    var lines: seq<string> := ["кот"];
    assert lines[..0] == [];
  }

  /**
    With the grammeme tags, a dictionary holding at least one noun, one
    adjective and one verb gives a generator that never raises.
  */
  lemma CorrectedTagsMakePhrases(lines: seq<string>, norm: string -> string, tagOf: string -> Option<string>,
                                 nouns: seq<string>, adjectives: seq<string>, verbs: seq<string>,
                                 o: Oracle, wordCount: int, n: nat, a: nat, v: nat)
    requires n < |lines| && Keeps(norm, tagOf, NounTag, lines[n])
    requires a < |lines| && Keeps(norm, tagOf, AdjectiveTag, lines[a])
    requires v < |lines| && Keeps(norm, tagOf, VerbTag, lines[v])
    requires forall w :: w in nouns <==> w in Kept(lines, norm, tagOf, NounTag)
    requires forall w :: w in adjectives <==> w in Kept(lines, norm, tagOf, AdjectiveTag)
    requires forall w :: w in verbs <==> w in Kept(lines, norm, tagOf, VerbTag)
    ensures Phrases(Lexicon(nouns, adjectives, verbs), o, 0, wordCount).Some?
  {
    KeptMembership(lines, norm, tagOf, NounTag, norm(lines[n]));
    KeptMembership(lines, norm, tagOf, AdjectiveTag, norm(lines[a]));
    KeptMembership(lines, norm, tagOf, VerbTag, norm(lines[v]));
    FullLexiconNeverFails(Lexicon(nouns, adjectives, verbs), o, 0, wordCount);
  }

  class ExtendedGenerator {
    const nouns: seq<string>
    const adjectives: seq<string>
    const verbs: seq<string>
    const firstNames: seq<string>
    const lastNames: seq<string>

    /**
      `__init__`: loads the three word lists from the dictionary, each for
      its part-of-speech tag, and the two name lists from their files. The
      program as written passes `WrittenNounTag`, `WrittenAdjectiveTag` and
      `WrittenVerbTag` (see `WrittenTagsNeverMakePhrases`); the corrected
      program passes `NounTag`, `AdjectiveTag` and `VerbTag` (see
      `CorrectedTagsMakePhrases`).
    */
    constructor(dictionary: seq<string>, nameLines: seq<string>, surnameLines: seq<string>,
                lower: string -> string, tagOf: string -> Option<string>,
                nounTag: string, adjectiveTag: string, verbTag: string)
      ensures forall w :: w in nouns <==> w in Kept(dictionary, Normaliser(lower), tagOf, nounTag)
      ensures forall w :: w in adjectives <==> w in Kept(dictionary, Normaliser(lower), tagOf, adjectiveTag)
      ensures forall w :: w in verbs <==> w in Kept(dictionary, Normaliser(lower), tagOf, verbTag)
      ensures NoDuplicates(nouns) && NoDuplicates(adjectives) && NoDuplicates(verbs)
      ensures firstNames == LoadNames(nameLines) && lastNames == LoadNames(surnameLines)
    {
      var n := LoadWords(dictionary, lower, tagOf, nounTag);
      var a := LoadWords(dictionary, lower, tagOf, adjectiveTag);
      var v := LoadWords(dictionary, lower, tagOf, verbTag);
      nouns, adjectives, verbs := n, a, v;
      firstNames := LoadNames(nameLines);
      lastNames := LoadNames(surnameLines);
    }

    /** The lists phrases are drawn from; fixed once the constructor has run. */
    function Lex(): Lexicon {
      Lexicon(nouns, adjectives, verbs)
    }

    /**
      `generate_random_phrase(word_count)`: the loop appending one phrase per
      iteration; it raises (`None`) at the first phrase that needs an empty list.
    */
    method GenerateRandomPhrase(wordCount: int, o: Oracle) returns (r: Option<seq<string>>)
      ensures r == Phrases(Lex(), o, 0, wordCount)
    {
      var lex := Lex();
      var phrases: seq<string> := [];
      var at: nat := 0;
      var i := 0;
      while i < wordCount
        invariant 0 <= i <= RangeLen(wordCount)
        invariant at == PhraseStart(o, 0, i)
        invariant Phrases(lex, o, 0, i) == Some(phrases)
      {
        PhrasesAppend(lex, o, 0, i);
        PhraseStartNext(o, 0, i);
        match PhraseAt(lex, o, at)
        case None =>
          PhrasesSucceedIff(lex, o, 0, wordCount);
          return None;
        case Some(p) =>
          phrases := phrases + [p];
          at := at + PhraseDraws(o, at);
          i := i + 1;
      }
      return Some(phrases);
    }

    /** `generate_random_names(count)`: raises when asked for a name and a list is empty. */
    function GenerateRandomNames(o: Oracle, count: int): (r: Option<seq<string>>)
      ensures r.Some? <==> count <= 0 || (|firstNames| > 0 && |lastNames| > 0)
      ensures r.Some? ==> |r.value| == RangeLen(count)
      ensures r.Some? ==> forall i :: 0 <= i < |r.value| ==> IsFullName(firstNames, lastNames, r.value[i])
    {
      NamesSomeIff(firstNames, lastNames, o, 0, count);
      if Names(firstNames, lastNames, o, 0, count).Some? then
        NamesAreFullNames(firstNames, lastNames, o, 0, count);
        Names(firstNames, lastNames, o, 0, count)
      else
        None
    }
  }
}
