/**
  `RandomWordGenerator`, the generator class with fixed eight-word tables.
  The phrase tables and `generate_random_phrase` belong to the second and
  "Mini" programs; the name tables are shared with the first program, whose
  class has no phrase generator. Phrases and names run the shared phrase and
  name generators on the tables.
*/
module StaticGenerator {
  import opened Options
  import opened Choice
  import opened PhraseGenerator
  import opened NameGenerator

  const StaticNouns: seq<string> := ["кот", "дом", "стол", "книга", "город", "друг", "машина", "солнце"]
  const StaticAdjectives: seq<string> := ["красный", "большой", "маленький", "яркий", "старый", "новый", "синий", "зеленый"]
  const StaticVerbs: seq<string> := ["идет", "читает", "смеется", "думает", "работает", "играет", "танцует", "поет"]
  const FirstNames: seq<string> := ["Алексей", "Мария", "Дмитрий", "Анна", "Сергей", "Екатерина", "Иван", "Ольга"]
  const LastNames: seq<string> := ["Иванов", "Петров", "Сидоров", "Кузнецов", "Смирнов", "Попов", "Зайцев", "Лебедев"]

  const StaticLexicon: Lexicon := Lexicon(StaticNouns, StaticAdjectives, StaticVerbs)

  /** Each table holds eight words, none of them repeated. */
  lemma TablesHaveEightDistinctWords()
    ensures |StaticNouns| == |StaticAdjectives| == |StaticVerbs| == |FirstNames| == |LastNames| == 8
    ensures forall i, j :: 0 <= i < j < 8 ==> StaticNouns[i] != StaticNouns[j] && StaticAdjectives[i] != StaticAdjectives[j]
    ensures forall i, j :: 0 <= i < j < 8 ==> StaticVerbs[i] != StaticVerbs[j] && FirstNames[i] != FirstNames[j] && LastNames[i] != LastNames[j]
  {
  }

  /** `generate_random_phrase(word_count)`: never raises, as no table is empty. */
  function GenerateRandomPhrase(o: Oracle, wordCount: int): (ps: seq<string>)
    ensures |ps| == RangeLen(wordCount)
    ensures forall i :: 0 <= i < |ps| ==> IsAnyPhrase(StaticLexicon, ps[i])
  {
    FullLexiconNeverFails(StaticLexicon, o, 0, wordCount);
    PhrasesShape(StaticLexicon, o, 0, wordCount);
    Phrases(StaticLexicon, o, 0, wordCount).value
  }

  /** `generate_random_names(count)`: never raises, as both name tables are non-empty. */
  function GenerateRandomNames(o: Oracle, count: int): (ns: seq<string>)
    ensures |ns| == RangeLen(count)
    ensures forall i :: 0 <= i < |ns| ==> IsFullName(FirstNames, LastNames, ns[i])
  {
    NamesSomeIff(FirstNames, LastNames, o, 0, count);
    NamesAreFullNames(FirstNames, LastNames, o, 0, count);
    Names(FirstNames, LastNames, o, 0, count).value
  }

  /** `generate_random_name()` of the first window: one first and one last name. */
  function GenerateRandomName(o: Oracle): (n: string)
    ensures IsFullName(FirstNames, LastNames, n)
  {
    NameAt(FirstNames, LastNames, o, 0).value
  }

  /** The phrases are the first `n` iterations of the shared phrase generator, in order. */
  lemma GenerateRandomPhraseNth(o: Oracle, wordCount: int, j: nat)
    requires j < RangeLen(wordCount)
    ensures PhraseAt(StaticLexicon, o, PhraseStart(o, 0, j)) == Some(GenerateRandomPhrase(o, wordCount)[j])
  {
    FullLexiconNeverFails(StaticLexicon, o, 0, wordCount);
    PhrasesNth(StaticLexicon, o, 0, wordCount, j);
  }

  /** Every list of phrases over the fixed tables is a possible result of `generate_random_phrase`. */
  lemma StaticPhrasesReach(ps: seq<string>)
    requires forall j :: 0 <= j < |ps| ==> IsAnyPhrase(StaticLexicon, ps[j])
    ensures exists o: Oracle :: GenerateRandomPhrase(o, |ps|) == ps
  {
    PhrasesReach(StaticLexicon, ps, 0);
    var o: Oracle :| Phrases(StaticLexicon, o, 0, |ps|) == Some(ps);
    assert GenerateRandomPhrase(o, |ps|) == ps;
  }

  /** Every list of pairings of a listed first name with a listed last name is a possible result of `generate_random_names`. */
  lemma StaticNamesReach(fs: seq<string>, ls: seq<string>)
    requires |fs| == |ls|
    requires forall j :: 0 <= j < |fs| ==> fs[j] in FirstNames && ls[j] in LastNames
    ensures exists o: Oracle :: GenerateRandomNames(o, |fs|) == Pairings(fs, ls)
  {
    NamesReach(FirstNames, LastNames, fs, ls, 0);
    var o: Oracle :| Names(FirstNames, LastNames, o, 0, |fs|) == Some(Pairings(fs, ls));
    assert GenerateRandomNames(o, |fs|) == Pairings(fs, ls);
  }

  /** Every pairing of a listed first name with a listed last name is a possible result of `generate_random_name`. */
  lemma StaticNameReaches(f: string, l: string)
    requires f in FirstNames && l in LastNames
    ensures exists o: Oracle :: GenerateRandomName(o) == f + " " + l
  {
    NameReaches(FirstNames, LastNames, f, l, 0);
    var o: Oracle :| NameAt(FirstNames, LastNames, o, 0) == Some(f + " " + l);
    assert GenerateRandomName(o) == f + " " + l;
  }
}
