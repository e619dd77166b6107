/**
  Synthetic words: strings of random lower-case Latin letters
  (`generate_random_word` and `generate_random_words`).
*/
module Synthetic {
  import opened Choice

  /** `string.ascii_lowercase`. */
  const Alphabet: string := "abcdefghijklmnopqrstuvwxyz"

  predicate IsLowercaseAscii(c: char) {
    'a' <= c <= 'z'
  }

  /** A word that `generate_random_word(length)` can return. */
  predicate IsSyntheticWord(w: string, length: int) {
    |w| == RangeLen(length) && forall k :: 0 <= k < |w| ==> IsLowercaseAscii(w[k])
  }

  /** The alphabet is the 26 letters `a`..`z` in order. */
  lemma AlphabetLetters()
    ensures |Alphabet| == 26
    ensures forall i :: 0 <= i < 26 ==> Alphabet[i] == ('a' as int + i) as char
  {
  }

  /** The position of a lower-case letter in the alphabet (0 for any other character). */
  function LetterIndex(c: char): (i: nat)
    ensures IsLowercaseAscii(c) ==> i < 26 && Alphabet[i] == c
  {
    AlphabetLetters();
    if IsLowercaseAscii(c) then c as int - 'a' as int else 0
  }

  /**
    `''.join(random.choice(letters) for _ in range(length))`, drawing letter `k`
    at draw `at + k`.
  */
  function RandomWord(o: Oracle, at: nat, length: int): (w: string)
    ensures IsSyntheticWord(w, length)
    decreases RangeLen(length)
  {
    AlphabetLetters();
    if length <= 0 then "" else [Alphabet[Draw(o, at, 26)]] + RandomWord(o, at + 1, length - 1)
  }

  /** Letter `k` of a random word is the letter named by draw `at + k`. */
  lemma {:induction false} RandomWordAt(o: Oracle, at: nat, length: int, k: nat)
    requires k < RangeLen(length)
    ensures RandomWord(o, at, length)[k] == Alphabet[Draw(o, at + k, 26)]
    decreases RangeLen(length)
  {
    if k > 0 {
      RandomWordAt(o, at + 1, length - 1, k - 1);
    }
  }

  /** The draws that name the letters of `w`, left to right. */
  function WordScript(w: string): (picks: seq<nat>)
    ensures |picks| == |w|
  {
    seq(|w|, i requires 0 <= i < |w| => LetterIndex(w[i]))
  }

  /** Draws that name each letter of a lower-case word make exactly that word. */
  lemma RandomWordDrawn(w: string, length: int, o: Oracle, at: nat)
    requires IsSyntheticWord(w, length) && Follows(o, at, WordScript(w))
    ensures RandomWord(o, at, length) == w
  {
    var r := RandomWord(o, at, length);
    forall k | 0 <= k < |w| ensures r[k] == w[k] {
      RandomWordAt(o, at, length, k);
      assert o(at + k) == WordScript(w)[k] == LetterIndex(w[k]);
      DrawOfSmall(o, at + k, 26);
    }
  }

  /**
    Every word of `length` lower-case letters is a possible result: the
    generator reaches the whole of its range, not only part of it.
  */
  lemma RandomWordReaches(w: string, at: nat)
    requires IsSyntheticWord(w, |w|)
    ensures exists o: Oracle :: RandomWord(o, at, |w|) == w
  {
    var o := Scripted(at, WordScript(w));
    RandomWordDrawn(w, |w|, o, at);
  }

  /**
    `[generate_random_word(length) for _ in range(count)]`: `count` words in
    generation order, word `i` drawn right after word `i - 1`.
  */
  function RandomWords(o: Oracle, at: nat, count: int, length: int): (ws: seq<string>)
    ensures |ws| == RangeLen(count)
    ensures forall i :: 0 <= i < |ws| ==> IsSyntheticWord(ws[i], length)
    decreases RangeLen(count)
  {
    if count <= 0 then []
    else [RandomWord(o, at, length)] + RandomWords(o, at + RangeLen(length), count - 1, length)
  }

  /** The draw at which word `i` of a list of words of `length` letters starts, the list starting at draw `at`. */
  function WordStart(at: nat, i: nat, length: int): nat {
    at + i * RangeLen(length)
  }

  /** Word `i` of a list starts where word `i - 1` of the list that starts one word later does. */
  lemma WordStartNext(at: nat, i: nat, length: int)
    requires i > 0
    ensures WordStart(at + RangeLen(length), i - 1, length) == WordStart(at, i, length)
  {
    var len := RangeLen(length);
    assert (i - 1) * len + len == i * len;
  }

  /** Past the first word, the list is the list of one word fewer drawn from the next word's start. */
  lemma RandomWordsTail(o: Oracle, at: nat, count: int, length: int, i: nat)
    requires 0 < i < RangeLen(count)
    ensures RandomWords(o, at, count, length)[i] == RandomWords(o, at + RangeLen(length), count - 1, length)[i - 1]
  {
  }

  /** Word `i` of the list is the word whose letters start `i * length` draws in: the words are drawn one after another. */
  lemma {:induction false} RandomWordsNth(o: Oracle, at: nat, count: int, length: int, i: nat)
    requires i < RangeLen(count)
    ensures RandomWords(o, at, count, length)[i] == RandomWord(o, WordStart(at, i, length), length)
    decreases i
  {
    if i > 0 {
      WordStartNext(at, i, length);
      RandomWordsNth(o, at + RangeLen(length), count - 1, length, i - 1);
      RandomWordsTail(o, at, count, length, i);
    }
  }

  /** The draws that name every letter of every word of `ws`, word after word. */
  function WordsScript(ws: seq<string>): seq<nat> {
    if |ws| == 0 then [] else WordScript(ws[0]) + WordsScript(ws[1..])
  }

  /** Draws that name the letters of each word in turn make exactly that list of words. */
  lemma {:induction false} RandomWordsDrawn(ws: seq<string>, length: int, o: Oracle, at: nat)
    requires forall i :: 0 <= i < |ws| ==> IsSyntheticWord(ws[i], length)
    requires Follows(o, at, WordsScript(ws))
    ensures RandomWords(o, at, |ws|, length) == ws
    decreases |ws|
  {
    if |ws| > 0 {
      FollowsSplit(o, at, WordScript(ws[0]), WordsScript(ws[1..]));
      RandomWordDrawn(ws[0], length, o, at);
      assert |WordScript(ws[0])| == RangeLen(length);
      RandomWordsDrawn(ws[1..], length, o, at + RangeLen(length));
      assert ws == [ws[0]] + ws[1..];
    }
  }

  /**
    The converse of `RandomWords`' contract: every list of `count` words of
    `length` lower-case letters is a possible result.
  */
  lemma RandomWordsReach(ws: seq<string>, length: int, at: nat)
    requires forall i :: 0 <= i < |ws| ==> IsSyntheticWord(ws[i], length)
    ensures exists o: Oracle :: RandomWords(o, at, |ws|, length) == ws
  {
    var o := Scripted(at, WordsScript(ws));
    RandomWordsDrawn(ws, length, o, at);
  }
}
