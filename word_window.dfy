/**
  `WordGenerator`, the first window: a count box (1 to 100, initially 1) and a
  length box (1 to 20, initially 5); pressing the button shows `count` letter
  words of the chosen length under a header that names the count. This window
  keeps no history: generating changes only the displayed text.
*/
module WordWindow {
  import opened Choice
  import opened Text
  import opened Synthetic
  import opened SpinBoxes

  datatype Window = Window(countInput: SpinBox, lengthInput: SpinBox) {
    predicate Valid() {
      && countInput.Valid() && countInput.minimum == 1 && countInput.maximum == 100
      && lengthInput.Valid() && lengthInput.minimum == 1 && lengthInput.maximum == 20
    }
  }

  /** The window as its constructor sets up the two boxes. */
  function NewWindow(): (w: Window)
    ensures w.Valid() && w.countInput.value == 1 && w.lengthInput.value == 5
  {
    Window(Configured(1, 100, 1), Configured(1, 20, 5))
  }

  const HeaderStart: string := "Сгенерированные слова ("
  const HeaderEnd: string := " шт.):\n"

  /** The line above the list: the count, as an f-string renders it. */
  function Header(count: int): (h: string)
    ensures |h| > |HeaderStart| + |HeaderEnd|
    ensures h[..|HeaderStart|] == HeaderStart && h[|h| - |HeaderEnd|..] == HeaderEnd
    ensures h[|HeaderStart|..|h| - |HeaderEnd|] == IntToString(count)
  {
    HeaderStart + IntToString(count) + HeaderEnd
  }

  /** The number shown in the header is the number of words asked for. */
  lemma HeaderShowsCount(count: nat)
    ensures var digits := Header(count)[|HeaderStart|..|Header(count)| - |HeaderEnd|];
            IsDigits(digits) && DigitsValue(digits) == count
  {
  }

  /**
    `generate_words`: the words drawn for the two box values and the text shown
    for them, `render` being the list's rendering in an f-string. With both
    boxes at least 1 nothing can raise, so the error text is never shown.
  */
  function GenerateWords(w: Window, o: Oracle, render: seq<string> -> string): (r: (seq<string>, string))
    requires w.Valid()
    ensures |r.0| == w.countInput.value
    ensures forall i :: 0 <= i < |r.0| ==> |r.0[i]| == w.lengthInput.value && IsSyntheticWord(r.0[i], w.lengthInput.value)
    ensures r.1 == Header(w.countInput.value) + render(r.0)
  {
    var words := RandomWords(o, 0, w.countInput.value, w.lengthInput.value);
    (words, Header(w.countInput.value) + render(words))
  }

  /** Word `i` of the list is the word drawn from draw `i * length` on: the words come out one after another. */
  lemma GeneratedWordsInOrder(w: Window, o: Oracle, render: seq<string> -> string, i: nat)
    requires w.Valid() && i < w.countInput.value
    ensures GenerateWords(w, o, render).0[i] == RandomWord(o, WordStart(0, i, w.lengthInput.value), w.lengthInput.value)
  {
    var count, length := w.countInput.value, w.lengthInput.value;
    assert GenerateWords(w, o, render).0 == RandomWords(o, 0, count, length);
    RandomWordsNth(o, 0, count, length, i);
  }
}
