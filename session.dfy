/**
  `RandomGenerator`, the window of the second and "Mini" programs (their
  `generate_words` and `export_history` are the same code). The combo-box
  text picks one generator; a successful call shows its result text and
  appends it to the history; the export writes every entry followed by a
  newline.
*/
module Session {
  import opened Options
  import opened Choice
  import opened Text
  import opened Synthetic
  import opened PhraseGenerator
  import opened NameGenerator
  import opened StaticGenerator
  import opened SpinBoxes

  const WordsLabel: string := "Случайные слова"
  const PhrasesLabel: string := "Словосочетания"
  const NamesLabel: string := "Случайные имена"

  /** The combo box's items, in order. */
  const Labels: seq<string> := [WordsLabel, PhrasesLabel, NamesLabel]

  datatype Mode = WordsMode | PhrasesMode | NamesMode

  /** The `if`/`elif` chain on the combo box's text; `None` when no branch matches. */
  function ModeOf(selected: string): (m: Option<Mode>)
    ensures m.Some? <==> selected in Labels
    ensures m == Some(WordsMode) <==> selected == WordsLabel
    ensures m == Some(PhrasesMode) <==> selected == PhrasesLabel
    ensures m == Some(NamesMode) <==> selected == NamesLabel
  {
    if selected == WordsLabel then Some(WordsMode)
    else if selected == PhrasesLabel then Some(PhrasesMode)
    else if selected == NamesLabel then Some(NamesMode)
    else None
  }

  /**
    The list a mode generates. In the words mode the box value is the word
    length and there are always five words; the other modes make `count` items.
  */
  function Items(m: Mode, count: int, o: Oracle): (items: seq<string>)
    ensures m == WordsMode ==> |items| == 5 && forall i :: 0 <= i < 5 ==> IsSyntheticWord(items[i], count)
    ensures m == PhrasesMode ==> |items| == RangeLen(count) && forall i :: 0 <= i < |items| ==> IsAnyPhrase(StaticLexicon, items[i])
    ensures m == NamesMode ==> |items| == RangeLen(count) && forall i :: 0 <= i < |items| ==> IsFullName(FirstNames, LastNames, items[i])
  {
    match m
    case WordsMode => RandomWords(o, 0, 5, count)
    case PhrasesMode => GenerateRandomPhrase(o, count)
    case NamesMode => GenerateRandomNames(o, count)
  }

  /** The converse of the contract of `Items`: every list that contract allows is a possible result. */
  lemma ItemsReach(m: Mode, count: int, items: seq<string>)
    requires m == WordsMode ==> |items| == 5 && forall i :: 0 <= i < 5 ==> IsSyntheticWord(items[i], count)
    requires m == PhrasesMode ==> |items| == RangeLen(count) && forall i :: 0 <= i < |items| ==> IsAnyPhrase(StaticLexicon, items[i])
    requires m == NamesMode ==> |items| == RangeLen(count) && forall i :: 0 <= i < |items| ==> IsFullName(FirstNames, LastNames, items[i])
    ensures exists o: Oracle :: Items(m, count, o) == items
  {
    match m
    case WordsMode =>
      RandomWordsReach(items, count, 0);
      var o: Oracle :| RandomWords(o, 0, |items|, count) == items;
      assert Items(m, count, o) == items;
    case PhrasesMode =>
      StaticPhrasesReach(items);
      var o: Oracle :| GenerateRandomPhrase(o, |items|) == items;
      if count < 0 {
        assert Items(m, count, o) == [] == items;
      } else {
        assert Items(m, count, o) == items;
      }
    case NamesMode =>
      var fs, ls := SplitNames(FirstNames, LastNames, items);
      StaticNamesReach(fs, ls);
      var o: Oracle :| GenerateRandomNames(o, |fs|) == Pairings(fs, ls);
      if count < 0 {
        assert Items(m, count, o) == [] == items;
      } else {
        assert Items(m, count, o) == items;
      }
  }

  /** The text of a mode's header before the count. */
  function Opening(m: Mode): string
  {
    match m
    case WordsMode => "Сгенерированы случайные слова (длина "
    case PhrasesMode => "Сгенерированы словосочетания ("
    case NamesMode => "Сгенерированы случайные имена ("
  }

  /** The text of a mode's header after the count, up to the list. */
  function Closing(m: Mode): (c: string)
    ensures |c| >= 2 && c[|c| - 2..] == ":\n"
  {
    match m
    case WordsMode => "):\n"
    case PhrasesMode | NamesMode => " шт.):\n"
  }

  /**
    The line above the list: the mode's opening, the count as an f-string
    renders it (the word length in words mode, the number of items
    otherwise), and the mode's closing, which ends with a colon and a newline.
  */
  function Header(m: Mode, count: int): (h: string)
    ensures |h| > |Opening(m)| + |Closing(m)|
    ensures h[..|Opening(m)|] == Opening(m) && h[|h| - |Closing(m)|..] == Closing(m)
    ensures h[|Opening(m)|..|h| - |Closing(m)|] == IntToString(count)
    ensures |h| >= 2 && h[|h| - 2..] == ":\n"
  {
    var a, d, c := Opening(m), IntToString(count), Closing(m);
    assert (a + d + c)[..|a|] == a;
    assert (a + d + c)[|a + d|..] == c;
    assert (a + d + c)[|a|..|a + d|] == d;
    assert (a + d + c)[|a + d + c| - 2..] == c[|c| - 2..];
    a + d + c
  }

  /** The number shown in a non-negative count's header reads back as that count. */
  lemma HeaderShowsCount(m: Mode, count: nat)
    ensures var digits := Header(m, count)[|Opening(m)|..|Header(m, count)| - |Closing(m)|];
            IsDigits(digits) && DigitsValue(digits) == count
  {
  }

  /**
    `result_text` for a selected, `render` being the list's rendering in an
    f-string; `None` when the selected matches no branch and `result_text` is
    never bound.
  */
  function ResultText(selected: string, count: int, o: Oracle, render: seq<string> -> string): (r: Option<string>)
    ensures r.Some? <==> selected in Labels
    ensures r.Some? ==> '\n' in r.value
  {
    match ModeOf(selected)
    case None => None
    case Some(m) =>
      var h := Header(m, count);
      assert (h + render(Items(m, count, o)))[|h| - 1] == '\n';
      Some(h + render(Items(m, count, o)))
  }

  const ErrorPrefix: string := "Ошибка: "

  /** The text `export_history` writes: each entry followed by a newline, in history order. */
  function ExportContent(history: seq<string>): (content: string)
    ensures history == [] <==> content == ""
    ensures history != [] ==> content[|content| - 1] == '\n'
  {
    if |history| == 0 then "" else ExportContent(history[..|history| - 1]) + history[|history| - 1] + "\n"
  }

  /** Exporting two histories one after the other writes what exporting their concatenation writes. */
  lemma {:induction false} ExportConcat(h1: seq<string>, h2: seq<string>)
    ensures ExportContent(h1 + h2) == ExportContent(h1) + ExportContent(h2)
    decreases |h2|
  {
    if |h2| > 0 {
      var h2' := h2[..|h2| - 1];
      assert (h1 + h2)[..|h1 + h2| - 1] == h1 + h2';
      ExportConcat(h1, h2');
    } else {
      assert h1 + h2 == h1;
    }
  }

  /** Each entry, in order, is followed by exactly one newline. */
  lemma ExportOfOne(e: string)
    ensures ExportContent([e]) == e + "\n"
  {
    assert [e][..0] == [];
  }

  /**
    An entry holds a newline of its own, so the exported text has at least two
    newlines per entry: it is not one line per entry.
  */
  lemma {:induction false} ExportNewlines(history: seq<string>)
    requires forall e :: e in history ==> '\n' in e
    ensures multiset(ExportContent(history))['\n'] >= 2 * |history|
    decreases |history|
  {
    if |history| > 0 {
      var front, e := history[..|history| - 1], history[|history| - 1];
      assert forall x :: x in front ==> x in history;
      ExportNewlines(front);
      assert e in history;
      assert multiset(e)['\n'] >= 1;
      assert ExportContent(history) == ExportContent(front) + e + "\n";
    }
  }

  class RandomGenerator {
    var history: seq<string>
    var resultText: string
    var countInput: SpinBox

    /** The count box keeps its 1 to 100 range and every history entry holds a newline. */
    ghost predicate Valid()
      reads this
    {
      && countInput.Valid() && countInput.minimum == 1 && countInput.maximum == 100
      && forall e :: e in history ==> '\n' in e
    }

    /** `__init__`/`init_ui`: an empty history and a count box set to 1. */
    constructor()
      ensures Valid() && history == [] && resultText == "" && countInput.value == 1
    {
      history := [];
      resultText := "";
      countInput := Configured(1, 100, 1);
    }

    /** The user enters `v` in the count box. */
    method SetCount(v: int)
      requires Valid()
      modifies this
      ensures Valid()
      ensures countInput == old(countInput).SetValue(v)
      ensures history == old(history) && resultText == old(resultText)
    {
      countInput := countInput.SetValue(v);
    }

    /**
      `generate_words` with the combo box showing `selected`. On success the
      result text is shown and appended to the history; when no branch
      matches, the error text (`unboundMessage` being Python's message for
      the unbound `result_text`) is shown and the history is left alone.
    */
    method GenerateWords(selected: string, o: Oracle, render: seq<string> -> string, unboundMessage: string)
      requires Valid()
      modifies this
      ensures Valid() && countInput == old(countInput)
      ensures match ResultText(selected, old(countInput.value), o, render)
              case Some(t) => resultText == t && history == old(history) + [t]
              case None => resultText == ErrorPrefix + unboundMessage && history == old(history)
    {
      var r := ResultText(selected, countInput.value, o, render);
      if r.Some? {
        resultText := r.value;
        history := history + [r.value];
      } else {
        resultText := ErrorPrefix + unboundMessage;
      }
    }

    /** `export_history`: the file's new content, built entry by entry. */
    method ExportHistory() returns (content: string)
      ensures content == ExportContent(history)
    {
      content := "";
      for i := 0 to |history|
        invariant content == ExportContent(history[..i])
      {
        assert history[..i + 1][..i] == history[..i];
        content := content + history[i] + "\n";
      }
      assert history[..|history|] == history;
    }
  }
}
