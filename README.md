# Random word, phrase and name generator — a Dafny model

The repository is four single-file PyQt programs. Each is a "random word
generator" window. Under the widgets they share one small engine:

- **Synthetic words.** `generate_random_word(length)` joins `length` letters
  drawn from `a`–`z`. `generate_random_words(count, length)` repeats it.
- **Phrases.** Each phrase picks one of three forms: adjective + noun,
  noun + verb, or adjective + noun + verb. It fills each slot with a word
  drawn from that category's list and joins the words with single spaces.
  In the second and "Mini" programs the lists are fixed eight-word
  tables. The first program has no phrase generator; it shares only the
  name tables and the synthetic words. In the third they are loaded from a
  dictionary file, filtered by the part of speech a morphological analyser
  reports, in no defined order.
- **Names.** A first name and a last name joined by a space.
- **Session** (second and "Mini" programs). The combo-box text picks a
  generator and the spin-box value is the count. In the words mode that
  value is the word *length* and five words are made. A successful
  generation shows `result_text` and appends it to the history. The export
  writes every history entry followed by a newline.
- **First window.** A count box (1–100) and a length box (1–20). It shows
  the words under a header and keeps no history.
- **Dictionary lexicon** (third program). The constructor loads the three
  word lists through `_load_words(pos)` and the two name lists from their
  files. In the model the three part-of-speech tags are constructor
  parameters. The program as written passes `'noun'`, `'adjf'` and
  `'verb'`, and with an analyser that reports OpenCorpora grammemes those
  lists stay empty (see "## Findings"). Passing `'NOUN'`, `'ADJF'` and
  `'VERB'` gives the corrected program.

## How randomness is modelled

Every call to `random.choice` is one *draw* from a choice sequence
`o: nat -> nat` (module `Choice`). Draw `k` is `o(k)`. The generators pass
a cursor `at` along: a word of `length` letters takes `length` draws, a
name takes two, and a phrase takes one draw for its shape plus one per
word. `Pick` reads the chosen index. It is `None` on an empty list, where
`random.choice` raises.

Every property below holds for every choice sequence. The converse is
proved too: every output the contracts allow is produced by some choice
sequence. For one generated item this is `RandomWordReaches`, `PhraseReaches` and
`NameReaches`. For whole lists it is `RandomWordsReach`, `PhrasesReach`,
`NamesReach`, the three `Static...Reach...` lemmas and `Session.ItemsReach`.
So those contracts are exact, not just upper bounds.

A list comprehension `[make() for _ in range(n)]` whose iterations consume
draws is modelled by `Repeat.Run`. Phrases and names are instances of it.
`range(n)` with a negative `n` is empty (`Choice.RangeLen`).

## Notes on the code

- **Export format.** The export writes `entry + "\n"` for every history
  entry, and every entry already holds a newline after its header. So the
  file is not one line per entry. `Session.ExportNewlines` proves at least
  two newlines per entry.
- **Parameter checks.** The generators do not check counts or lengths
  again. They rely on the spin boxes' ranges, and the model bounds the
  values through `SpinBoxes`.
- **Words mode.** In the words mode of the second and "Mini" windows the
  single spin-box value is the word length, and there are always five words.
- **Errors.** The fixed tables are never empty, so no generator of the
  second and "Mini" windows raises. The window's non-editable combo box
  always shows one of its three items, so the no-match branch is not
  reachable from the window either. `Session.RandomGenerator.GenerateWords`
  accepts any text, which is a superset of what the window can pass. For
  text that matches no branch, `result_text` is unbound and the error text
  is shown.

## Model

| member | source | states |
|---|---|---|
| Choice.Pick | Random_Word_Generator-3.py:59-61 | `random.choice(xs)` yields a value exactly when `xs` is non-empty, and that value is an element of `xs` |
| Choice.PickReaches | Random_Word_Generator-2-Mini.py:30-34 | every element of a list is the result of some draw |
| Text.Strip | Random_Word_Generator-3.py:28 | `str.strip()` leaves no Python whitespace at either end |
| Text.StripKeepsMiddle | Random_Word_Generator-3.py:28 | `strip` keeps one contiguous piece of its input and removes only whitespace around it |
| Text.StripIdempotent | Random_Word_Generator-3.py:28 | stripping twice is the same as stripping once |
| Text.NatToString | Random_Word_Generator-2-Mini.py:124 | the f-string rendering of a count is a non-empty run of decimal digits with no leading zero (a lone `0` for zero) |
| Text.NatToStringValue | Random_Word_Generator-1.py:92 | the digits shown for a count read back as that count |
| Text.IntToString | Random_Word_Generator-2-Mini.py:124 | `{count}` in an f-string is the decimal digits of the value with no leading zero (a lone `0` for zero), after a minus sign exactly when it is negative, and the digits read back as the value |
| Synthetic.AlphabetLetters | Random_Word_Generator-2-Mini.py:18 | `string.ascii_lowercase` is the 26 letters `a` to `z` in order |
| Synthetic.RandomWord | Random_Word_Generator-2-Mini.py:14-19 | a generated word has exactly `length` characters (none for a negative length), all lower-case ASCII letters |
| Synthetic.RandomWordAt | Random_Word_Generator-2.py:27 | letter `k` is the letter named by draw `at + k`, so the letters are drawn left to right |
| Synthetic.RandomWordReaches | Random_Word_Generator-2.py:26-27 | every string of `length` lower-case letters is a possible result |
| Synthetic.RandomWords | Random_Word_Generator-1.py:33-37 | `count` words (none for a negative count), each of `length` lower-case letters |
| Synthetic.RandomWordsNth | Random_Word_Generator-1.py:37 | word `i` is drawn from draw `i * length` on, so the words come in generation order |
| Synthetic.RandomWordDrawn | Random_Word_Generator-2.py:26-27 | draws naming each letter of a lower-case word make exactly that word |
| Synthetic.RandomWordsDrawn | Random_Word_Generator-1.py:33-37 | draws naming the letters of each word in turn make exactly that list of words |
| Synthetic.RandomWordsReach | Random_Word_Generator-1.py:33-37 | every list of `count` words of `length` lower-case letters is a possible result |
| Repeat.Run | Random_Word_Generator-2-Mini.py:36 | a comprehension that returns has exactly `len(range(count))` results |
| Repeat.RunNth | Random_Word_Generator-2-Mini.py:36 | result `j` is what iteration `j` made, starting where iteration `j - 1` stopped drawing |
| Repeat.RunFailsAt | Random_Word_Generator-3.py:57-63 | when any iteration raises, the whole comprehension raises |
| Repeat.RunSucceeds | Random_Word_Generator-3.py:57-63 | when no iteration raises, the comprehension returns |
| Repeat.RunSomeIff | Random_Word_Generator-3.py:57-63 | the comprehension returns if and only if none of its iterations raises |
| Repeat.StartNext | Random_Word_Generator-3.py:57-63 | iteration `n + 1` starts right after the draws of iteration `n` |
| Repeat.RunCons | Random_Word_Generator-2-Mini.py:36 | a first result followed by the results of `n` more iterations is the comprehension of `n + 1` |
| Repeat.RunYields | Random_Word_Generator-2-Mini.py:36 | when iteration `j` makes `xs[j]` for every `j`, the comprehension returns exactly `xs` |
| Repeat.RunAppend | Random_Word_Generator-3.py:63 | one more iteration appends its result at the end and leaves earlier results unchanged, or raises |
| Repeat.StartUniform | Random_Word_Generator-2-Mini.py:45 | when each iteration takes `w` draws, iteration `n` starts `n * w` draws in |
| PhraseGenerator.Slots | Random_Word_Generator-2-Mini.py:29-33 | each of the three phrase forms has two or three slots, and one of them is a noun |
| PhraseGenerator.ShapeAtIsPick | Random_Word_Generator-2-Mini.py:29-34 | the form is `random.choice` over the three-entry list of forms |
| PhraseGenerator.AllFillableMeans | Random_Word_Generator-3.py:58-62 | a form can be filled exactly when none of its categories has an empty list |
| PhraseGenerator.FillSlots | Random_Word_Generator-2-Mini.py:30-34 | the slots are filled exactly when every slot's list is non-empty, and each word then comes from its slot's list |
| PhraseGenerator.FillSlotsReaches | Random_Word_Generator-2-Mini.py:30-34 | any choice of one word per slot from the slot lists is drawn by some sequence |
| PhraseGenerator.FilledSlotsArePhrase | Random_Word_Generator-2-Mini.py:30-34 | filled slots joined by spaces are `adj + " " + noun`, `noun + " " + verb` or `adj + " " + noun + " " + verb` |
| PhraseGenerator.PhraseAt | Random_Word_Generator-2-Mini.py:29-36 | one iteration yields a phrase exactly when the form it picked has no empty list |
| PhraseGenerator.PhraseAtShape | Random_Word_Generator-2-Mini.py:30-34 | the phrase one iteration yields has the picked form, with every word from its slot's list |
| PhraseGenerator.PhraseScriptDraws | Random_Word_Generator-2-Mini.py:29-34 | a phrase's draws name the form's position among the three forms, then each word's position in its slot's list, left to right |
| PhraseGenerator.PhraseDrawn | Random_Word_Generator-2-Mini.py:29-36 | draws naming a form and then each word's position in its slot's list make exactly that phrase |
| PhraseGenerator.PhraseWordsReachable | Random_Word_Generator-2-Mini.py:29-36 | for any form and any slot words, some draw sequence picks that form and those words |
| PhraseGenerator.PhraseWords | Random_Word_Generator-2.py:38-41 | a phrase of a form is its slot words, one from each slot's list, joined by spaces |
| PhraseGenerator.PhraseReaches | Random_Word_Generator-2.py:38-44 | every phrase of every form, with any words from the slot lists, is a possible result |
| PhraseGenerator.PhrasesCons | Random_Word_Generator-3.py:57-63 | a first phrase followed by `n` phrases drawn after it is the list of `n + 1` phrases |
| PhraseGenerator.PhraseScriptFor | Random_Word_Generator-2.py:38-44 | for every phrase of one of the forms there are draws that make exactly it, whatever the other draws are |
| PhraseGenerator.PhrasesScript | Random_Word_Generator-2.py:34-44 | for every list of phrases of the three forms there are draws that make exactly that list |
| PhraseGenerator.PhrasesReach | Random_Word_Generator-2.py:34-44 | every list of phrases, each of one of the three forms over the lists, is a possible result |
| PhraseGenerator.Phrases | Random_Word_Generator-2-Mini.py:36 | a successful call returns exactly `word_count` phrases |
| PhraseGenerator.PhrasesSucceedIff | Random_Word_Generator-3.py:56-64 | a call raises exactly when some iteration picks a form that needs an empty list |
| PhraseGenerator.NoNounsNoPhrases | Random_Word_Generator-3.py:59-61 | with no nouns, asking for one phrase or more always raises, because every form has a noun |
| PhraseGenerator.FullLexiconAvailable | Random_Word_Generator-2-Mini.py:25-33 | with all three lists non-empty, every form can be filled |
| PhraseGenerator.FullLexiconNeverFails | Random_Word_Generator-2-Mini.py:25-36 | with all three lists non-empty, the phrase generator never raises |
| PhraseGenerator.PhrasesNth | Random_Word_Generator-2-Mini.py:36 | phrase `j` is what iteration `j` made, so the list is in generation order |
| PhraseGenerator.PhraseStartNext | Random_Word_Generator-3.py:57-63 | phrase `n + 1` starts right after the draws of phrase `n` |
| PhraseGenerator.PhrasesAppend | Random_Word_Generator-3.py:63 | one more iteration appends one phrase at the end and keeps the earlier ones, or raises |
| PhraseGenerator.PhrasesShape | Random_Word_Generator-2-Mini.py:26-36 | every returned phrase has one of the three forms, with each word from its slot's list |
| NameGenerator.NameAt | Random_Word_Generator-1.py:24-30 | a name is made exactly when both lists are non-empty, and it is a first name, a space and a last name from the lists |
| NameGenerator.NameReaches | Random_Word_Generator-1.py:30 | every pairing of a listed first name with a listed last name is a possible result |
| NameGenerator.Names | Random_Word_Generator-2-Mini.py:39-45 | a successful call returns exactly `count` names |
| NameGenerator.NamesSomeIff | Random_Word_Generator-3.py:66-70 | a call raises exactly when at least one name is asked for and a list is empty |
| NameGenerator.NamesNth | Random_Word_Generator-2-Mini.py:45 | name `j` is drawn at draws `2j` and `2j + 1`, in generation order |
| NameGenerator.NamesAreFullNames | Random_Word_Generator-2.py:51-53 | every returned entry is `f + " " + l` with `f` from the first names and `l` from the last names |
| NameGenerator.NameDrawn | Random_Word_Generator-1.py:30 | draws naming a first name and then a last name make that full name |
| NameGenerator.NamesReach | Random_Word_Generator-2.py:51-53 | every list of pairings of a listed first name with a listed last name is a possible result |
| NameGenerator.SplitNames | Random_Word_Generator-2.py:53 | a list of full names is the pairing of a list of listed first names with a list of listed last names |
| StaticGenerator.TablesHaveEightDistinctWords | Random_Word_Generator-2-Mini.py:25-44 | each of the five fixed tables holds eight different words |
| StaticGenerator.GenerateRandomPhrase | Random_Word_Generator-2.py:30-44 | never raises, returns `word_count` phrases, each of one of the three forms over the fixed tables |
| StaticGenerator.GenerateRandomPhraseNth | Random_Word_Generator-2.py:44 | phrase `j` is what iteration `j` of the shared phrase generator made |
| StaticGenerator.GenerateRandomNames | Random_Word_Generator-2.py:47-53 | never raises, returns `count` names, each a listed first name and a listed last name |
| StaticGenerator.GenerateRandomName | Random_Word_Generator-1.py:24-30 | one listed first name, a space and one listed last name |
| StaticGenerator.StaticPhrasesReach | Random_Word_Generator-2.py:30-44 | every list of phrases over the fixed tables is a possible result of `generate_random_phrase` |
| StaticGenerator.StaticNamesReach | Random_Word_Generator-2.py:47-53 | every list of pairings of a listed first name with a listed last name is a possible result of `generate_random_names` |
| StaticGenerator.StaticNameReaches | Random_Word_Generator-1.py:24-30 | every pairing of a listed first name with a listed last name is a possible result of `generate_random_name` |
| SpinBoxes.SpinBox.SetValue | Random_Word_Generator-2-Mini.py:96 | the new value is the requested one when it is in range, otherwise the nearer bound; the range is unchanged |
| SpinBoxes.SpinBox.SetRange | Random_Word_Generator-2-Mini.py:95 | the box takes the new range and keeps its value when that value is inside it |
| SpinBoxes.Configured | Random_Word_Generator-1.py:65-67 | a box set up with range `lo..hi` and an in-range value holds that value |
| SpinBoxes.TypedKeepsRange | Random_Word_Generator-2.py:102-104 | whatever the user types, the box keeps its range and its value stays inside it |
| WordWindow.NewWindow | Random_Word_Generator-1.py:65-74 | the count box spans 1–100 with value 1, and the length box spans 1–20 with value 5 |
| WordWindow.Header | Random_Word_Generator-1.py:92 | the header is the fixed opening, the f-string rendering of the count, and the fixed closing with its newline |
| WordWindow.HeaderShowsCount | Random_Word_Generator-1.py:92 | the number in the header is the number of words asked for |
| WordWindow.GenerateWords | Random_Word_Generator-1.py:84-95 | `count` words of `length` lower-case letters, shown under the header naming the count |
| WordWindow.GeneratedWordsInOrder | Random_Word_Generator-1.py:91 | word `i` is drawn from draw `i * length` on |
| Session.ItemsReach | Random_Word_Generator-2-Mini.py:122-132 | every list the contract of `Items` allows for a mode is a possible result |
| Session.ModeOf | Random_Word_Generator-2-Mini.py:122-132 | the text selects a branch exactly when it is one of the three combo-box items, each item its own branch |
| Session.Items | Random_Word_Generator-2-Mini.py:122-132 | words mode gives 5 words of length `count`; phrase mode gives `count` phrases and names mode `count` names, all from the fixed tables |
| Session.Header | Random_Word_Generator-2-Mini.py:124-132 | the header is the mode's fixed opening, the f-string rendering of `count` (the word length in words mode, the number of items otherwise), and the mode's fixed closing, which ends with a colon and a newline |
| Session.HeaderShowsCount | Random_Word_Generator-2-Mini.py:124-132 | the number in the header reads back as the spin-box value |
| Session.ResultText | Random_Word_Generator-2.py:119-133 | `result_text` is bound exactly when the text is one of the three items, and then it holds a newline |
| Session.ExportContent | Random_Word_Generator-2-Mini.py:177-179 | the content is empty exactly for an empty history, and otherwise ends with a newline |
| Session.ExportConcat | Random_Word_Generator-2-Mini.py:177-179 | the export of a concatenated history is the concatenation of the two exports |
| Session.ExportOfOne | Random_Word_Generator-2-Mini.py:179 | an entry is written followed by one newline |
| Session.ExportNewlines | Random_Word_Generator-2.py:180-182 | an export of entries that each hold a newline has at least two newlines per entry |
| Session.RandomGenerator.constructor | Random_Word_Generator-2-Mini.py:51-56 | the history starts empty and the count box spans 1–100 with value 1 |
| Session.RandomGenerator.SetCount | Random_Word_Generator-2-Mini.py:94-96 | typing in the count box changes only its value, which stays within 1–100 |
| Session.RandomGenerator.GenerateWords | Random_Word_Generator-2-Mini.py:114-137 | on success, `result_text` is shown and appended as the one new last history entry; otherwise the error text is shown and the history is unchanged |
| Session.RandomGenerator.ExportHistory | Random_Word_Generator-2-Mini.py:173-179 | the written content is every history entry followed by a newline, in append order; the state is unchanged, so two exports with no generation in between write the same content |
| DictionaryLexicon.NormaliserIgnoresSpace | Random_Word_Generator-3.py:28 | whitespace around a word never changes what `word.strip().lower()` makes of it |
| DictionaryLexicon.Kept | Random_Word_Generator-3.py:25-31 | the set built from the lines holds at most one word per line |
| DictionaryLexicon.KeptMembership | Random_Word_Generator-3.py:21-32 | a word is loaded exactly when some line, stripped and lower-cased, is that word and its first parse has the requested part of speech |
| DictionaryLexicon.KeptTagged | Random_Word_Generator-3.py:29-31 | every loaded word has the requested part of speech |
| DictionaryLexicon.ListOf | Random_Word_Generator-3.py:32 | `list(words)` holds every word of the set exactly once |
| DictionaryLexicon.LoadWords | Random_Word_Generator-3.py:21-32 | the list holds exactly the words of the set built from the lines, each once |
| DictionaryLexicon.LoadNames | Random_Word_Generator-3.py:34-50 | one stripped entry per line, in file order, duplicates kept |
| DictionaryLexicon.UnreportedTagKeepsNothing | Random_Word_Generator-3.py:29-31 | a part of speech the analyser never reports keeps no word at all |
| DictionaryLexicon.WrittenTagsKeepNothing | Random_Word_Generator-3.py:15-17 | with the tags as written and an analyser reporting OpenCorpora grammemes, all three word lists are empty |
| DictionaryLexicon.WrittenTagsNeverMakePhrases | Random_Word_Generator-3.py:52-64 | with the tags as written, asking for one phrase or more always raises |
| DictionaryLexicon.WrittenTagsExample | Random_Word_Generator-3.py:15 | a one-line dictionary holding the noun "кот": tag `noun` keeps nothing, tag `NOUN` keeps "кот" |
| DictionaryLexicon.CorrectedTagsMakePhrases | Random_Word_Generator-3.py:11-19 | with the grammeme tags, a dictionary with at least one noun, adjective and verb gives a generator that never raises |
| DictionaryLexicon.ExtendedGenerator.constructor | Random_Word_Generator-3.py:11-19 | for the three part-of-speech tags it is given, each word list holds exactly the dictionary words the analyser gives that tag, without duplicates; the name lists are the loaded name files. Given `'noun'`, `'adjf'` and `'verb'` it is the constructor as written, and given the grammemes it is the corrected one |
| DictionaryLexicon.ExtendedGenerator.GenerateRandomPhrase | Random_Word_Generator-3.py:52-64 | the loop returns what the phrase comprehension over the loaded lists returns, raising at the first phrase that needs an empty list |
| DictionaryLexicon.ExtendedGenerator.GenerateRandomNames | Random_Word_Generator-3.py:66-70 | raises exactly when a name is asked for and a list is empty; otherwise `count` names from the loaded lists |

## Left out

- Widgets, layout, themes, help and message boxes, the splash screen
  (timer, progress bar, title animation, sound, matplotlib) and the
  application entry points: these are presentation only.
- File I/O. The dictionary and name files are sequences of lines, and the
  export is the content it would write. Opening, overwriting and failing to
  open files are not modelled.
- The morphological analyser and Unicode lower-casing are parameters. The
  model does not say which words pymorphy2 tags as what.
- Python's list `repr` inside `result_text` is a parameter (`render`). So is
  the message of the unbound-variable error, which differs between Python
  versions.
- The distribution of `random.choice` and Python's generator. The model
  quantifies over every choice sequence instead.
- Choice.Draw: a draw that is out of range for its list counts as index 0.
  Python's `random.choice` never produces one, so nothing observable depends
  on this.
- Qt's spin boxes are modelled only by their documented range and clamping
  behaviour.
- The third program's window, beyond line 118, is not part of this model.

## Findings

| source | as written | input that shows it | evidently intended | confidence | as-written member | corrected member |
|---|---|---|---|---|---|---|
| Random_Word_Generator-3.py:15-17 | `_load_words` is called with `'noun'`, `'adjf'` and `'verb'`. pymorphy2 reports `tag.POS` as upper-case OpenCorpora grammemes (`'NOUN'`, `'ADJF'`, `'VERB'`), so the comparison never holds | a dictionary holding the line `кот`, which the analyser tags `NOUN`: the noun list stays empty, and `generate_random_phrase(1)` raises because `random.choice` gets an empty list | compare against `'NOUN'`, `'ADJF'` and `'VERB'`, so that the dictionary's words are loaded | high; not executed | DictionaryLexicon.WrittenTagsNeverMakePhrases | DictionaryLexicon.CorrectedTagsMakePhrases |

`DictionaryLexicon.ExtendedGenerator.constructor` takes the three tags as
parameters. With `WrittenNounTag`, `WrittenAdjectiveTag` and
`WrittenVerbTag` it builds the generator as written, whose lists
`WrittenTagsKeepNothing` shows empty. With `NounTag`, `AdjectiveTag` and
`VerbTag` it builds the corrected one, which `CorrectedTagsMakePhrases`
covers.
