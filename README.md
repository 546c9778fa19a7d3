# Animal symptom danger predictor: the submission and advice path

This project models the decision path behind the Predict button of the
Streamlit page in `app.py`:

- The five symptom pickers are collected into `picks`. A submission is
  refused, with an error message and no inference, when no animal is chosen
  or fewer than three symptoms are picked.
- An accepted submission becomes the six-field record
  `[animal, symptom1..symptom5]`, with an empty picker sent as `""`.
- The record is classified and labelled `Dangerous` exactly when the class
  is 1.
- Under a `Dangerous` label, each picked symptom, in slot order, is
  lower-cased and looked up in the `advice_map` dictionary literal. A hit
  renders the line `- **<Title Case symptom>**: <advice>`. A miss is skipped
  silently.

Modules:

- `Wrappers` holds `Option` (the "nothing selected" sentinel) and `Result`.
- `Ascii` holds `str.lower` and `str.title` over ASCII.
- `AdviceTable` holds the 89 entries of `advice_map`, in source order, and
  the left-to-right fold that builds the dictionary.
- `Submission` holds the pickers, the picked symptoms, the validation rule
  and the record.
- `Advisory` holds the lookup and the advice loop.
- `Prediction` holds the whole handler.

The advice prose is opaque. `Text(n)` stands for the text of the entry whose
key is written on line `n` of `app.py`. Every text in the literal is a
non-empty string, so the loop's `if advice:` test is the same as "the key is
present".

Two facts about `advice_map` are proved here:

- Six keys are written twice: `hair loss`, `difficulty breathing`, `wounds`,
  `burns`, `choking` and `allergic reaction`. Python keeps the text of the
  second entry, and the text of the first is never shown. `seizures`
  (line 169) and `seizures/fits` (line 494) are different keys, so neither
  overrides the other.
- The key `'CPR/cardiac arrest'` holds upper-case letters, while every lookup
  key is a lower-cased symptom. So its advice can never be shown.

## Model

| member | source | states |
|---|---|---|
| `Submission.CollectPicks` | app.py:63-70 | `picks` has exactly five slots; slot i holds what picker i+1 holds |
| `Submission.Selected` | app.py:79 | the picked symptoms are the picks minus every `None`; their count is five minus the number of empty pickers; a string is picked iff some slot holds it |
| `Submission.SelectedConcat` | app.py:79 | selection distributes over concatenation, so slot order is kept |
| `Submission.SelectedAt` | app.py:79 | a symptom picked in slot i sits right after the symptoms picked in earlier slots |
| `Submission.Rejects` | app.py:80 | a submission is refused iff no animal is chosen or more than two of the five pickers are empty |
| `Submission.Validate` | app.py:79-81 | the submission fails, with the message shown, iff no animal is chosen or fewer than three symptoms are picked; otherwise it yields the picked symptoms |
| `Submission.InputRow` | app.py:84 | the record has one field more than the picks; field 0 is the animal; field i+1 is pick i, or `""` for an empty picker |
| `Submission.InputRowRoundTrip` | app.py:84 | when no pick is the empty string, the animal and every pick can be read back from the record, so no selection is lost or confused with an empty picker |
| `Prediction.Label` | app.py:94 | the label is `Dangerous` iff the class is 1, and `Not Dangerous` otherwise |
| `Prediction.Respond` | app.py:77-571 | refused iff the validation rule fails, with its message; otherwise the label is `Label` of the class the classifier gives to the assembled record, advice is empty unless `Dangerous`, and under `Dangerous` it is the resolved advice of the picked symptoms |
| `Prediction.OnPredict` | app.py:77-571 | the step-by-step handler, with the advice emitted in a loop, gives exactly `Respond`'s response |
| `Prediction.RejectionSkipsClassifier` | app.py:80-89 | a refused submission gets the validation message whatever the classifier is, so inference is never reached |
| `Prediction.ClassifierSeesOnlyTheRow` | app.py:84-90 | an accepted submission depends on the classifier only through its value on the assembled record |
| `Prediction.AdviceBounded` | app.py:79-571 | at most one advice line per picked symptom, and at most five |
| `Prediction.DangerousDogExample` | app.py:77-571 | a dog with vomiting, diarrhea and lethargy, classified 1, is shown `Dangerous` with the advice for Vomiting, Diarrhea and Lethargy in that order |
| `Prediction.OneSymptomCatExample` | app.py:79-81 | a cat with one picked symptom is refused with the validation message |
| `Ascii.Lower` | app.py:569 | `str.lower` keeps the length, lower-cases each ASCII letter, and leaves no upper-case letter |
| `Ascii.LowerNeverHasUpper` | app.py:569 | a string holding an upper-case letter is the lower-case form of nothing |
| `Ascii.Title` | app.py:571 | `str.title` keeps the length, upper-cases a letter that does not follow a letter, lower-cases one that does, and keeps everything else |
| `Ascii.TitleKeepsLetters` | app.py:571 | title-casing keeps the length and changes letter case only |
| `Ascii.TitleIgnoresCase` | app.py:571 | strings equal up to letter case have the same title form |
| `Ascii.LowerWord` | app.py:569-571 | an all-lower-case word lower-cases to itself and title-cases to its first letter raised |
| `AdviceTable.Literal` | app.py:101-566 | the literal writes 89 entries, duplicates included |
| `AdviceTable.Fold` | app.py:101-566 | inserting entries left to right into a dictionary gives its keys plus every key written |
| `AdviceTable.Build` | app.py:101-566 | the dictionary's keys are exactly the keys written in the literal |
| `AdviceTable.FoldConcat` | app.py:101-566 | building from a concatenation inserts the first part, then the second |
| `AdviceTable.BuildLastWins` | app.py:101-566 | a key holds the text of its last occurrence in the literal |
| `AdviceTable.TextNamesItsKey` | app.py:101-566 | when entries are in increasing line order, a key holds an entry's text only if that entry was written with that key |
| `AdviceTable.ShadowedTextUnreachable` | app.py:101-566 | the text of an entry whose key is written again later is held under no key |
| `AdviceTable.Advice` | app.py:101-566 | `advice_map` has exactly the keys written in the literal |
| `AdviceTable.LiteralLinesIncreasing` | app.py:101-566 | the 89 entries are modelled in source order |
| `AdviceTable.DuplicateKeysKeepLastText` | app.py:101-566 | `hair loss`, `difficulty breathing`, `wounds`, `burns`, `choking` and `allergic reaction` hold the texts of lines 219, 427, 455, 482, 521 and 532 |
| `AdviceTable.FirstDuplicateTextsUnreachable` | app.py:101-566 | the texts of lines 164, 314, 324, 329, 339 and 344 are held under no key |
| `AdviceTable.CardiacArrestHeld` | app.py:526-531 | `'CPR/cardiac arrest'` is a key and holds the text of line 526 |
| `AdviceTable.CardiacArrestTextOwnKey` | app.py:526-531 | no other key holds the text of line 526 |
| `AdviceTable.FirstKeysTexts` | app.py:102-118 | `vomiting`, `diarrhea` and `lethargy` hold the texts of lines 102, 108 and 114 |
| `Advisory.Lookup` | app.py:569 | `advice_map.get(sym.lower())` finds a text iff the lower-cased symptom is a key, and then it finds that key's text |
| `Advisory.LinesOf` | app.py:569-571 | one symptom renders at most one line |
| `Advisory.Resolve` | app.py:568-571 | no more lines than picked symptoms |
| `Advisory.EmitAdvice` | app.py:568-571 | the loop emits exactly the resolved lines |
| `Advisory.ResolveConcat` | app.py:568-571 | the lines of a concatenation are the lines of its parts, in order |
| `Advisory.ResolveOne` | app.py:569-571 | one symptom gives the single line `(title, text)` when its lower-cased form is a key, and no line otherwise |
| `Advisory.ResolveAt` | app.py:568-571 | a known symptom's line comes right after the lines of the symptoms before it, so the lines follow the known symptoms in order, one each |
| `Advisory.ResolveLinesFromSymptoms` | app.py:568-571 | every line is the title and text of some picked symptom whose lower-cased form is a key |
| `Advisory.ResolveAllKnown` | app.py:568-571 | there are as many lines as picked symptoms iff every symptom is known |
| `Advisory.ResolveNoneKnown` | app.py:568-571 | there are no lines iff no symptom is known; unknown symptoms raise no error |
| `Advisory.ResolveIgnoresCase` | app.py:569-571 | symptoms that differ only in letter case get the same lines |
| `Advisory.TextNeverShown` | app.py:568-571 | a text held under no lower-case key is never shown |
| `Advisory.CardiacArrestKeyUnreachable` | app.py:526 | no lower-cased symptom reaches the text of `'CPR/cardiac arrest'` |
| `Advisory.CardiacArrestNeverShown` | app.py:568-571 | whatever is picked, the CPR advice never appears |
| `Advisory.FirstDuplicateTextsNeverShown` | app.py:568-571 | whatever is picked, the first text of a key written twice never appears |

## Left out

- The page configuration, the CSS, the sidebar widgets, the button, and the
  `st.metric`, `st.write`, `st.markdown` and `st.subheader` rendering
  (app.py:8-31, 56-75, 95-96, 100, 571) are UI. The response is returned as
  a value instead: the message, or the label and a sequence of
  (title, text) lines.
- Reading `data.csv` with pandas (app.py:34-40) and loading the model and
  encoder with joblib and pickle, with Streamlit caching (app.py:42-53), are
  I/O. What the pickers can offer is therefore not modelled. A picker is any
  function from the slot number to an optional string.
- `encoder.transform` and `model.predict` (app.py:89-90) are an opaque fitted
  one-hot encoder and a trained random forest. Together they are the
  parameter `classify`, from the six-field record to a class. The
  `DataFrame` wrapping (app.py:85-86) only names the columns, and is folded
  into the record.
- `model.predict_proba` and the two printed probabilities (app.py:91, 96) are
  floating point.
- Exceptions raised by the encoder or the classifier are not modelled,
  because `classify` is total.
- `Ascii.Lower` and `Ascii.Title`: `str.lower` and `str.title` are modelled
  on ASCII only. Python's full Unicode case mapping (non-ASCII letters,
  characters whose case forms change length) is not modelled.
- The advice prose is not modelled. Each text is identified by the line its
  key is written on, which is enough to tell the entries apart.
