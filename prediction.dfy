/**
 * What pressing Predict does: validate the sidebar selections, assemble the
 * record, classify it, show the label, and under a "Dangerous" label show
 * the advice lines. The fitted encoder and the trained classifier are one
 * opaque function `classify` from the six-field record to the predicted
 * class (`model.predict(encoder.transform(row))[0]`).
 */
module Prediction {
  import opened Wrappers
  import opened Ascii
  import opened AdviceTable
  import opened Submission
  import opened Advisory

  /** What the page shows: the validation error, or the label and the advice lines. */
  datatype Response = Rejected(message: string) | Shown(verdict: string, advice: seq<Line>)

  /** `'Dangerous' if pred == 1 else 'Not Dangerous'` */
  function Label(pred: int): (name: string)
    ensures name == "Dangerous" <==> pred == 1
    ensures name == "Not Dangerous" <==> pred != 1
  {
    if pred == 1 then "Dangerous" else "Not Dangerous"
  }

  /** The page's response to one press of Predict. */
  function Respond(animal: Option<string>, picks: seq<Option<string>>, classify: seq<string> -> int): (r: Response)
    ensures r.Rejected? <==> Rejects(animal, picks)
    ensures r.Rejected? ==> r.message == ValidationMessage
    ensures r.Shown? ==> r.verdict == Label(classify(InputRow(animal.value, picks)))
    ensures r.Shown? ==> (r.verdict == "Dangerous" <==> classify(InputRow(animal.value, picks)) == 1)
    ensures r.Shown? && r.verdict != "Dangerous" ==> r.advice == []
    ensures r.Shown? && r.verdict == "Dangerous" ==> r.advice == Resolve(Advice(), Selected(picks))
  {
    match Validate(animal, picks)
    case Failure(message) => Rejected(message)
    case Success(selected) =>
      var pred := classify(InputRow(animal.value, picks));
      Shown(Label(pred), if pred == 1 then Resolve(Advice(), selected) else [])
  }

  /** The handler, step by step, emitting the advice lines in a loop. */
  method OnPredict(animal: Option<string>, picks: seq<Option<string>>, classify: seq<string> -> int)
    returns (r: Response)
    ensures r == Respond(animal, picks, classify)
  {
    var selected := Selected(picks);
    if Rejects(animal, picks) {
      r := Rejected(ValidationMessage);
    } else {
      var row := InputRow(animal.value, picks);
      var pred := classify(row);
      var verdict := Label(pred);
      var advice := [];
      if pred == 1 {
        advice := EmitAdvice(Advice(), selected);
      }
      r := Shown(verdict, advice);
    }
  }

  /** A refused submission never reaches the classifier: any two classifiers give the same response. */
  lemma RejectionSkipsClassifier(animal: Option<string>, picks: seq<Option<string>>,
                                 f: seq<string> -> int, g: seq<string> -> int)
    requires Rejects(animal, picks)
    ensures Respond(animal, picks, f) == Respond(animal, picks, g) == Rejected(ValidationMessage)
  {
  }

  /**
   * An accepted submission consults the classifier only on its own record:
   * classifiers that agree there give the same response.
   */
  lemma ClassifierSeesOnlyTheRow(animal: Option<string>, picks: seq<Option<string>>,
                                 f: seq<string> -> int, g: seq<string> -> int)
    requires !Rejects(animal, picks)
    requires f(InputRow(animal.value, picks)) == g(InputRow(animal.value, picks))
    ensures Respond(animal, picks, f) == Respond(animal, picks, g)
  {
  }

  /** At most one advice line per picked symptom, and so at most five. */
  lemma AdviceBounded(animal: Option<string>, picks: seq<Option<string>>, classify: seq<string> -> int)
    requires |picks| == SymptomSlots
    ensures Respond(animal, picks, classify).Shown? ==>
      |Respond(animal, picks, classify).advice| <= |Selected(picks)| <= SymptomSlots
  {
  }

  /** Three symptoms whose lower-case forms are all keys give three lines, in order. */
  lemma ResolveThreeKnown(table: Table, a: string, b: string, c: string)
    requires Lower(a) in table && Lower(b) in table && Lower(c) in table
    ensures Resolve(table, [a, b, c]) ==
      [Line(Title(a), table[Lower(a)]), Line(Title(b), table[Lower(b)]), Line(Title(c), table[Lower(c)])]
  {
    ResolveOne(table, a);
    ResolveOne(table, b);
    ResolveOne(table, c);
    ResolveConcat(table, [a], [b, c]);
    ResolveConcat(table, [b], [c]);
    assert [a] + [b, c] == [a, b, c] && [b] + [c] == [b, c];
  }

  /** `sym.lower()` and `sym.title()` of the dog's symptoms. */
  lemma VomitingSpelling()
    ensures Lower("vomiting") == "vomiting" && Title("vomiting") == "Vomiting"
  {
    LowerWord("vomiting");
    assert UpperChar('v') == 'V';
  }

  lemma DiarrheaSpelling()
    ensures Lower("diarrhea") == "diarrhea" && Title("diarrhea") == "Diarrhea"
  {
    LowerWord("diarrhea");
    assert UpperChar('d') == 'D';
  }

  lemma LethargySpelling()
    ensures Lower("lethargy") == "lethargy" && Title("lethargy") == "Lethargy"
  {
    LowerWord("lethargy");
    assert UpperChar('l') == 'L';
  }

  /** The advice lines for the dog's three picked symptoms. */
  lemma DogAdvice()
    ensures Resolve(Advice(), ["vomiting", "diarrhea", "lethargy"])
         == [Line("Vomiting", Text(102)), Line("Diarrhea", Text(108)), Line("Lethargy", Text(114))]
  {
    FirstKeysTexts();
    VomitingSpelling();
    DiarrheaSpelling();
    LethargySpelling();
    ResolveThreeKnown(Advice(), "vomiting", "diarrhea", "lethargy");
  }

  /** The dog's record: the animal, the three picks, and two empty fields. */
  lemma DogRow()
    ensures InputRow("Dog", [Some("vomiting"), Some("diarrhea"), Some("lethargy"), None, None])
         == ["Dog", "vomiting", "diarrhea", "lethargy", "", ""]
  {
  }

  /** The dog's picked symptoms, in slot order. */
  lemma DogSelected()
    ensures Selected([Some("vomiting"), Some("diarrhea"), Some("lethargy"), None, None])
         == ["vomiting", "diarrhea", "lethargy"]
  {
  }

  /** A dog with three picked symptoms, classified dangerous, gets their three advice lines in slot order. */
  lemma DangerousDogExample(classify: seq<string> -> int)
    requires classify(["Dog", "vomiting", "diarrhea", "lethargy", "", ""]) == 1
    ensures Respond(Some("Dog"), [Some("vomiting"), Some("diarrhea"), Some("lethargy"), None, None], classify)
         == Shown("Dangerous", [Line("Vomiting", Text(102)), Line("Diarrhea", Text(108)), Line("Lethargy", Text(114))])
  {
    DogRow();
    DogSelected();
    DogAdvice();
  }

  /** A cat with one picked symptom is refused before any classification. */
  lemma OneSymptomCatExample(classify: seq<string> -> int)
    ensures Respond(Some("Cat"), [Some("itching"), None, None, None, None], classify) == Rejected(ValidationMessage)
  {
    assert Selected([Some("itching"), None, None, None, None]) == ["itching"];
  }
}
