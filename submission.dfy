/**
 * The sidebar's selections and what the Predict button does with them before
 * any inference: the five symptom pickers, the list of picked symptoms, the
 * validation rule, and the six-field record handed to the encoder.
 */
module Submission {
  import opened Wrappers

  /** The number of symptom pickers in the sidebar. */
  const SymptomSlots := 5

  /** The fewest picked symptoms a submission may carry. */
  const MinSymptoms := 3

  const ValidationMessage := "Please select an animal and at least three symptoms before predicting."

  /**
   * Builds `picks` by appending the value of picker 1, 2, ..., 5 in turn;
   * `picker(i)` is what the selection box labelled "Symptom i" holds.
   */
  method CollectPicks(picker: nat -> Option<string>) returns (picks: seq<Option<string>>)
    ensures |picks| == SymptomSlots
    ensures forall i :: 0 <= i < SymptomSlots ==> picks[i] == picker(i + 1)
  {
    picks := [];
    for i := 1 to SymptomSlots + 1
      invariant |picks| == i - 1
      invariant forall j :: 0 <= j < i - 1 ==> picks[j] == picker(j + 1)
    {
      picks := picks + [picker(i)];
    }
  }

  /** `[s for s in picks if s is not None]` */
  function Selected(picks: seq<Option<string>>): (r: seq<string>)
    ensures |r| == |picks| - multiset(picks)[None]
    ensures forall s :: s in r <==> Some(s) in picks
  {
    if picks == [] then []
    else
      assert picks == [picks[0]] + picks[1..];
      (if picks[0].Some? then [picks[0].value] else []) + Selected(picks[1..])
  }

  /** Selection distributes over concatenation: slot order is kept. */
  lemma {:induction false} SelectedConcat(a: seq<Option<string>>, b: seq<Option<string>>)
    ensures Selected(a + b) == Selected(a) + Selected(b)
  {
    if a == [] {
      assert a + b == b;
    } else {
      assert (a + b)[0] == a[0] && (a + b)[1..] == a[1..] + b;
      SelectedConcat(a[1..], b);
    }
  }

  /**
   * A picked symptom lands in the list right after the symptoms picked in
   * earlier slots, so the list keeps the slot order.
   */
  lemma SelectedAt(picks: seq<Option<string>>, i: nat)
    requires i < |picks| && picks[i].Some?
    ensures |Selected(picks[..i])| < |Selected(picks)|
    ensures Selected(picks)[|Selected(picks[..i])|] == picks[i].value
  {
    assert picks == picks[..i] + ([picks[i]] + picks[i + 1..]);
    SelectedConcat(picks[..i], [picks[i]] + picks[i + 1..]);
    SelectedConcat([picks[i]], picks[i + 1..]);
  }

  /** A submission is refused when no animal is chosen or fewer than three symptoms are picked. */
  predicate Rejects(animal: Option<string>, picks: seq<Option<string>>): (r: bool)
    ensures r <==> animal.None? || multiset(picks)[None] > |picks| - MinSymptoms
  {
    animal.None? || |Selected(picks)| < MinSymptoms
  }

  /**
   * The validation step: the picked symptoms when the submission may go on,
   * the message shown to the user otherwise.
   */
  function Validate(animal: Option<string>, picks: seq<Option<string>>): (r: Result<seq<string>, string>)
    ensures r.Failure? <==> Rejects(animal, picks)
    ensures r.Failure? ==> r.error == ValidationMessage
    ensures r.Success? ==> r.value == Selected(picks)
    ensures r.Success? ==> MinSymptoms <= |r.value| <= |picks| && forall s :: s in r.value <==> Some(s) in picks
  {
    if Rejects(animal, picks) then Failure(ValidationMessage) else Success(Selected(picks))
  }

  /** The encoder's value for one symptom field: the pick, or `""` for an empty picker. */
  function Field(pick: Option<string>): string
  {
    match pick
    case Some(s) => s
    case None => ""
  }

  /** `[animal] + [s if s is not None else "" for s in picks]` */
  function InputRow(animal: string, picks: seq<Option<string>>): (row: seq<string>)
    ensures |row| == |picks| + 1 && row[0] == animal
    ensures forall i :: 0 <= i < |picks| && picks[i].Some? ==> row[i + 1] == picks[i].value
    ensures forall i :: 0 <= i < |picks| && picks[i].None? ==> row[i + 1] == ""
  {
    [animal] + seq(|picks|, i requires 0 <= i < |picks| => Field(picks[i]))
  }

  /** Reads the symptom fields of a record back as picks, `""` meaning an empty picker. */
  function PicksOfRow(row: seq<string>): (picks: seq<Option<string>>)
    requires |row| >= 1
    ensures |picks| == |row| - 1
  {
    seq(|row| - 1, i requires 0 <= i < |row| - 1 => if row[i + 1] == "" then None else Some(row[i + 1]))
  }

  /**
   * The record loses nothing: when no picked symptom is the empty string, the
   * animal and every pick can be read back from it.
   */
  lemma InputRowRoundTrip(animal: string, picks: seq<Option<string>>)
    requires Some("") !in picks
    ensures InputRow(animal, picks)[0] == animal
    ensures PicksOfRow(InputRow(animal, picks)) == picks
  {
    var row := InputRow(animal, picks);
    forall i | 0 <= i < |picks|
      ensures PicksOfRow(row)[i] == picks[i]
    {
      assert picks[i] != Some("");
    }
  }
}
