/**
 * The advice shown under a "Dangerous" prediction: for each picked symptom in
 * slot order, `advice_map.get(sym.lower())`, and a line
 * `- **<sym.title()>**: <advice>` when that finds a text. A symptom whose
 * lower-case form is not a key is skipped without a line or an error.
 */
module Advisory {
  import opened Wrappers
  import opened Ascii
  import opened AdviceTable

  /** One rendered line: the title-cased symptom and its advice text. */
  datatype Line = Line(title: string, text: Text)

  /** `advice_map.get(sym.lower())` */
  function Lookup(table: Table, sym: string): (r: Option<Text>)
    ensures r.Some? <==> Lower(sym) in table
    ensures r.Some? ==> r.value == table[Lower(sym)]
  {
    var key := Lower(sym);
    if key in table then Some(table[key]) else None
  }

  /** The line one symptom renders: none when its lower-case form is not a key. */
  function LinesOf(table: Table, sym: string): (lines: seq<Line>)
    ensures |lines| <= 1
  {
    match Lookup(table, sym)
    case Some(text) => [Line(Title(sym), text)]
    case None => []
  }

  /** The lines the loop over the picked symptoms renders, in order. */
  function Resolve(table: Table, selected: seq<string>): (lines: seq<Line>)
    ensures |lines| <= |selected|
  {
    if selected == [] then []
    else LinesOf(table, selected[0]) + Resolve(table, selected[1..])
  }

  /** Emits the advice lines one symptom at a time, as the loop in app.py does. */
  method EmitAdvice(table: Table, selected: seq<string>) returns (lines: seq<Line>)
    ensures lines == Resolve(table, selected)
  {
    lines := [];
    for i := 0 to |selected|
      invariant lines == Resolve(table, selected[..i])
    {
      var sym := selected[i];
      var advice := Lookup(table, sym);
      if advice.Some? {
        lines := lines + [Line(Title(sym), advice.value)];
      }
      assert selected[..i + 1] == selected[..i] + [sym];
      ResolveConcat(table, selected[..i], [sym]);
    }
    assert selected[..|selected|] == selected;
  }

  /** Resolving distributes over concatenation: the output follows the symptom order. */
  lemma {:induction false} ResolveConcat(table: Table, a: seq<string>, b: seq<string>)
    ensures Resolve(table, a + b) == Resolve(table, a) + Resolve(table, b)
  {
    if a == [] {
      assert a + b == b;
    } else {
      assert (a + b)[0] == a[0] && (a + b)[1..] == a[1..] + b;
      ResolveConcat(table, a[1..], b);
    }
  }

  /** One symptom yields one line when its lower-case form is a key, and none otherwise. */
  lemma ResolveOne(table: Table, sym: string)
    ensures Lower(sym) in table ==> Resolve(table, [sym]) == [Line(Title(sym), table[Lower(sym)])]
    ensures Lower(sym) !in table ==> Resolve(table, [sym]) == []
  {
    assert [sym][1..] == [];
  }

  /**
   * A known symptom's line comes right after the lines of the symptoms before
   * it: the output is the known symptoms, in their order, one line each.
   */
  lemma ResolveAt(table: Table, selected: seq<string>, i: nat)
    requires i < |selected| && Lower(selected[i]) in table
    ensures |Resolve(table, selected[..i])| < |Resolve(table, selected)|
    ensures Resolve(table, selected)[|Resolve(table, selected[..i])|] ==
            Line(Title(selected[i]), table[Lower(selected[i])])
  {
    assert selected == selected[..i] + ([selected[i]] + selected[i + 1..]);
    ResolveConcat(table, selected[..i], [selected[i]] + selected[i + 1..]);
    ResolveConcat(table, [selected[i]], selected[i + 1..]);
    ResolveOne(table, selected[i]);
  }

  /** Every line belongs to some picked symptom whose lower-case form is a key. */
  lemma {:induction false} ResolveLinesFromSymptoms(table: Table, selected: seq<string>, line: Line)
    requires line in Resolve(table, selected)
    ensures exists s :: s in selected && Lower(s) in table && line == Line(Title(s), table[Lower(s)])
  {
    if selected != [] {
      var sym := selected[0];
      ResolveConcat(table, [sym], selected[1..]);
      assert selected == [sym] + selected[1..];
      ResolveOne(table, sym);
      if line !in Resolve(table, [sym]) {
        ResolveLinesFromSymptoms(table, selected[1..], line);
      }
    }
  }

  /** A line for every symptom exactly when every symptom's lower-case form is a key. */
  lemma {:induction false} ResolveAllKnown(table: Table, selected: seq<string>)
    ensures |Resolve(table, selected)| == |selected| <==> forall s :: s in selected ==> Lower(s) in table
  {
    if selected != [] {
      var sym, rest := selected[0], selected[1..];
      assert selected == [sym] + rest;
      ResolveAllKnown(table, rest);
      ResolveOne(table, sym);
      ResolveConcat(table, [sym], rest);
      assert forall s :: s in selected <==> s == sym || s in rest;
      if Lower(sym) in table {
        assert |Resolve(table, selected)| == 1 + |Resolve(table, rest)|;
      } else {
        assert sym in selected;
        assert |Resolve(table, selected)| == |Resolve(table, rest)| <= |rest|;
      }
    }
  }

  /** No line at all exactly when no symptom's lower-case form is a key. */
  lemma {:induction false} ResolveNoneKnown(table: Table, selected: seq<string>)
    ensures Resolve(table, selected) == [] <==> forall s :: s in selected ==> Lower(s) !in table
  {
    if selected != [] {
      ResolveNoneKnown(table, selected[1..]);
      ResolveOne(table, selected[0]);
      ResolveConcat(table, [selected[0]], selected[1..]);
      assert selected == [selected[0]] + selected[1..];
      assert forall s :: s in selected <==> s == selected[0] || s in selected[1..];
    }
  }

  /** Symptoms that differ only in letter case get the same lines. */
  lemma {:induction false} ResolveIgnoresCase(table: Table, a: seq<string>, b: seq<string>)
    requires |a| == |b|
    requires forall i :: 0 <= i < |a| ==> Lower(a[i]) == Lower(b[i])
    ensures Resolve(table, a) == Resolve(table, b)
  {
    if a != [] {
      TitleIgnoresCase(a[0], b[0]);
      ResolveIgnoresCase(table, a[1..], b[1..]);
    }
  }

  /** A text held under no lower-case key is never shown, whatever is picked. */
  lemma TextNeverShown(table: Table, selected: seq<string>, text: Text)
    requires forall s :: Lower(s) in table ==> table[Lower(s)] != text
    ensures forall line :: line in Resolve(table, selected) ==> line.text != text
  {
    forall line | line in Resolve(table, selected)
      ensures line.text != text
    {
      ResolveLinesFromSymptoms(table, selected, line);
    }
  }

  /** The key `'CPR/cardiac arrest'` holds an upper-case letter, so no lower-cased symptom reaches it. */
  lemma CardiacArrestKeyUnreachable(s: string)
    ensures Lower(s) in Advice() ==> Advice()[Lower(s)] != Text(526)
  {
    if Lower(s) in Advice() && Advice()[Lower(s)] == Text(526) {
      CardiacArrestTextOwnKey(Lower(s));
      LowerNeverHasUpper(s, "CPR/cardiac arrest");
      assert false;
    }
  }

  /** No picked symptom ever brings up the advice written under `'CPR/cardiac arrest'`. */
  lemma CardiacArrestNeverShown(selected: seq<string>)
    ensures forall line :: line in Resolve(Advice(), selected) ==> line.text != Text(526)
  {
    forall s ensures Lower(s) in Advice() ==> Advice()[Lower(s)] != Text(526) {
      CardiacArrestKeyUnreachable(s);
    }
    TextNeverShown(Advice(), selected, Text(526));
  }

  /** Each key written twice shows the text of its second entry; the first one is never shown. */
  lemma FirstDuplicateTextsNeverShown(selected: seq<string>)
    ensures forall line :: line in Resolve(Advice(), selected) ==>
      line.text !in {Text(164), Text(314), Text(324), Text(329), Text(339), Text(344)}
  {
    FirstDuplicateTextsUnreachable();
    forall line | line in Resolve(Advice(), selected)
      ensures line.text in Advice().Values
    {
      ResolveLinesFromSymptoms(Advice(), selected, line);
    }
  }
}
