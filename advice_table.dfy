/**
 * The `advice_map` dictionary literal of app.py. Python evaluates a dict
 * display left to right, so a key written twice keeps the value of its last
 * occurrence. The advice prose is opaque here: `Text(line)` stands for the
 * text of the entry whose key is written on that line of app.py. Every text
 * in the literal is a non-empty string.
 */
module AdviceTable {

  datatype Text = Text(line: nat)

  datatype Entry = Entry(key: string, text: Text)

  type Table = map<string, Text>

  /** The keys written in a sequence of entries. */
  function KeysOf(es: seq<Entry>): (ks: set<string>)
  {
    set i | 0 <= i < |es| :: es[i].key
  }

  /** Inserts the entries into `m` one by one, left to right. */
  function Fold(m: Table, es: seq<Entry>): (t: Table)
    ensures t.Keys == m.Keys + KeysOf(es)
    decreases |es|
  {
    if es == [] then m else Fold(m[es[0].key := es[0].text], es[1..])
  }

  /** The dictionary a literal with these entries evaluates to. */
  function Build(es: seq<Entry>): (t: Table)
    ensures t.Keys == KeysOf(es)
  {
    Fold(map[], es)
  }

  /** No entry of `es` has key `k`. */
  predicate Avoids(es: seq<Entry>, k: string)
  {
    forall j :: 0 <= j < |es| ==> es[j].key != k
  }

  /** `i` is the last position of the entries that holds key `k`. */
  predicate IsLast(es: seq<Entry>, k: string, i: nat)
  {
    i < |es| && es[i].key == k && Avoids(es[i + 1..], k)
  }

  /** The entries are written in strictly increasing line order. */
  predicate LinesIncreasing(es: seq<Entry>)
  {
    forall i :: 0 < i < |es| ==> es[i - 1].text.line < es[i].text.line
  }

  /** Folding a concatenation folds its halves in turn. */
  lemma {:induction false} FoldConcat(m: Table, a: seq<Entry>, b: seq<Entry>)
    ensures Fold(m, a + b) == Fold(Fold(m, a), b)
    decreases |a|
  {
    if a != [] {
      var ab := a + b;
      assert ab[0] == a[0] && ab[1..] == a[1..] + b;
      FoldConcat(m[a[0].key := a[0].text], a[1..], b);
      assert Fold(m, ab) == Fold(m[a[0].key := a[0].text], a[1..] + b);
      assert Fold(m, a) == Fold(m[a[0].key := a[0].text], a[1..]);
    } else {
      assert a + b == b;
    }
  }

  /** A key that no entry writes keeps its value in `m`. */
  lemma {:induction false} FoldKeepsAbsent(m: Table, es: seq<Entry>, k: string)
    requires k in m
    requires Avoids(es, k)
    ensures Fold(m, es)[k] == m[k]
    decreases |es|
  {
    if es != [] {
      FoldKeepsAbsent(m[es[0].key := es[0].text], es[1..], k);
    }
  }

  /** A key keeps the value of its last occurrence. */
  lemma {:induction false} FoldLastWins(m: Table, es: seq<Entry>, k: string, i: nat)
    requires IsLast(es, k, i)
    ensures k in Fold(m, es) && Fold(m, es)[k] == es[i].text
    decreases |es|
  {
    if i > 0 {
      assert es[1..][i - 1..] == es[i..];
      FoldLastWins(m[es[0].key := es[0].text], es[1..], k, i - 1);
    } else {
      FoldKeepsAbsent(m[es[0].key := es[0].text], es[1..], k);
    }
  }

  /** Every key of the literal has a last occurrence. */
  lemma LastExists(es: seq<Entry>, k: string) returns (i: nat)
    requires k in KeysOf(es)
    ensures IsLast(es, k, i)
  {
    i := |es| - 1;
    while es[i].key != k
      invariant 0 <= i < |es|
      invariant Avoids(es[i + 1..], k)
      invariant exists j :: 0 <= j <= i && es[j].key == k
      decreases i
    {
      i := i - 1;
    }
  }

  /** Each key of the dictionary holds the text of its last entry. */
  lemma BuildLastWins(es: seq<Entry>, k: string, i: nat)
    requires IsLast(es, k, i)
    ensures k in Build(es) && Build(es)[k] == es[i].text
  {
    FoldLastWins(map[], es, k, i);
  }

  /** Increasing line order makes the texts of distinct entries distinct. */
  lemma {:induction false} LinesIncreasingApart(es: seq<Entry>, i: nat, j: nat)
    requires LinesIncreasing(es)
    requires i < j < |es|
    ensures es[i].text.line < es[j].text.line
    decreases j - i
  {
    if i + 1 < j {
      LinesIncreasingApart(es, i + 1, j);
    }
  }

  lemma LinesIncreasingConcat(a: seq<Entry>, b: seq<Entry>)
    requires LinesIncreasing(a) && LinesIncreasing(b)
    requires a != [] && b != [] && a[|a| - 1].text.line < b[0].text.line
    ensures LinesIncreasing(a + b)
  {
  }

  /**
   * When texts are told apart by their lines, a text the dictionary holds
   * under key `k` comes from an entry written with key `k`.
   */
  lemma TextNamesItsKey(es: seq<Entry>, k: string, i: nat)
    requires LinesIncreasing(es)
    requires i < |es|
    requires k in Build(es) && Build(es)[k] == es[i].text
    ensures es[i].key == k
  {
    var last := LastExists(es, k);
    BuildLastWins(es, k, last);
    if last != i {
      if last < i { LinesIncreasingApart(es, last, i); } else { LinesIncreasingApart(es, i, last); }
    }
  }

  /** The text of an entry whose key is written again later is held under no key. */
  lemma ShadowedTextUnreachable(es: seq<Entry>, i: nat, j: nat)
    requires LinesIncreasing(es)
    requires i < j < |es| && es[i].key == es[j].key
    ensures es[i].text !in Build(es).Values
  {
    if es[i].text in Build(es).Values {
      var k :| k in Build(es) && Build(es)[k] == es[i].text;
      TextNamesItsKey(es, k, i);
      var last := LastExists(es, k);
      BuildLastWins(es, k, last);
      assert last >= j;
      LinesIncreasingApart(es, i, last);
    }
  }

  /** The entries whose keys are written on lines 102-174. */
  function Part1(): seq<Entry>
  {
    [
      Entry("vomiting", Text(102)),
      Entry("diarrhea", Text(108)),
      Entry("lethargy", Text(114)),
      Entry("fever", Text(119)),
      Entry("coughing", Text(124)),
      Entry("dehydration", Text(129)),
      Entry("loss of appetite", Text(134)),
      Entry("weight loss", Text(139)),
      Entry("nasal discharge", Text(144)),
      Entry("eye discharge", Text(149)),
      Entry("limping", Text(154)),
      Entry("itching", Text(159)),
      Entry("hair loss", Text(164)),
      Entry("seizures", Text(169)),
      Entry("heatstroke", Text(174))
    ]
  }

  /** The entries whose keys are written on lines 179-249. */
  function Part2(): seq<Entry>
  {
    [
      Entry("hypothermia", Text(179)),
      Entry("swelling", Text(184)),
      Entry("bleeding", Text(189)),
      Entry("pain", Text(194)),
      Entry("runny nose", Text(199)),
      Entry("eye redness", Text(204)),
      Entry("abdominal pain", Text(209)),
      Entry("constipation", Text(214)),
      Entry("hair loss", Text(219)),
      Entry("shivering", Text(224)),
      Entry("bad breath", Text(229)),
      Entry("drooling", Text(234)),
      Entry("dandruff", Text(239)),
      Entry("lumps, bumps", Text(244)),
      Entry("staggering", Text(249))
    ]
  }

  /** The entries whose keys are written on lines 254-324. */
  function Part3(): seq<Entry>
  {
    [
      Entry("blindness", Text(254)),
      Entry("deafness", Text(259)),
      Entry("straining to urinate", Text(264)),
      Entry("blood in urine", Text(269)),
      Entry("blood in stool", Text(274)),
      Entry("excessive thirst", Text(279)),
      Entry("excessive urination", Text(284)),
      Entry("panting", Text(289)),
      Entry("sneezing", Text(294)),
      Entry("scratching", Text(299)),
      Entry("shaking head", Text(304)),
      Entry("swollen abdomen", Text(309)),
      Entry("difficulty breathing", Text(314)),
      Entry("pale gums", Text(319)),
      Entry("wounds", Text(324))
    ]
  }

  /** The entries whose keys are written on lines 329-399. */
  function Part4(): seq<Entry>
  {
    [
      Entry("burns", Text(329)),
      Entry("broken bones", Text(334)),
      Entry("choking", Text(339)),
      Entry("allergic reaction", Text(344)),
      Entry("heat stress", Text(349)),
      Entry("frostbite", Text(354)),
      Entry("dizziness", Text(359)),
      Entry("stiffness", Text(364)),
      Entry("muscle tremors", Text(369)),
      Entry("collapse", Text(374)),
      Entry("paralysis", Text(379)),
      Entry("aggression", Text(384)),
      Entry("anxiety", Text(389)),
      Entry("excessive grooming", Text(394)),
      Entry("loss of coordination", Text(399))
    ]
  }

  /** The entries whose keys are written on lines 404-482. */
  function Part5(): seq<Entry>
  {
    [
      Entry("difficulty walking", Text(404)),
      Entry("loss of balance", Text(409)),
      Entry("trembling", Text(414)),
      Entry("shock", Text(419)),
      Entry("difficulty breathing", Text(427)),
      Entry("open mouth breathing/gasping", Text(434)),
      Entry("loud respiration", Text(440)),
      Entry("discharge from nose", Text(445)),
      Entry("bald patches/fluffed feathers", Text(450)),
      Entry("wounds", Text(455)),
      Entry("uncontrolled bleeding", Text(461)),
      Entry("inability to walk", Text(466)),
      Entry("loss of consciousness", Text(471)),
      Entry("major injuries/fractures", Text(476)),
      Entry("burns", Text(482))
    ]
  }

  /** The entries whose keys are written on lines 488-560. */
  function Part6(): seq<Entry>
  {
    [
      Entry("impalement", Text(488)),
      Entry("seizures/fits", Text(494)),
      Entry("exposure (heatstroke)", Text(500)),
      Entry("exposure (cold/hypothermia)", Text(505)),
      Entry("poisoning", Text(510)),
      Entry("ingestion of foreign objects", Text(516)),
      Entry("choking", Text(521)),
      Entry("CPR/cardiac arrest", Text(526)),
      Entry("allergic reaction", Text(532)),
      Entry("pet allergy (in people)", Text(538)),
      Entry("handling and restraint", Text(544)),
      Entry("bites/scratches", Text(550)),
      Entry("convulsions", Text(555)),
      Entry("artificial respiration", Text(560))
    ]
  }

  /** The entries of `advice_map`, in the order they are written. */
  function Literal(): (es: seq<Entry>)
    ensures |es| == 89
  {
    Part1() + (Part2() + (Part3() + (Part4() + (Part5() + Part6()))))
  }

  lemma PartsLinesIncreasing()
    ensures |Part1()| == |Part2()| == |Part3()| == |Part4()| == |Part5()| == 15 && |Part6()| == 14
    ensures LinesIncreasing(Part1()) && LinesIncreasing(Part2()) && LinesIncreasing(Part3())
    ensures LinesIncreasing(Part4()) && LinesIncreasing(Part5()) && LinesIncreasing(Part6())
    ensures Part1()[14].text.line < Part2()[0].text.line
    ensures Part2()[14].text.line < Part3()[0].text.line
    ensures Part3()[14].text.line < Part4()[0].text.line
    ensures Part4()[14].text.line < Part5()[0].text.line
    ensures Part5()[14].text.line < Part6()[0].text.line
  {
  }

  /** The keys of `advice_map` are written in increasing line order, so no two texts coincide. */
  lemma LiteralLinesIncreasing()
    ensures LinesIncreasing(Literal())
  {
    PartsLinesIncreasing();
    var r := Part5() + Part6();
    LinesIncreasingConcat(Part5(), Part6());
    LinesIncreasingConcat(Part4(), r);
    r := Part4() + r;
    LinesIncreasingConcat(Part3(), r);
    r := Part3() + r;
    LinesIncreasingConcat(Part2(), r);
    r := Part2() + r;
    LinesIncreasingConcat(Part1(), r);
  }

  /** `advice_map` */
  function Advice(): (t: Table)
    ensures t.Keys == KeysOf(Literal())
  {
    Build(Literal())
  }

  /** The dictionary, built one part of the literal at a time. */
  lemma AdviceByParts()
    ensures Advice() == Fold(Fold(Fold(Fold(Fold(Fold(map[], Part1()), Part2()), Part3()), Part4()), Part5()), Part6())
  {
    var r := Part5() + Part6();
    var m := Fold(Fold(Fold(Fold(map[], Part1()), Part2()), Part3()), Part4());
    FoldConcat(m, Part5(), Part6());
    FoldConcat(Fold(Fold(Fold(map[], Part1()), Part2()), Part3()), Part4(), r);
    r := Part4() + r;
    FoldConcat(Fold(Fold(map[], Part1()), Part2()), Part3(), r);
    r := Part3() + r;
    FoldConcat(Fold(map[], Part1()), Part2(), r);
    r := Part2() + r;
    FoldConcat(map[], Part1(), r);
  }

  /** A key whose last entry is entry `i` of part 2 holds that entry's text. */
  lemma LastInPart2(k: string, i: nat)
    requires IsLast(Part2(), k, i)
    requires Avoids(Part3(), k) && Avoids(Part4(), k) && Avoids(Part5(), k) && Avoids(Part6(), k)
    ensures k in Advice() && Advice()[k] == Part2()[i].text
  {
    AdviceByParts();
    var m := Fold(map[], Part1());
    FoldLastWins(m, Part2(), k, i);
    m := Fold(m, Part2());
    FoldKeepsAbsent(m, Part3(), k);
    m := Fold(m, Part3());
    FoldKeepsAbsent(m, Part4(), k);
    m := Fold(m, Part4());
    FoldKeepsAbsent(m, Part5(), k);
    m := Fold(m, Part5());
    FoldKeepsAbsent(m, Part6(), k);
  }

  /** A key whose last entry is entry `i` of part 5 holds that entry's text. */
  lemma LastInPart5(k: string, i: nat)
    requires IsLast(Part5(), k, i)
    requires Avoids(Part6(), k)
    ensures k in Advice() && Advice()[k] == Part5()[i].text
  {
    AdviceByParts();
    var m := Fold(Fold(Fold(Fold(map[], Part1()), Part2()), Part3()), Part4());
    FoldLastWins(m, Part5(), k, i);
    FoldKeepsAbsent(Fold(m, Part5()), Part6(), k);
  }

  /** A key whose last entry is entry `i` of part 6 holds that entry's text. */
  lemma LastInPart6(k: string, i: nat)
    requires IsLast(Part6(), k, i)
    ensures k in Advice() && Advice()[k] == Part6()[i].text
  {
    AdviceByParts();
    FoldLastWins(Fold(Fold(Fold(Fold(Fold(map[], Part1()), Part2()), Part3()), Part4()), Part5()), Part6(), k, i);
  }

  /** Where the second entry of each duplicated key sits, and that nothing after it repeats the key. */
  lemma HairLossWrittenLastInPart2()
    ensures IsLast(Part2(), "hair loss", 8)
    ensures Avoids(Part3(), "hair loss") && Avoids(Part4(), "hair loss")
    ensures Avoids(Part5(), "hair loss") && Avoids(Part6(), "hair loss")
  {
  }

  lemma DuplicatesWrittenLastInPart5()
    ensures IsLast(Part5(), "difficulty breathing", 4) && Avoids(Part6(), "difficulty breathing")
    ensures IsLast(Part5(), "wounds", 9) && Avoids(Part6(), "wounds")
    ensures IsLast(Part5(), "burns", 14) && Avoids(Part6(), "burns")
  {
  }

  lemma DuplicatesWrittenLastInPart6()
    ensures IsLast(Part6(), "choking", 6)
    ensures IsLast(Part6(), "allergic reaction", 8)
  {
  }

  lemma CardiacArrestWrittenOnce()
    ensures IsLast(Part6(), "CPR/cardiac arrest", 7)
  {
  }

  lemma SecondDuplicateTexts()
    ensures |Part2()| == |Part5()| == 15 && |Part6()| == 14
    ensures Part2()[8].text == Text(219)
    ensures Part5()[4].text == Text(427) && Part5()[9].text == Text(455) && Part5()[14].text == Text(482)
    ensures Part6()[6].text == Text(521) && Part6()[8].text == Text(532)
  {
  }

  /** Each key written twice in `advice_map` holds the text of its second entry. */
  lemma DuplicateKeysKeepLastText()
    ensures "hair loss" in Advice() && Advice()["hair loss"] == Text(219)
    ensures "difficulty breathing" in Advice() && Advice()["difficulty breathing"] == Text(427)
    ensures "wounds" in Advice() && Advice()["wounds"] == Text(455)
    ensures "burns" in Advice() && Advice()["burns"] == Text(482)
    ensures "choking" in Advice() && Advice()["choking"] == Text(521)
    ensures "allergic reaction" in Advice() && Advice()["allergic reaction"] == Text(532)
  {
    HairLossWrittenLastInPart2();
    DuplicatesWrittenLastInPart5();
    DuplicatesWrittenLastInPart6();
    LastInPart2("hair loss", 8);
    LastInPart5("difficulty breathing", 4);
    LastInPart5("wounds", 9);
    LastInPart5("burns", 14);
    LastInPart6("choking", 6);
    LastInPart6("allergic reaction", 8);
    SecondDuplicateTexts();
  }

  lemma PartEntries()
    ensures Part1()[12] == Entry("hair loss", Text(164)) && Part2()[8].key == "hair loss"
    ensures Part3()[12] == Entry("difficulty breathing", Text(314)) && Part5()[4].key == "difficulty breathing"
    ensures Part3()[14] == Entry("wounds", Text(324)) && Part5()[9].key == "wounds"
    ensures Part4()[0] == Entry("burns", Text(329)) && Part5()[14].key == "burns"
    ensures Part4()[2] == Entry("choking", Text(339)) && Part6()[6].key == "choking"
    ensures Part4()[3] == Entry("allergic reaction", Text(344)) && Part6()[8].key == "allergic reaction"
    ensures Part6()[7] == Entry("CPR/cardiac arrest", Text(526))
  {
  }

  /** Entry `i` of the literal is entry `i - 15 * n` of part `n + 1`. */
  lemma LiteralIndex(i: nat)
    requires i < 89
    ensures |Literal()| == 89
    ensures Literal()[i] ==
      if i < 15 then Part1()[i]
      else if i < 30 then Part2()[i - 15]
      else if i < 45 then Part3()[i - 30]
      else if i < 60 then Part4()[i - 45]
      else if i < 75 then Part5()[i - 60]
      else Part6()[i - 75]
  {
    PartsLinesIncreasing();
    var r5 := Part5() + Part6();
    var r4 := Part4() + r5;
    var r3 := Part3() + r4;
    var r2 := Part2() + r3;
    assert Literal() == Part1() + r2;
  }

  /** The entries of the literal that the duplicate-key and CPR facts are about. */
  lemma LiteralAt()
    ensures |Literal()| == 89
    ensures Literal()[12] == Entry("hair loss", Text(164)) && Literal()[23].key == "hair loss"
    ensures Literal()[42] == Entry("difficulty breathing", Text(314)) && Literal()[64].key == "difficulty breathing"
    ensures Literal()[44] == Entry("wounds", Text(324)) && Literal()[69].key == "wounds"
    ensures Literal()[45] == Entry("burns", Text(329)) && Literal()[74].key == "burns"
    ensures Literal()[47] == Entry("choking", Text(339)) && Literal()[81].key == "choking"
    ensures Literal()[48] == Entry("allergic reaction", Text(344)) && Literal()[83].key == "allergic reaction"
    ensures Literal()[82] == Entry("CPR/cardiac arrest", Text(526))
  {
    PartEntries();
    LiteralIndex(12); LiteralIndex(23);
    LiteralIndex(42); LiteralIndex(64);
    LiteralIndex(44); LiteralIndex(69);
    LiteralIndex(45); LiteralIndex(74);
    LiteralIndex(47); LiteralIndex(81);
    LiteralIndex(48); LiteralIndex(83);
    LiteralIndex(82);
  }

  /** The text of the first entry of each key written twice is held under no key. */
  lemma FirstDuplicateTextsUnreachable()
    ensures Text(164) !in Advice().Values
    ensures Text(314) !in Advice().Values
    ensures Text(324) !in Advice().Values
    ensures Text(329) !in Advice().Values
    ensures Text(339) !in Advice().Values
    ensures Text(344) !in Advice().Values
  {
    LiteralAt();
    LiteralLinesIncreasing();
    var es := Literal();
    ShadowedTextUnreachable(es, 12, 23);
    ShadowedTextUnreachable(es, 42, 64);
    ShadowedTextUnreachable(es, 44, 69);
    ShadowedTextUnreachable(es, 45, 74);
    ShadowedTextUnreachable(es, 47, 81);
    ShadowedTextUnreachable(es, 48, 83);
  }

  /** The CPR entry is written once, so its key holds its text. */
  lemma CardiacArrestHeld()
    ensures "CPR/cardiac arrest" in Advice() && Advice()["CPR/cardiac arrest"] == Text(526)
  {
    CardiacArrestWrittenOnce();
    LastInPart6("CPR/cardiac arrest", 7);
    PartEntries();
  }

  /** No key other than `'CPR/cardiac arrest'` holds the CPR text. */
  lemma CardiacArrestTextOwnKey(k: string)
    requires k in Advice() && Advice()[k] == Text(526)
    ensures k == "CPR/cardiac arrest"
  {
    LiteralAt();
    LiteralLinesIncreasing();
    TextNamesItsKey(Literal(), k, 82);
  }

  /** A key whose last entry is entry `i` of part 1 holds that entry's text. */
  lemma LastInPart1(k: string, i: nat)
    requires IsLast(Part1(), k, i)
    requires Avoids(Part2(), k) && Avoids(Part3(), k) && Avoids(Part4(), k)
    requires Avoids(Part5(), k) && Avoids(Part6(), k)
    ensures k in Advice() && Advice()[k] == Part1()[i].text
  {
    AdviceByParts();
    var m := map[];
    FoldLastWins(m, Part1(), k, i);
    m := Fold(m, Part1());
    FoldKeepsAbsent(m, Part2(), k);
    m := Fold(m, Part2());
    FoldKeepsAbsent(m, Part3(), k);
    m := Fold(m, Part3());
    FoldKeepsAbsent(m, Part4(), k);
    m := Fold(m, Part4());
    FoldKeepsAbsent(m, Part5(), k);
    m := Fold(m, Part5());
    FoldKeepsAbsent(m, Part6(), k);
  }

  lemma FirstKeysWrittenOnce()
    ensures IsLast(Part1(), "vomiting", 0) && IsLast(Part1(), "diarrhea", 1) && IsLast(Part1(), "lethargy", 2)
    ensures Part1()[0].text == Text(102) && Part1()[1].text == Text(108) && Part1()[2].text == Text(114)
  {
  }

  lemma FirstKeysNotRepeated(k: string)
    requires k in {"vomiting", "diarrhea", "lethargy"}
    ensures Avoids(Part2(), k) && Avoids(Part3(), k) && Avoids(Part4(), k)
    ensures Avoids(Part5(), k) && Avoids(Part6(), k)
  {
  }

  /** The first three keys of the literal are written once and hold their own texts. */
  lemma FirstKeysTexts()
    ensures "vomiting" in Advice() && Advice()["vomiting"] == Text(102)
    ensures "diarrhea" in Advice() && Advice()["diarrhea"] == Text(108)
    ensures "lethargy" in Advice() && Advice()["lethargy"] == Text(114)
  {
    FirstKeysWrittenOnce();
    FirstKeysNotRepeated("vomiting");
    FirstKeysNotRepeated("diarrhea");
    FirstKeysNotRepeated("lethargy");
    LastInPart1("vomiting", 0);
    LastInPart1("diarrhea", 1);
    LastInPart1("lethargy", 2);
  }
}
