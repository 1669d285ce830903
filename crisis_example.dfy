/** The transcript the repository's emergency test script sends to the
    analyser, worked through: only "end my life" is found, because the
    transcript says "cannot go on" where the phrase list has "can't go on". */
module CrisisExample {
  import opened Text
  import opened CrisisDetection

  /** The transcript; each user turn is written as the pieces the proofs
      below split it into. */
  function ExampleTranscript(): seq<Message>
  {
    [ Message("user", "I" + " am feeling" + " very sad today"),
      Message("assistant", "I am here to help you"),
      Message("user", "I" + " want to " + "end my life" + ", " + "I" + " cannot go on") ]
  }

  /** The lower-cased, space-joined user turns. */
  function ExampleText(): string
  {
    "i" + " am feeling" + " very sad today" + " " + "i" + " want to "
    + "end my life" + ", " + "i" + " cannot go on"
  }

  lemma LowerIsIdentity(s: string)
    requires forall i :: 0 <= i < |s| ==> !('A' <= s[i] <= 'Z')
    ensures ToLower(s) == s
  {
  }

  lemma FirstTurnLowered()
    ensures ToLower("I" + " am feeling" + " very sad today") == "i" + " am feeling" + " very sad today"
  {
    ToLowerAppend("I" + " am feeling", " very sad today");
    ToLowerAppend("I", " am feeling");
    LowerIsIdentity(" am feeling");
    LowerIsIdentity(" very sad today");
  }

  lemma SecondTurnFrontLowered()
    ensures ToLower("I" + " want to " + "end my life") == "i" + " want to " + "end my life"
  {
    ToLowerAppend("I" + " want to ", "end my life");
    ToLowerAppend("I", " want to ");
    LowerIsIdentity(" want to ");
    LowerIsIdentity("end my life");
  }

  lemma SecondTurnBackLowered()
    ensures ToLower(", " + "I" + " cannot go on") == ", " + "i" + " cannot go on"
  {
    ToLowerAppend(", " + "I", " cannot go on");
    ToLowerAppend(", ", "I");
    LowerIsIdentity(", ");
    LowerIsIdentity(" cannot go on");
  }

  lemma SecondTurnLowered()
    ensures ToLower("I" + " want to " + "end my life" + ", " + "I" + " cannot go on")
         == "i" + " want to " + "end my life" + ", " + "i" + " cannot go on"
  {
    var front, back := "I" + " want to " + "end my life", ", " + "I" + " cannot go on";
    assert "I" + " want to " + "end my life" + ", " + "I" + " cannot go on" == front + back;
    ToLowerAppend(front, back);
    SecondTurnFrontLowered();
    SecondTurnBackLowered();
  }

  lemma ExampleUserText()
    ensures UserText(ExampleTranscript()) == ExampleText()
  {
    var ms := ExampleTranscript();
    var first, second := "I" + " am feeling" + " very sad today", "I" + " want to " + "end my life" + ", " + "I" + " cannot go on";
    assert UserContents(ms) == [first, second];
    FirstTurnLowered();
    SecondTurnLowered();
    var lowered := LowerAll(UserContents(ms));
    assert Join(lowered, " ") == lowered[0] + " " + lowered[1];
  }

  /** The letters the keyword proofs rely on being absent from the text. */
  lemma ExampleMissingChars()
    ensures var t := ExampleText();
      'h' !in t && 'u' !in t && 'j' !in t && 'p' !in t && 'k' !in t && 'b' !in t && '\'' !in t
  {
    ExampleMissingLetters();
    ExampleMissingMarks();
  }

  /** A character missing from every piece is missing from the text. */
  lemma AbsentFromExample(c: char)
    requires c !in "i" && c !in " am feeling" && c !in " very sad today" && c !in " "
    requires c !in " want to " && c !in "end my life" && c !in ", " && c !in " cannot go on"
    ensures c !in ExampleText()
  {
  }

  lemma ExampleMissingLetters()
    ensures var t := ExampleText(); 'h' !in t && 'u' !in t && 'j' !in t && 'p' !in t
  {
    AbsentFromExample('h');
    AbsentFromExample('u');
    AbsentFromExample('j');
    AbsentFromExample('p');
  }

  lemma ExampleMissingMarks()
    ensures var t := ExampleText(); 'k' !in t && 'b' !in t && '\'' !in t
  {
    AbsentFromExample('k');
    AbsentFromExample('b');
    AbsentFromExample('\'');
  }

  /** The suicide phrases after the first two, in tier order. */
  function SuicideRestA(): seq<string>
  {
    ["want to die", "suicide", "suicidal", "not worth living", "better off dead"]
  }

  function SuicideRestB(): seq<string>
  {
    ["end it all", "take my life", "no reason to live", "want to disappear", "harm myself"]
  }

  lemma SuicideTierSplit()
    ensures SuicidePhrases == ["kill myself"] + ["end my life"] + SuicideRestA() + SuicideRestB()
  {
  }

  lemma SuicideRestAAbsent(t: string)
    requires 'h' !in t && 'u' !in t && 'b' !in t && PairFree(t, 'd', 'i')
    ensures forall k :: k in SuicideRestA() ==> !Contains(t, k)
  {
    AbsentPairRulesOut(t, "want to die", 8);
    AbsentCharRulesOut(t, "suicide", 'u');
    AbsentCharRulesOut(t, "suicidal", 'u');
    AbsentCharRulesOut(t, "not worth living", 'h');
    AbsentCharRulesOut(t, "better off dead", 'b');
  }

  lemma SuicideRestBAbsent(t: string)
    requires 'h' !in t && 'p' !in t && 'k' !in t && PairFree(t, 'i', 't') && PairFree(t, 'r', 'e')
    ensures forall k :: k in SuicideRestB() ==> !Contains(t, k)
  {
    AbsentPairRulesOut(t, "end it all", 4);
    AbsentCharRulesOut(t, "take my life", 'k');
    AbsentPairRulesOut(t, "no reason to live", 3);
    AbsentCharRulesOut(t, "want to disappear", 'p');
    AbsentCharRulesOut(t, "harm myself", 'h');
  }

  /** No self-harm phrase occurs in a text without 'h', 'u', 'j' and 'p'. */
  lemma SelfHarmTierAbsent(t: string)
    requires 'h' !in t && 'u' !in t && 'j' !in t && 'p' !in t
    ensures forall k :: k in SelfHarmPhrases ==> !Contains(t, k)
  {
    AbsentCharRulesOut(t, "hurt myself", 'h');
    AbsentCharRulesOut(t, "cut myself", 'u');
    AbsentCharRulesOut(t, "self harm", 'h');
    AbsentCharRulesOut(t, "self-harm", 'h');
    AbsentCharRulesOut(t, "injure myself", 'j');
    AbsentCharRulesOut(t, "pain myself", 'p');
    AbsentCharRulesOut(t, "punish myself", 'p');
  }

  /** No severe-distress phrase occurs in a text without an apostrophe and
      without 'p', 'h', 'b' and 'k'. */
  lemma SevereTierAbsent(t: string)
    requires '\'' !in t && 'p' !in t && 'h' !in t && 'b' !in t && 'k' !in t
    ensures forall k :: k in SeverePhrases ==> !Contains(t, k)
  {
    AbsentCharRulesOut(t, "can't go on", '\'');
    AbsentCharRulesOut(t, "give up", 'p');
    AbsentCharRulesOut(t, "no hope", 'h');
    AbsentCharRulesOut(t, "hopeless", 'h');
    AbsentCharRulesOut(t, "worthless", 'h');
    AbsentCharRulesOut(t, "burden to everyone", 'b');
    AbsentCharRulesOut(t, "everyone would be better without me", 'b');
    AbsentCharRulesOut(t, "can't take it anymore", 'k');
    AbsentCharRulesOut(t, "too much pain", 'p');
  }

  /** In a text that contains "end my life" but lacks the letters and
      letter pairs below, "end my life" is the only suicide phrase found. */
  lemma SuicideTierOnlyEndMyLife(t: string)
    requires 'h' !in t && 'u' !in t && 'p' !in t && 'k' !in t && 'b' !in t
    requires PairFree(t, 'd', 'i') && PairFree(t, 'i', 't') && PairFree(t, 'r', 'e')
    requires Contains(t, "end my life")
    ensures Present(SuicidePhrases, t) == ["end my life"]
  {
    AbsentCharRulesOut(t, "kill myself", 'k');
    SuicideRestAAbsent(t);
    SuicideRestBAbsent(t);
    PresentNone(SuicideRestA(), t);
    PresentNone(SuicideRestB(), t);
    assert Present(["kill myself"], t) == [];
    assert Present(["end my life"], t) == ["end my life"];
    SuicideTierSplit();
    PresentAppend(["kill myself"], ["end my life"], t);
    PresentAppend(["kill myself"] + ["end my life"], SuicideRestA(), t);
    PresentAppend(["kill myself"] + ["end my life"] + SuicideRestA(), SuicideRestB(), t);
  }

  /** The example contains "end my life". */
  lemma ExampleContainsEndMyLife()
    ensures Contains(ExampleText(), "end my life")
  {
    var before := "i" + " am feeling" + " very sad today" + " " + "i" + " want to ";
    var after := ", " + "i" + " cannot go on";
    assert ExampleText() == before + "end my life" + after;
    ContainsMiddle(before, "end my life", after);
  }

  /** The letter pairs the suicide-tier proof relies on being absent. */
  lemma ExamplePairsFree()
    ensures var t := ExampleText(); PairFree(t, 'd', 'i') && PairFree(t, 'i', 't') && PairFree(t, 'r', 'e')
  {
    PairFreeTranscript(ExampleText(), 'd', 'i');
    PairFreeTranscript(ExampleText(), 'i', 't');
    PairFreeTranscript(ExampleText(), 'r', 'e');
  }

  /** Of the suicide tier only "end my life" occurs in the example. */
  lemma ExampleSuicideTier()
    ensures Present(SuicidePhrases, ExampleText()) == ["end my life"]
  {
    ExampleContainsEndMyLife();
    ExampleMissingChars();
    ExamplePairsFree();
    SuicideTierOnlyEndMyLife(ExampleText());
  }

  /** No self-harm phrase occurs in the example. */
  lemma ExampleSelfHarmTier()
    ensures Present(SelfHarmPhrases, ExampleText()) == []
  {
    ExampleMissingChars();
    SelfHarmTierAbsent(ExampleText());
    PresentNone(SelfHarmPhrases, ExampleText());
  }

  /** No severe-distress phrase occurs in the example; in particular
      "can't go on" does not, since the transcript says "cannot go on". */
  lemma ExampleSevereTier()
    ensures Present(SeverePhrases, ExampleText()) == []
  {
    ExampleMissingChars();
    SevereTierAbsent(ExampleText());
    PresentNone(SeverePhrases, ExampleText());
  }

  /** "I want to end my life, I cannot go on" after a sad first turn scores
      exactly 10: critical, intervention required, keywords ["end my life"]. */
  lemma EndMyLifeScoresExactlyTen(now: int)
    ensures var a := Analyze(ExampleTranscript(), now);
      && a.crisisScore == 10
      && a.crisisLevel == Critical
      && a.isCrisis && a.requiresIntervention
      && a.detectedKeywords == ["end my life"]
  {
    ExampleUserText();
    ExampleSuicideTier();
    ExampleSelfHarmTier();
    ExampleSevereTier();
    assert Found(ExampleText()) == ["end my life"];
    assert Dedup(["end my life"]) == ["end my life"];
  }

  lemma PairFreeTranscript(t: string, x: char, y: char)
    requires t == ExampleText()
    requires (x, y) in {('d', 'i'), ('i', 't'), ('r', 'e')}
    ensures PairFree(t, x, y)
  {
    var p1, p2, p3, p4, p5 := "i", " am feeling", " very sad today", " ", "i";
    var p6, p7, p8, p9, p10 := " want to ", "end my life", ", ", "i", " cannot go on";
    assert PairFree(p1, x, y) && PairFree(p2, x, y) && PairFree(p3, x, y) && PairFree(p4, x, y);
    assert PairFree(p5, x, y) && PairFree(p6, x, y) && PairFree(p7, x, y) && PairFree(p8, x, y);
    assert PairFree(p9, x, y) && PairFree(p10, x, y);
    PairFreeAppend(p1, p2, x, y);
    PairFreeAppend(p1 + p2, p3, x, y);
    PairFreeAppend(p1 + p2 + p3, p4, x, y);
    PairFreeAppend(p1 + p2 + p3 + p4, p5, x, y);
    PairFreeAppend(p1 + p2 + p3 + p4 + p5, p6, x, y);
    PairFreeAppend(p1 + p2 + p3 + p4 + p5 + p6, p7, x, y);
    PairFreeAppend(p1 + p2 + p3 + p4 + p5 + p6 + p7, p8, x, y);
    PairFreeAppend(p1 + p2 + p3 + p4 + p5 + p6 + p7 + p8, p9, x, y);
    PairFreeAppend(p1 + p2 + p3 + p4 + p5 + p6 + p7 + p8 + p9, p10, x, y);
  }
}
