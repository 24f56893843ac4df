/** Concrete labels run through the model of analyze.ts. */
module LegacyAnalyzeScenarios {
  import opened JsText
  import opened RegExp
  import opened Classification
  import opened LegacyAnalyze
  import opened LegacyAnalyzeFacts

  /** `toLowerCase` leaves text without capitals alone. */
  lemma LowerOfSmall(s: string)
    requires forall i :: 0 <= i < |s| ==> !IsUpperLetter(s[i])
    ensures Lower(s) == s
  {
  }

  /** No gluten source has a pattern that fits in text of three characters or
      fewer: every head is longer. */
  lemma NoGlutenInShortText(t: string)
    requires |t| <= 3
    ensures forall k :: 0 <= k < |Sources| ==> !Test(Sources[k].rx, t)
  {
    NoCerealInShortText(t);
    NoSoyOrYeastInShortText(t);
  }

  lemma NoCerealInShortText(t: string)
    requires |t| <= 3
    ensures !Test(Wheat, t) && !Test(Barley, t) && !Test(Rye, t) && !Test(Oats, t)
  {
    RefuteByLead(Wheat, t);
    RefuteByLead(Barley, t);
    RefuteByLead(Rye, t);
    RefuteByLead(Oats, t);
  }

  lemma NoSoyOrYeastInShortText(t: string)
    requires |t| <= 3
    ensures !Test(SoyWheat, t) && !Test(BrewersYeast, t)
  {
    RefuteByLead(SoyWheat, t);
    RefuteByLead(BrewersYeast, t);
  }

  lemma NoHits(t: string)
    requires forall k :: 0 <= k < |Sources| ==> !Test(Sources[k].rx, t)
    ensures GlutenHits(t) == []
  {
    GlutenHitsFacts(t);
  }

  // ---------- The bare word "sal" ----------

  const Salt := "sal"

  lemma SaltIsSodium()
    ensures Test(Sodium, Salt)
  {
    var t := Salt;
    assert MatchFrom([Boundary], t, 3);
    assert MatchFrom([Lit("sal"), Boundary], t, 0);
    assert MatchFrom(Sodium[1], t, 0);
  }

  lemma SaltNoDairy()
    ensures !TestAny(Lactose, Salt)
  {
    SaltNoMilkOrCheese();
    SaltNoButterOrWhey();
  }

  lemma SaltNoMilkOrCheese()
    ensures !Test(Lactose[0], Salt) && !Test(Lactose[1], Salt) && !Test(Lactose[2], Salt)
  {
    RefuteByLead(Lactose[0], Salt);
    RefuteByLead(Lactose[1], Salt);
    RefuteByLead(Lactose[2], Salt);
  }

  lemma SaltNoButterOrWhey()
    ensures !Test(Lactose[3], Salt) && !Test(Lactose[4], Salt) && !Test(Lactose[5], Salt)
  {
    RefuteByLead(Lactose[3], Salt);
    RefuteByLead(Lactose[4], Salt);
    RefuteByLead(Lactose[5], Salt);
  }

  lemma SaltNoSugar()
    ensures !Test(Sugar, Salt)
  {
    RefuteRegexByPair(Sugar, Salt);
  }

  lemma SaltNoAdvisory()
    ensures !Test(Cross, Salt) && !Test(Artificial, Salt) && !Test(SeedOils, Salt)
  {
    RefuteByLead(Cross, Salt);
    RefuteByLead(Artificial, Salt);
    RefuteByLead(SeedOils, Salt);
  }

  lemma SaltNoClaims()
    ensures !Test(GfClaim, Salt) && !Test(LfClaim, Salt) && !Test(Fiber, Salt) && !Test(Protein, Salt)
  {
    RefuteByLead(GfClaim, Salt);
    RefuteByLead(LfClaim, Salt);
    RefuteByLead(Fiber, Salt);
    RefuteByLead(Protein, Salt);
  }

  lemma SaltFindings(t: string)
    requires t == Salt
    ensures Detect(t) == Findings([], false, false, false, true, false, false, false, false, false, false, false)
  {
    NoGlutenInShortText(t);
    NoHits(t);
    SaltIsSodium();
    SaltNoDairy();
    SaltNoSugar();
    SaltNoAdvisory();
    SaltNoClaims();
    assert !IsWhiteSpace(t[0]);
  }

  /** The bare word "sal" is a sodium finding here: the sodium con, and one
      point off. */
  lemma SaltIsSodiumCon(raw: string)
    requires Lower(raw) == Salt
    ensures Analysis(raw) == AnalyzeOutput(false, None, false, false, [], ["Puede ser alto en sodio"], 9, NoGlutenSentence)
  {
    SaltFindings(Lower(raw));
    SaltOutcome();
  }

  /** The result for a sodium finding and nothing else. */
  lemma SaltOutcome()
    ensures var f := Findings([], false, false, false, true, false, false, false, false, false, false, false);
      Classify(f) == AnalyzeOutput(false, None, false, false, [], ["Puede ser alto en sodio"], 9, NoGlutenSentence)
  {
    var f := Findings([], false, false, false, true, false, false, false, false, false, false, false);
    SelectNone(ProLabels, ProFlags(f));
    var c := [ConLabels[1]];
    SelectSeven(ConLabels, ConFlags(f), [], [], c, c, c, c, c, c);
  }

  // ---------- "AZÚCAR" ----------

  /** A label shouting "AZÚCAR". */
  const ShoutedSugar := "AZ\U{00DA}CAR"

  /** Lower-casing turns the capital Ú into ú, which `az[uú]car` accepts. */
  lemma ShoutedSugarMatches()
    ensures Test(Sugar, Lower(ShoutedSugar))
  {
    var t := Lower(ShoutedSugar);
    assert t[0] == 'a' && t[1] == 'z' && t[2] == '\U{00FA}' && t[3] == 'c' && t[4] == 'a' && t[5] == 'r';
    assert "az" <= t[0..];
    assert "car" <= t[3..];
    assert MatchFrom([Lit("car")], t, 3);
    assert MatchFrom([Class("u\U{00FA}"), Lit("car")], t, 2);
    assert MatchFrom(Sugar[0], t, 0);
  }

  /** Upper-case accented input still counts as added sugar. */
  lemma ShoutedSugarIsSugar()
    ensures "Azúcares añadidos" in Analysis(ShoutedSugar).cons
  {
    ShoutedSugarMatches();
    ConsFacts(ShoutedSugar);
  }

  // ---------- A worked example ----------

  /** "Harina de trigo, azúcar, sal" lower-cased: the accent stays. */
  const Example := "harina de trigo, az\U{00FA}car, sal"

  lemma ExampleWheat()
    ensures Test(Wheat, Example)
  {
    var t := Example;
    assert MatchFrom([Boundary], t, 15);
    assert "trigo" <= t[10..];
    assert MatchFrom([Lit("trigo"), Boundary], t, 10);
    assert MatchFrom(Wheat[0], t, 10);
  }

  lemma ExampleSugar()
    ensures Test(Sugar, Example)
  {
    var t := Example;
    assert "az" <= t[17..];
    assert "car" <= t[20..];
    assert MatchFrom([Lit("car")], t, 20);
    assert MatchFrom([Class("u\U{00FA}"), Lit("car")], t, 19);
    assert MatchFrom(Sugar[0], t, 17);
  }

  lemma ExampleSodium()
    ensures Test(Sodium, Example)
  {
    var t := Example;
    assert MatchFrom([Boundary], t, 28);
    assert "sal" <= t[25..];
    assert MatchFrom([Lit("sal"), Boundary], t, 25);
    assert MatchFrom(Sodium[1], t, 25);
  }

  lemma ExampleNoAdditives()
    ensures !Test(Artificial, Example)
  {
    RefuteByLead(Artificial, Example);
  }

  lemma ExampleNoSeedOils()
    ensures !Test(SeedOils, Example)
  {
    RefuteByLead(SeedOils, Example);
  }

  lemma ExampleNoMilk()
    ensures !Test(Lactose[0], Example) && !Test(Lactose[2], Example)
  {
    RefuteByLead(Lactose[0], Example);
    RefuteByLead(Lactose[2], Example);
  }

  lemma ExampleNoLactose()
    ensures !Test(Lactose[1], Example)
  {
    RefuteByLead(Lactose[1], Example);
  }

  lemma ExampleNoButter()
    ensures !Test(Lactose[3], Example)
  {
    RefuteByLead(Lactose[3], Example);
  }

  lemma ExampleNoCasein()
    ensures !Test(Lactose[4], Example)
  {
    RefuteByLead(Lactose[4], Example);
  }

  lemma ExampleNoWhey()
    ensures !Test(Lactose[5], Example)
  {
    RefuteByLead(Lactose[5], Example);
  }

  lemma ExampleNoAdvisory()
    ensures !Test(Cross, Example)
  {
    RefuteByLead(Cross, Example);
  }

  lemma ExampleNoGfClaim()
    ensures !Test(GfClaim, Example)
  {
    RefuteByLead(GfClaim, Example);
  }

  lemma ExampleNoLfClaim()
    ensures !Test(LfClaim, Example)
  {
    RefuteByLead(LfClaim, Example);
  }

  lemma ExampleNoFiber()
    ensures !Test(Fiber, Example)
  {
    assert Head(Fiber[0]) == "fibra" && Head(Fiber[1]) == "integral";
    RefuteByLead(Fiber, Example);
  }

  lemma ExampleNoProtein()
    ensures !Test(Protein, Example)
  {
    RefuteByLead(Protein, Example);
  }

  lemma ExampleGluten(t: string)
    requires t == Example
    ensures Detect(t).HasGluten() && Origin(Detect(t).glutenHits) == Some("trigo")
  {
    ExampleWheat();
    OriginOfHits(t);
    GlutenHitsFacts(t);
    assert ChainRx(0) == Wheat;
  }

  lemma ExampleAdditions(t: string)
    requires t == Example
    ensures var f := Detect(t); f.sugar && f.sodium && !f.artificial && !f.seedOils
  {
    ExampleSugar();
    ExampleSodium();
    ExampleNoAdditives();
    ExampleNoSeedOils();
  }

  lemma ExampleClaims(t: string)
    requires t == Example
    ensures var f := Detect(t); !f.hasLactose && !f.gfClaim && !f.lfClaim && !f.fiber && !f.protein && !f.blank
  {
    ExampleNoMilk();
    ExampleNoLactose();
    ExampleNoButter();
    ExampleNoCasein();
    ExampleNoWhey();
    ExampleNoGfClaim();
    ExampleNoLfClaim();
    ExampleNoFiber();
    ExampleNoProtein();
    assert !IsWhiteSpace(t[0]);
  }

  /** The result for findings with gluten from wheat, sugar, sodium and
      nothing else. */
  lemma ExampleOutcome(f: Findings)
    requires f.HasGluten() && f.sugar && f.sodium && !f.artificial && !f.seedOils && !f.hasLactose
    requires !f.gfClaim && !f.lfClaim && !f.fiber && !f.protein && !f.blank
    ensures Select(ProLabels, ProFlags(f)) == []
    ensures Select(ConLabels, ConFlags(f)) == ["Azúcares añadidos", "Puede ser alto en sodio", "Contiene gluten"]
    ensures Score(f) == 4
    ensures Summary(f, Some("trigo")) == "Este producto CONTIENE gluten (origen: trigo)."
  {
    SelectNone(ProLabels, ProFlags(f));
    var fl := ConFlags(f);
    var c1 := [ConLabels[0]];
    var c2 := c1 + [ConLabels[1]];
    var c5 := c2 + [ConLabels[4]];
    SelectSeven(ConLabels, fl, [], c1, c2, c2, c2, c5, c5, c5);
    assert GlutenPrefix + "trigo" + ")." == "Este producto CONTIENE gluten (origen: trigo).";
  }

  /** "Harina de trigo, azúcar, sal": wheat, sugar and, through the bare
      "sal", sodium, so the score is 10 - 3 - 2 - 1 = 4. */
  lemma ExampleAnalysis(raw: string)
    requires Lower(raw) == Example
    ensures Analysis(raw) == AnalyzeOutput(
      true, Some("trigo"), false, false, [],
      ["Azúcares añadidos", "Puede ser alto en sodio", "Contiene gluten"], 4,
      "Este producto CONTIENE gluten (origen: trigo).")
  {
    var t := Lower(raw);
    ExampleGluten(t);
    ExampleAdditions(t);
    ExampleClaims(t);
    ExampleNoAdvisory();
    ExampleOutcome(Detect(t));
  }
}
