/** Concrete labels run through the model of lib/analyze.ts: the quirks the
    classifier has, and a worked example. */
module LibAnalyzeScenarios {
  import opened JsText
  import opened RegExp
  import opened Classification
  import opened LibAnalyze
  import opened LibAnalyzeFacts

  /** `norm` leaves text of small ASCII letters, spaces and commas alone. */
  lemma {:induction false} NormOfPlain(s: string)
    requires forall i :: 0 <= i < |s| ==> 'a' <= s[i] <= 'z' || s[i] == ' ' || s[i] == ','
    ensures Norm(s) == s
  {
    if s != [] {
      NormOfPlain(s[1..]);
      assert NormChar(s[0]) == [s[0]];
    }
  }

  const Advisory := "puede contener trazas de trigo"

  lemma AdvisoryIsNormal()
    ensures Norm(Advisory) == Advisory
  {
    NormOfPlain(Advisory);
  }

  lemma WheatInAdvisory()
    ensures Test(Wheat, Advisory)
  {
    var t := Advisory;
    assert MatchFrom([Boundary], t, 30);
    assert "trigo" <= t[25..];
    assert MatchFrom([Lit("trigo"), Boundary], t, 25);
    assert MatchFrom(Wheat[0], t, 25);
  }

  lemma CrossInAdvisory()
    ensures Test(Cross, Advisory)
  {
    assert Advisory[..14] == "puede contener";
    assert MatchFrom(Cross[0], Advisory, 0);
  }

  /** A word of an advisory is still an ingredient: "puede contener trazas de
      trigo" reports gluten and the advisory, and the cross-contamination
      warning is held back because gluten was found. */
  lemma AdvisoryStillCountsGluten(raw: string)
    requires Norm(raw) == Advisory
    ensures var out := Analysis(raw);
      out.hasGluten && out.crossContam && out.glutenOrigin == Some("trigo/wheat")
      && "Contiene gluten" in out.cons && "Riesgo de contaminación cruzada" !in out.cons
  {
    WheatInAdvisory();
    CrossInAdvisory();
    OriginIsFirstMatch(raw);
    ConsFacts(raw);
  }

  // ---------- "sin lactosa" ----------

  const LactoseFree := "sin lactosa"

  lemma LactoseFreeDetected()
    ensures Test(LfClaim, LactoseFree)
  {
    assert LactoseFree[..11] == "sin lactosa";
    assert MatchFrom(LfClaim[0], LactoseFree, 0);
  }

  lemma LactoseWordDetected()
    ensures TestAny(Lactose, LactoseFree)
  {
    var t := LactoseFree;
    assert MatchFrom([Boundary], t, 11);
    assert "lactosa" <= t[4..];
    assert MatchFrom([Lit("lactosa"), Boundary], t, 4);
    assert MatchFrom(Lactose[1][0], t, 4);
    assert Test(Lactose[1], t);
  }

  /** The claim "sin lactosa" is both a pro and, through the word "lactosa",
      a lactose finding with its con. */
  lemma LactoseFreeClaimAlsoFindsLactose(raw: string)
    requires Norm(raw) == LactoseFree
    ensures var out := Analysis(raw);
      "Declarado sin lactosa" in out.pros && out.hasLactose && "Contiene lactosa/derivados" in out.cons
  {
    LactoseFreeDetected();
    LactoseWordDetected();
    ProsFacts(raw);
    ConsFacts(raw);
  }

  // ---------- "sal" ----------

  const Salt := "sal"

  lemma SaltIsNormal()
    ensures Norm(Salt) == Salt
  {
    NormOfPlain(Salt);
  }

  /** "sal" alone is not a sodium finding here: every sodium word is longer. */
  lemma BareSalIsNotSodium(raw: string)
    requires Norm(raw) == Salt
    ensures "Puede ser alto en sodio" !in Analysis(raw).cons
  {
    RefuteByLead(Sodium, Salt);
    ConsFacts(raw);
  }

  // ---------- Case and accents ----------

  lemma {:induction false} NormCharwise(s: string, t: string)
    requires |s| == |t| && forall i :: 0 <= i < |s| ==> NormChar(s[i]) == [t[i]]
    ensures Norm(s) == t
  {
    if s != [] {
      NormCharwise(s[1..], t[1..]);
      assert t == [t[0]] + t[1..];
    }
  }

  /** "TRIGO", "trígo", "trígo" with the accent as a combining mark, and
      "tri" + a spacing circumflex (U+02C6) + "go" all read as "trigo", so
      they are analysed alike. */
  lemma TrigoVariants()
    ensures Analysis("TRIGO") == Analysis("trigo")
    ensures Analysis("tr\U{00ED}go") == Analysis("trigo")
    ensures Analysis("tri\U{0301}go") == Analysis("trigo")
    ensures Analysis("tri\U{02C6}go") == Analysis("trigo")
  {
    TrigoUpper();
    TrigoAccented();
    TrigoDecomposed();
    TrigoModifier();
  }

  lemma TrigoUpper()
    ensures Norm("TRIGO") == Norm("trigo")
  {
    NormCharwise("TRIGO", "trigo");
    NormOfPlain("trigo");
  }

  lemma TrigoAccented()
    ensures Norm("tr\U{00ED}go") == Norm("trigo")
  {
    NormCharwise("tr\U{00ED}go", "trigo");
    NormOfPlain("trigo");
  }

  lemma TrigoModifier()
    ensures Norm("tri\U{02C6}go") == Norm("trigo")
  {
    NormSkipsMark("tri", '\U{02C6}', "go");
    assert "tri" + ['\U{02C6}'] + "go" == "tri\U{02C6}go";
    assert "tri" + "go" == "trigo";
  }

  lemma TrigoDecomposed()
    ensures Norm("tri\U{0301}go") == Norm("trigo")
  {
    NormSkipsMark("tri", '\U{0301}', "go");
    assert "tri" + ['\U{0301}'] + "go" == "tri\U{0301}go";
    assert "tri" + "go" == "trigo";
  }

  // ---------- A worked example ----------

  const Example := "harina de trigo, azucar, sal"

  /** The label as printed, "Harina de trigo, azúcar, sal", in the pieces
      that `norm` treats differently: the capital, the accented letter and
      the plain runs between them. */
  const ExampleCap := "H"
  const ExampleHead := "arina de trigo, az"
  const ExampleAccent := "\U{00FA}"
  const ExampleTail := "car, sal"
  const ExampleRaw := ExampleCap + ExampleHead + ExampleAccent + ExampleTail

  lemma ExampleHeadPlain()
    ensures Norm(ExampleHead) == ExampleHead
  {
    NormOfPlain(ExampleHead);
  }

  lemma ExampleTailPlain()
    ensures Norm(ExampleTail) == ExampleTail
  {
    NormOfPlain(ExampleTail);
  }

  lemma ExampleCapital()
    ensures Norm(ExampleCap) == "h"
  {
    NormCharwise(ExampleCap, "h");
  }

  lemma ExampleAccented()
    ensures Norm(ExampleAccent) == "u"
  {
    NormCharwise(ExampleAccent, "u");
  }

  lemma ExampleSplit()
    ensures ExampleRaw == ExampleCap + (ExampleHead + (ExampleAccent + ExampleTail))
    ensures Example == "h" + (ExampleHead + ("u" + ExampleTail))
  {
  }

  /** The printed label normalises to the example text. */
  lemma ExampleLabel()
    ensures Norm(ExampleRaw) == Example
  {
    ExampleHeadPlain();
    ExampleTailPlain();
    ExampleCapital();
    ExampleAccented();
    ExampleSplit();
    NormConcat(ExampleAccent, ExampleTail);
    NormConcat(ExampleHead, ExampleAccent + ExampleTail);
    NormConcat(ExampleCap, ExampleHead + (ExampleAccent + ExampleTail));
  }

  lemma ExampleWheat()
    ensures Test(Wheat, Example)
  {
    var t := Example;
    assert MatchFrom([Boundary], t, 15);
    assert "trigo" <= t[10..];
    assert MatchFrom([Lit("trigo"), Boundary], t, 10);
    assert MatchFrom(Wheat[0], t, 10);
  }

  lemma ExampleSugar()
    ensures Test(Sugar, Example)
  {
    var t := Example;
    assert MatchFrom([Boundary], t, 23);
    assert "azucar" <= t[17..];
    assert MatchFrom([Lit("azucar"), Boundary], t, 17);
    assert MatchFrom(Sugar[0], t, 17);
  }

  lemma ExampleNoSodium()
    ensures !Test(Sodium, Example)
  {
    RefuteByLead(Sodium, Example);
  }

  lemma ExampleNoAdditives()
    ensures !Test(Artificial, Example)
  {
    RefuteByLead(Artificial, Example);
  }

  lemma ExampleNoSeedOils()
    ensures !Test(SeedOils, Example)
  {
    RefuteByLead(SeedOils, Example);
  }

  lemma ExampleNoDairy()
    ensures !TestAny(Lactose, Example)
  {
    ExampleNoMilk();
    ExampleNoLactose();
    ExampleNoButterOrCream();
    ExampleNoCasein();
    ExampleNoWhey();
  }

  lemma ExampleNoMilk()
    ensures !Test(Lactose[0], Example) && !Test(Lactose[1], Example)
  {
    RefuteByLead(Lactose[0], Example);
    RefuteByLead(Lactose[1], Example);
  }

  lemma ExampleNoLactose()
    ensures !Test(Lactose[2], Example)
  {
    RefuteByLead(Lactose[2], Example);
  }

  lemma ExampleNoButterOrCream()
    ensures !Test(Lactose[3], Example) && !Test(Lactose[4], Example)
  {
    ExampleNoButter();
    ExampleNoCream();
  }

  lemma ExampleNoButter()
    ensures !Test(Lactose[3], Example)
  {
    RefuteByLead(Lactose[3], Example);
  }

  lemma ExampleNoCream()
    ensures !Test(Lactose[4], Example)
  {
    RefuteByLead(Lactose[4], Example);
  }

  lemma ExampleNoCasein()
    ensures !Test(Lactose[5], Example)
  {
    RefuteByLead(Lactose[5], Example);
  }

  lemma ExampleNoWhey()
    ensures !Test(Lactose[6], Example)
  {
    RefuteByLead(Lactose[6], Example);
  }

  lemma ExampleNoAdvisory()
    ensures !Test(Cross, Example)
  {
    RefuteByLead(Cross, Example);
  }

  lemma ExampleNoGfClaim()
    ensures !Test(GfClaim, Example)
  {
    RefuteByLead(GfClaim, Example);
  }

  lemma ExampleNoLfClaim()
    ensures !Test(LfClaim, Example)
  {
    RefuteByLead(LfClaim, Example);
  }

  lemma ExampleNoFiber()
    ensures !Test(Fiber, Example)
  {
    RefuteByLead(Fiber, Example);
  }

  lemma ExampleNoProtein()
    ensures !Test(Protein, Example)
  {
    RefuteByLead(Protein, Example);
  }

  lemma ExampleNoBarley()
    ensures !Test(Barley, Example)
  {
    assert Head(Barley[0]) == "cebada" && Head(Barley[1]) == "barley";
    assert Head(Barley[2]) == "malta" && Head(Barley[3]) == "malt";
    RefuteByLead(Barley, Example);
  }

  lemma ExampleNoRye()
    ensures !Test(Rye, Example)
  {
    assert Head(Rye[0]) == "centeno" && Head(Rye[1]) == "rye";
    RefuteByLead(Rye, Example);
  }

  lemma ExampleNoOats()
    ensures !Test(Oats, Example)
  {
    assert Head(Oats[0]) == "avena" && Head(Oats[1]) == "oats";
    RefuteByLead(Oats, Example);
  }

  lemma ExampleNoSoySauce()
    ensures !Test(SoySauce, Example)
  {
    ExampleNoSoyNamed();
    ExampleNoSoyJoined();
    RefuteSplit(SoySauce, 2, Example);
  }

  /** Neither "salsa de soya" nor "soy sauce"... */
  lemma ExampleNoSoyNamed()
    ensures !Test(SoySauce[..2], Example)
  {
    var r := SoySauce[..2];
    assert r == [[Lit("salsa de soya")], [Lit("soy sauce")]];
    RefuteByLead(r, Example);
  }

  /** ... nor soy and wheat on one line. */
  lemma ExampleNoSoyJoined()
    ensures !Test(SoySauce[2..], Example)
  {
    var r := SoySauce[2..];
    assert r == [[Lit("soja"), AnyRun, Lit("trigo")], [Lit("soy"), AnyRun, Lit("wheat")], [Lit("wheat"), AnyRun, Lit("soy")]];
    RefuteByLead(r, Example);
  }

  lemma ExampleNoBrewersYeast()
    ensures !Test(BrewersYeast, Example)
  {
    assert Head(BrewersYeast[0]) == "levadura de cerveza" && Head(BrewersYeast[1]) == "brewer";
    RefuteByLead(BrewersYeast, Example);
  }

  /** Wheat is the only gluten source the example shows. */
  lemma ExampleGluten(t: string)
    requires t == Example
    ensures Detect(t).HasGluten() && Detect(t).glutenHits == ["trigo/wheat"]
  {
    ExampleWheat();
    ExampleNoBarley();
    ExampleNoRye();
    ExampleNoOats();
    ExampleNoSoySauce();
    ExampleNoBrewersYeast();
    WheatOnly(t);
  }

  /** Text on which only the wheat pattern matches has wheat as its only hit. */
  lemma WheatOnly(t: string)
    requires Test(Wheat, t) && !Test(Barley, t) && !Test(Rye, t) && !Test(Oats, t)
    requires !Test(SoySauce, t) && !Test(BrewersYeast, t)
    ensures GlutenHits(t) == ["trigo/wheat"] && |GlutenHits(t)| > 0
  {
    var keys, flags := GlutenKeys(), GlutenFlags(t);
    assert flags == [true, false, false, false, false, false];
    assert Select(keys[5..], flags[5..]) == [];
    assert Select(keys[4..], flags[4..]) == [];
    assert Select(keys[3..], flags[3..]) == [];
    assert Select(keys[2..], flags[2..]) == [];
    assert Select(keys[1..], flags[1..]) == [];
    assert keys[0] == "trigo/wheat";
  }

  lemma ExampleAdditions(t: string)
    requires t == Example
    ensures var f := Detect(t); f.sugar && !f.sodium && !f.artificial && !f.seedOils
  {
    ExampleSugar();
    ExampleNoSodium();
    ExampleNoAdditives();
    ExampleNoSeedOils();
  }

  lemma ExampleClaims(t: string)
    requires t == Example
    ensures var f := Detect(t); !f.hasLactose && !f.gfClaim && !f.lfClaim && !f.fiber && !f.protein && !f.blank
  {
    ExampleNoDairy();
    ExampleNoGfClaim();
    ExampleNoLfClaim();
    ExampleNoFiber();
    ExampleNoProtein();
    assert !IsWhiteSpace(t[0]);
  }

  /** What the detectors find in the example text. */
  lemma ExampleFindings(t: string)
    requires t == Example
    ensures var f := Detect(t);
      && f.glutenHits == ["trigo/wheat"] && f.sugar && !f.sodium && !f.artificial && !f.seedOils && !f.hasLactose
      && !f.crossContam && !f.gfClaim && !f.lfClaim && !f.fiber && !f.protein && !f.blank
  {
    ExampleNoAdvisory();
    ExampleGluten(t);
    ExampleAdditions(t);
    ExampleClaims(t);
  }

  /** ... and what they add up to. */
  lemma ExampleClassified()
    ensures Classify(Detect(Example)) == AnalyzeOutput(
      true, Some("trigo/wheat"), false, false, [],
      ["Azúcares añadidos", "Contiene gluten"], 5,
      "Este producto CONTIENE gluten (origen: trigo/wheat).")
  {
    ExampleWheat();
    ExampleFindings(Example);
    OriginOfHits(Example);
    ExampleOutcome(Detect(Example));
  }

  /** "Harina de trigo, azúcar, sal": wheat and sugar; "sal" is no sodium
      finding, so the score is 10 - 3 - 2 = 5. */
  lemma ExampleAnalysis(raw: string)
    requires Norm(raw) == Example
    ensures Analysis(raw) == AnalyzeOutput(
      true, Some("trigo/wheat"), false, false, [],
      ["Azúcares añadidos", "Contiene gluten"], 5,
      "Este producto CONTIENE gluten (origen: trigo/wheat).")
  {
    ExampleClassified();
  }

  /** The result for findings with gluten from wheat, sugar and nothing else. */
  lemma ExampleOutcome(f: Findings)
    requires f.HasGluten() && f.sugar && !f.sodium && !f.artificial && !f.seedOils && !f.hasLactose
    requires !f.gfClaim && !f.lfClaim && !f.fiber && !f.protein && !f.blank
    ensures Select(ProLabels, ProFlags(f)) == []
    ensures Select(ConLabels, ConFlags(f)) == ["Azúcares añadidos", "Contiene gluten"]
    ensures Score(f) == 5
    ensures Summary(f, Some("trigo/wheat")) == "Este producto CONTIENE gluten (origen: trigo/wheat)."
  {
    SelectNone(ProLabels, ProFlags(f));
    var fl := ConFlags(f);
    var c1 := [ConLabels[0]];
    var c5 := c1 + [ConLabels[4]];
    SelectSeven(ConLabels, fl, [], c1, c1, c1, c1, c5, c5, c5);
    assert GlutenPrefix + "trigo/wheat" + ")." == "Este producto CONTIENE gluten (origen: trigo/wheat).";
  }

  /** The printed label itself: the capital and the accent make no difference. */
  lemma ExampleRawAnalysis()
    ensures Analysis(ExampleRaw) == AnalyzeOutput(
      true, Some("trigo/wheat"), false, false, [],
      ["Azúcares añadidos", "Contiene gluten"], 5,
      "Este producto CONTIENE gluten (origen: trigo/wheat).")
  {
    ExampleLabel();
    ExampleAnalysis(ExampleRaw);
  }
}
