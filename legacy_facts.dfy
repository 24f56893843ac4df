/** What `localAnalyze` in analyze.ts promises, proved about the model
    `LegacyAnalyze.Analysis`. */
module LegacyAnalyzeFacts {
  import opened JsText
  import opened RegExp
  import opened Classification
  import opened LegacyAnalyze

  // ---------- The tables ----------

  lemma LabelsDistinct()
    ensures Distinct(SourceKeys()) && Distinct(ChainKeys) && Distinct(ChainLabels)
    ensures Distinct(ProLabels) && Distinct(ConLabels)
  {
  }

  /** The chain asks about every source exactly once: its k-th key is the key
      of source ChainSource[k], and every source has a place in it. */
  lemma ChainCoversSources()
    ensures |ChainKeys| == |ChainSource| == |ChainLabels| == |Sources|
    ensures forall k :: 0 <= k < |ChainSource| ==> ChainSource[k] < |Sources| && ChainKeys[k] == Sources[ChainSource[k]].key && ChainRx(k) == Sources[ChainSource[k]].rx
    ensures forall j :: 0 <= j < |Sources| ==> j in ChainSource
  {
    assert ChainSource[0] == 0 && ChainSource[1] == 1 && ChainSource[2] == 2;
    assert ChainSource[4] == 3 && ChainSource[3] == 4 && ChainSource[5] == 5;
  }

  // ---------- Gluten ----------

  /** A source counts as a hit exactly when its pattern matches; the hits
      follow table order and hold no key twice. */
  lemma GlutenHitsFacts(text: string)
    ensures SubsequenceOf(GlutenHits(text), SourceKeys()) && Distinct(GlutenHits(text))
    ensures forall x :: x in GlutenHits(text) ==> x in SourceKeys()
    ensures forall k :: 0 <= k < |Sources| ==> (Sources[k].key in GlutenHits(text) <==> Test(Sources[k].rx, text))
    ensures |GlutenHits(text)| > 0 <==> exists k :: 0 <= k < |Sources| && Test(Sources[k].rx, text)
  {
    LabelsDistinct();
    SelectFacts(SourceKeys(), SourceFlags(text));
    var hits := GlutenHits(text);
    if |hits| > 0 {
      assert hits[0] in SourceKeys();
    }
  }

  /** A hit list of source keys that holds some key gets an origin. */
  lemma OriginOfSourceKeys(hits: seq<string>)
    requires |hits| > 0 && forall x :: x in hits ==> x in SourceKeys()
    ensures Origin(hits).Some?
  {
    assert hits[0] in hits;
  }

  /** The label of the first key of the chain among the hits. */
  lemma OriginIsChainFirst(hits: seq<string>, k: nat)
    requires k < |ChainKeys| && ChainKeys[k] in hits && forall j :: 0 <= j < k ==> ChainKeys[j] !in hits
    ensures Origin(hits) == Some(ChainLabels[k])
  {
  }

  /** The origin is set exactly when there is a hit, and it is then the label
      of the first source in the chain's order whose pattern matched. */
  lemma OriginOfHits(text: string)
    ensures Origin(GlutenHits(text)).Some? <==> |GlutenHits(text)| > 0
    ensures forall k :: 0 <= k < |ChainSource| && Test(ChainRx(k), text) &&
                        (forall j :: 0 <= j < k ==> !Test(ChainRx(j), text)) ==>
              Origin(GlutenHits(text)) == Some(ChainLabels[k])
  {
    var hits := GlutenHits(text);
    GlutenHitsFacts(text);
    ChainCoversSources();
    if |hits| > 0 {
      OriginOfSourceKeys(hits);
    }
    forall k | 0 <= k < |ChainSource| && Test(ChainRx(k), text) &&
               (forall j :: 0 <= j < k ==> !Test(ChainRx(j), text))
      ensures Origin(hits) == Some(ChainLabels[k])
    {
      forall j | 0 <= j < k ensures ChainKeys[j] !in hits {
        assert !Test(ChainRx(j), text);
      }
      OriginIsChainFirst(hits, k);
    }
  }

  /** `glutenOrigin` is set exactly when gluten was found, which is when some
      source's pattern matches the lower-cased text; it is then the label of
      the first such source in the chain's order trigo, cebada, centeno,
      soya+trigo, avena, levadura de cerveza. */
  lemma OriginIsFirstMatch(raw: string)
    ensures Analysis(raw).glutenOrigin.Some? <==> Analysis(raw).hasGluten
    ensures Analysis(raw).hasGluten <==> exists k :: 0 <= k < |Sources| && Test(Sources[k].rx, Lower(raw))
    ensures forall k :: 0 <= k < |ChainSource| && Test(ChainRx(k), Lower(raw)) &&
                        (forall j :: 0 <= j < k ==> !Test(ChainRx(j), Lower(raw))) ==>
              Analysis(raw).glutenOrigin == Some(ChainLabels[k])
  {
    GlutenHitsFacts(Lower(raw));
    OriginOfHits(Lower(raw));
  }

  // ---------- Pros and cons ----------

  /** The pros are an ordered selection from the four pro labels, each one
      present exactly when its claim or nutrient was detected. */
  lemma ProsFacts(raw: string)
    ensures var text, pros := Lower(raw), Analysis(raw).pros;
      && SubsequenceOf(pros, ProLabels) && Distinct(pros) && |pros| <= 4
      && ("Declarado sin gluten" in pros <==> Test(GfClaim, text))
      && ("Declarado sin lactosa" in pros <==> Test(LfClaim, text))
      && ("Fuente de fibra/integral" in pros <==> Test(Fiber, text))
      && ("Aporte de proteína" in pros <==> Test(Protein, text))
  {
    LabelsDistinct();
    ProsSelected(ProLabels, Detect(Lower(raw)));
    assert ProLabels[0] == "Declarado sin gluten" && ProLabels[1] == "Declarado sin lactosa";
    assert ProLabels[2] == "Fuente de fibra/integral" && ProLabels[3] == "Aporte de proteína";
  }

  lemma ConsOf(f: Findings)
    ensures var cons := Select(ConLabels, ConFlags(f));
      && SubsequenceOf(cons, ConLabels) && Distinct(cons) && |cons| <= 7
      && ("Azúcares añadidos" in cons <==> f.sugar)
      && ("Puede ser alto en sodio" in cons <==> f.sodium)
      && ("Aditivos/artificiales" in cons <==> f.artificial)
      && ("Aceites vegetales refinados" in cons <==> f.seedOils)
      && ("Contiene gluten" in cons <==> f.HasGluten())
      && ("Contiene lactosa/derivados" in cons <==> f.hasLactose)
      && ("Riesgo de contaminación cruzada" in cons <==> f.crossContam && !f.HasGluten())
  {
    LabelsDistinct();
    ConsSelected(ConLabels, f);
    assert ConLabels[0] == "Azúcares añadidos" && ConLabels[1] == "Puede ser alto en sodio";
    assert ConLabels[2] == "Aditivos/artificiales" && ConLabels[3] == "Aceites vegetales refinados";
    assert ConLabels[4] == "Contiene gluten" && ConLabels[5] == "Contiene lactosa/derivados";
    assert ConLabels[6] == "Riesgo de contaminación cruzada";
  }

  /** The cons are an ordered selection from the seven con labels: one per
      quality finding, "Contiene gluten" exactly when gluten was found, and
      the cross-contamination warning only when gluten was not. */
  lemma ConsFacts(raw: string)
    ensures var text, out := Lower(raw), Analysis(raw);
      && SubsequenceOf(out.cons, ConLabels) && Distinct(out.cons) && |out.cons| <= 7
      && ("Azúcares añadidos" in out.cons <==> Test(Sugar, text))
      && ("Puede ser alto en sodio" in out.cons <==> Test(Sodium, text))
      && ("Aditivos/artificiales" in out.cons <==> Test(Artificial, text))
      && ("Aceites vegetales refinados" in out.cons <==> Test(SeedOils, text))
      && ("Contiene gluten" in out.cons <==> out.hasGluten)
      && ("Contiene lactosa/derivados" in out.cons <==> out.hasLactose)
      && ("Riesgo de contaminación cruzada" in out.cons <==> out.crossContam && !out.hasGluten)
  {
    ConsOf(Detect(Lower(raw)));
  }

  // ---------- Score ----------

  /** The score is 10 minus the points of the cons listed, with the same
      weights as lib/analyze.ts, and the clamp never changes the value. */
  lemma ScoreMatchesCons(raw: string)
    ensures 1 <= Analysis(raw).score <= 10
    ensures Analysis(raw).score == 10 - Weight(ConLabels, Analysis(raw).cons)
  {
    var f := Detect(Lower(raw));
    LabelsDistinct();
    ConsWeigh(ConLabels, f);
    ScoreBounds(f);
  }

  // ---------- Blank input ----------

  /** Every pattern needs a word character where it starts. */
  lemma GlutenPatternsStartWithWords()
    ensures AllStartWithWord(Wheat) && AllStartWithWord(Barley) && AllStartWithWord(Rye) && AllStartWithWord(Oats)
    ensures AllStartWithWord(SoyWheat) && AllStartWithWord(BrewersYeast) && AllStartWithWord(Cross)
    ensures forall k :: 0 <= k < |Lactose| ==> AllStartWithWord(Lactose[k])
  {
  }

  lemma OtherPatternsStartWithWords()
    ensures AllStartWithWord(Sugar) && AllStartWithWord(Sodium) && AllStartWithWord(Artificial)
    ensures AllStartWithWord(SeedOils) && AllStartWithWord(Protein) && AllStartWithWord(Fiber)
    ensures AllStartWithWord(GfClaim) && AllStartWithWord(LfClaim)
  {
  }

  /** No detector fires on blank text. */
  lemma DetectBlank(text: string)
    requires TrimmedEmpty(text)
    ensures Detect(text) == Findings([], false, false, false, false, false, false, false, false, false, false, true)
  {
    GlutenPatternsStartWithWords();
    OtherPatternsStartWithWords();
    forall k | 0 <= k < |Sources| ensures !Test(Sources[k].rx, text) {
      RefuteInBlank(Sources[k].rx, text);
    }
    forall k | 0 <= k < |Lactose| ensures !Test(Lactose[k], text) {
      RefuteInBlank(Lactose[k], text);
    }
    RefuteInBlank(Cross, text);
    RefuteInBlank(Sugar, text);
    RefuteInBlank(Sodium, text);
    RefuteInBlank(Artificial, text);
    RefuteInBlank(SeedOils, text);
    RefuteInBlank(Protein, text);
    RefuteInBlank(Fiber, text);
    RefuteInBlank(GfClaim, text);
    RefuteInBlank(LfClaim, text);
    GlutenHitsFacts(text);
  }

  /** Blank input yields no finding at all, the best score and the prompt to
      scan a product. */
  lemma BlankInput(raw: string)
    requires TrimmedEmpty(raw)
    ensures Analysis(raw) == AnalyzeOutput(false, None, false, false, [], [], 10, PromptSentence)
  {
    assert TrimmedEmpty(Lower(raw));
    DetectBlank(Lower(raw));
    var f := Findings([], false, false, false, false, false, false, false, false, false, false, true);
    SelectNone(ProLabels, ProFlags(f));
    SelectNone(ConLabels, ConFlags(f));
  }

  // ---------- Dependence on the text through `toLowerCase` only ----------

  /** Capitals do not matter. */
  lemma AnalysisOfLower(raw: string)
    ensures Analysis(Lower(raw)) == Analysis(raw)
  {
    LowerIdempotent(raw);
  }
}
