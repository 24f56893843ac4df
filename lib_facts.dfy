/** What `localAnalyze` in lib/analyze.ts promises, proved about the model
    `LibAnalyze.Analysis`. */
module LibAnalyzeFacts {
  import opened JsText
  import opened RegExp
  import opened Classification
  import opened LibAnalyze

  // ---------- The tables ----------

  lemma LabelsDistinct()
    ensures Distinct(Order) && Distinct(ProLabels) && Distinct(ConLabels)
  {
  }

  /** The precedence list names the sources of `glutenMap` in table order. */
  lemma KeysAreOrder()
    ensures GlutenKeys() == Order
  {
  }

  // ---------- Gluten ----------

  /** A source counts as a hit exactly when its pattern matches; the hits
      follow table order and hold no key twice. */
  lemma GlutenHitsFacts(text: string)
    ensures SubsequenceOf(GlutenHits(text), Order) && Distinct(GlutenHits(text))
    ensures forall k :: 0 <= k < |GlutenMap| ==> (GlutenMap[k].key in GlutenHits(text) <==> Test(GlutenMap[k].rx, text))
    ensures |GlutenHits(text)| > 0 <==> exists k :: 0 <= k < |GlutenMap| && Test(GlutenMap[k].rx, text)
  {
    LabelsDistinct();
    KeysAreOrder();
    SelectFacts(GlutenKeys(), GlutenFlags(text));
    var hits := GlutenHits(text);
    if |hits| > 0 {
      assert hits[0] in Order;
    }
  }

  /** The first key of the list among the hits is the one before which no key is a hit. */
  lemma {:induction false} FindFirstIs(order: seq<string>, hits: seq<string>, k: nat)
    requires k < |order| && order[k] in hits && forall j :: 0 <= j < k ==> order[j] !in hits
    ensures FindFirst(order, hits) == Some(order[k])
  {
    if k > 0 {
      FindFirstIs(order[1..], hits, k - 1);
    }
  }

  /** The origin of a list of hits is set exactly when there is a hit, and it
      is then the first key of the precedence list among the hits. */
  lemma OriginOfHits(text: string)
    ensures Origin(GlutenHits(text)).Some? <==> |GlutenHits(text)| > 0
    ensures forall k :: 0 <= k < |GlutenMap| && Test(GlutenMap[k].rx, text) &&
                        (forall j :: 0 <= j < k ==> !Test(GlutenMap[j].rx, text)) ==>
              Origin(GlutenHits(text)) == Some(Order[k])
  {
    var hits := GlutenHits(text);
    GlutenHitsFacts(text);
    KeysAreOrder();
    forall k | 0 <= k < |GlutenMap| && Test(GlutenMap[k].rx, text) &&
               (forall j :: 0 <= j < k ==> !Test(GlutenMap[j].rx, text))
      ensures Origin(hits) == Some(Order[k])
    {
      OriginAt(hits, k);
    }
  }

  /** When the k-th key of the precedence list is the first one among the
      hits, it is the origin. */
  lemma OriginAt(hits: seq<string>, k: nat)
    requires k < |Order| && Order[k] in hits && forall j :: 0 <= j < k ==> Order[j] !in hits
    ensures Origin(hits) == Some(Order[k])
  {
    FindFirstIs(Order, hits, k);
    assert Order[k] != "";
  }

  /** `glutenOrigin` is set exactly when gluten was found, which is when some
      source's pattern matches the normalised text, and it is then the key of
      the first such source in precedence order; the fallback
      `|| glutenHits[0]` is never taken. */
  lemma OriginIsFirstMatch(raw: string)
    ensures Analysis(raw).glutenOrigin.Some? <==> Analysis(raw).hasGluten
    ensures Analysis(raw).hasGluten <==> exists k :: 0 <= k < |GlutenMap| && Test(GlutenMap[k].rx, Norm(raw))
    ensures forall k :: 0 <= k < |GlutenMap| && Test(GlutenMap[k].rx, Norm(raw)) &&
                        (forall j :: 0 <= j < k ==> !Test(GlutenMap[j].rx, Norm(raw))) ==>
              Analysis(raw).glutenOrigin == Some(Order[k])
  {
    GlutenHitsFacts(Norm(raw));
    OriginOfHits(Norm(raw));
  }

  // ---------- Pros and cons ----------

  /** The pros are an ordered selection from the four pro labels, each one
      present exactly when its claim or nutrient was detected. */
  lemma ProsOf(f: Findings)
    ensures var pros := Select(ProLabels, ProFlags(f));
      && SubsequenceOf(pros, ProLabels) && Distinct(pros) && |pros| <= 4
      && ("Declarado sin gluten" in pros <==> f.gfClaim)
      && ("Declarado sin lactosa" in pros <==> f.lfClaim)
      && ("Fuente de fibra/integral" in pros <==> f.fiber)
      && ("Aporte de proteína" in pros <==> f.protein)
  {
    LabelsDistinct();
    ProsSelected(ProLabels, f);
    assert ProLabels[0] == "Declarado sin gluten" && ProLabels[1] == "Declarado sin lactosa";
    assert ProLabels[2] == "Fuente de fibra/integral" && ProLabels[3] == "Aporte de proteína";
  }

  lemma ProsFacts(raw: string)
    ensures var text, pros := Norm(raw), Analysis(raw).pros;
      && SubsequenceOf(pros, ProLabels) && Distinct(pros) && |pros| <= 4
      && ("Declarado sin gluten" in pros <==> Test(GfClaim, text))
      && ("Declarado sin lactosa" in pros <==> Test(LfClaim, text))
      && ("Fuente de fibra/integral" in pros <==> Test(Fiber, text))
      && ("Aporte de proteína" in pros <==> Test(Protein, text))
  {
    ProsOf(Detect(Norm(raw)));
  }

  /** The cons are an ordered selection from the seven con labels: one per
      quality finding, "Contiene gluten" exactly when gluten was found, and
      the cross-contamination warning only when gluten was not. */
  lemma ConsOf(f: Findings)
    ensures var cons := Select(ConLabels, ConFlags(f));
      && SubsequenceOf(cons, ConLabels) && Distinct(cons) && |cons| <= 7
      && ("Azúcares añadidos" in cons <==> f.sugar)
      && ("Puede ser alto en sodio" in cons <==> f.sodium)
      && ("Aditivos / artificiales" in cons <==> f.artificial)
      && ("Aceites vegetales refinados" in cons <==> f.seedOils)
      && ("Contiene gluten" in cons <==> f.HasGluten())
      && ("Contiene lactosa/derivados" in cons <==> f.hasLactose)
      && ("Riesgo de contaminación cruzada" in cons <==> f.crossContam && !f.HasGluten())
  {
    LabelsDistinct();
    ConsSelected(ConLabels, f);
    assert ConLabels[0] == "Azúcares añadidos" && ConLabels[1] == "Puede ser alto en sodio";
    assert ConLabels[2] == "Aditivos / artificiales" && ConLabels[3] == "Aceites vegetales refinados";
    assert ConLabels[4] == "Contiene gluten" && ConLabels[5] == "Contiene lactosa/derivados";
    assert ConLabels[6] == "Riesgo de contaminación cruzada";
  }

  lemma ConsFacts(raw: string)
    ensures var text, out := Norm(raw), Analysis(raw);
      && SubsequenceOf(out.cons, ConLabels) && Distinct(out.cons) && |out.cons| <= 7
      && ("Azúcares añadidos" in out.cons <==> Test(Sugar, text))
      && ("Puede ser alto en sodio" in out.cons <==> Test(Sodium, text))
      && ("Aditivos / artificiales" in out.cons <==> Test(Artificial, text))
      && ("Aceites vegetales refinados" in out.cons <==> Test(SeedOils, text))
      && ("Contiene gluten" in out.cons <==> out.hasGluten)
      && ("Contiene lactosa/derivados" in out.cons <==> out.hasLactose)
      && ("Riesgo de contaminación cruzada" in out.cons <==> out.crossContam && !out.hasGluten)
  {
    ConsOf(Detect(Norm(raw)));
  }

  // ---------- Score ----------

  /** The score is 10 minus the points of the cons listed: every penalty
      comes with its con, and the clamp to [1, 10] never changes the value. */
  lemma ScoreMatchesCons(raw: string)
    ensures 1 <= Analysis(raw).score <= 10
    ensures Analysis(raw).score == 10 - Weight(ConLabels, Analysis(raw).cons)
  {
    var f := Detect(Norm(raw));
    LabelsDistinct();
    ConsWeigh(ConLabels, f);
    ScoreBounds(f);
  }

  // ---------- Blank input ----------

  /** Every pattern needs a word character where it starts. */
  lemma GlutenPatternsStartWithWords()
    ensures AllStartWithWord(Wheat) && AllStartWithWord(Barley) && AllStartWithWord(Rye) && AllStartWithWord(Oats)
    ensures AllStartWithWord(SoySauce) && AllStartWithWord(BrewersYeast) && AllStartWithWord(Cross)
    ensures forall k :: 0 <= k < |Lactose| ==> AllStartWithWord(Lactose[k])
  {
  }

  lemma OtherPatternsStartWithWords()
    ensures AllStartWithWord(Sugar) && AllStartWithWord(Sodium) && AllStartWithWord(Artificial)
    ensures AllStartWithWord(SeedOils) && AllStartWithWord(Protein) && AllStartWithWord(Fiber)
    ensures AllStartWithWord(GfClaim) && AllStartWithWord(LfClaim)
  {
  }

  /** No detector fires on blank text. */
  lemma DetectBlank(text: string)
    requires TrimmedEmpty(text)
    ensures Detect(text) == Findings([], false, false, false, false, false, false, false, false, false, false, true)
  {
    GlutenPatternsStartWithWords();
    OtherPatternsStartWithWords();
    forall k | 0 <= k < |GlutenMap| ensures !Test(GlutenMap[k].rx, text) {
      RefuteInBlank(GlutenMap[k].rx, text);
    }
    forall k | 0 <= k < |Lactose| ensures !Test(Lactose[k], text) {
      RefuteInBlank(Lactose[k], text);
    }
    RefuteInBlank(Cross, text);
    RefuteInBlank(Sugar, text);
    RefuteInBlank(Sodium, text);
    RefuteInBlank(Artificial, text);
    RefuteInBlank(SeedOils, text);
    RefuteInBlank(Protein, text);
    RefuteInBlank(Fiber, text);
    RefuteInBlank(GfClaim, text);
    RefuteInBlank(LfClaim, text);
    GlutenHitsFacts(text);
  }

  /** Text that is blank once normalised yields no finding at all, the best
      score and the prompt to scan a product. */
  lemma BlankInput(raw: string)
    requires TrimmedEmpty(Norm(raw))
    ensures Analysis(raw) == AnalyzeOutput(false, None, false, false, [], [], 10, PromptSentence)
  {
    DetectBlank(Norm(raw));
    var f := Findings([], false, false, false, false, false, false, false, false, false, false, true);
    SelectNone(ProLabels, ProFlags(f));
    SelectNone(ConLabels, ConFlags(f));
  }

  /** In particular, text that is blank to begin with. */
  lemma BlankRawInput(raw: string)
    requires TrimmedEmpty(raw)
    ensures Analysis(raw) == AnalyzeOutput(false, None, false, false, [], [], 10, PromptSentence)
  {
    NormKeepsBlank(raw);
    BlankInput(raw);
  }

  // ---------- Dependence on the text through `norm` only ----------

  /** The analysis sees the text only through `norm`, so normalising first
      changes nothing. */
  lemma AnalysisOfNorm(raw: string)
    ensures Analysis(Norm(raw)) == Analysis(raw)
  {
    NormIdempotent(raw);
  }

  lemma {:induction false} NormOfLower(s: string)
    ensures Norm(Lower(s)) == Norm(s)
    decreases |s|
  {
    if s != [] {
      assert Lower(s)[1..] == Lower(s[1..]);
      NormOfLower(s[1..]);
    }
  }

  /** Capitals do not matter. */
  lemma AnalysisOfLower(raw: string)
    ensures Analysis(Lower(raw)) == Analysis(raw)
  {
    NormOfLower(raw);
  }

  /** `norm` works character by character, so replacing a piece by one with
      the same normal form leaves the normal form of the whole unchanged. */
  lemma NormReplace(a: string, x: string, y: string, b: string)
    requires Norm(x) == Norm(y)
    ensures Norm(a + x + b) == Norm(a + y + b)
  {
    NormConcat(a + x, b);
    NormConcat(a, x);
    NormConcat(a + y, b);
    NormConcat(a, y);
  }

  /** `norm` drops a combining mark... */
  lemma NormOfMark(m: char)
    requires IsDiacritic(m)
    ensures Norm([m]) == []
  {
    assert Norm([m]) == NormChar(m) + Norm([]);
  }

  lemma NormMarkReplace(a: string, m: char, b: string)
    requires Norm([m]) == []
    ensures Norm(a + [m] + b) == Norm(a + b)
  {
    NormConcat(a + [m], b);
    NormConcat(a, [m]);
    NormConcat(a, b);
    assert Norm(a) + [] == Norm(a);
  }

  lemma NormSkipsMark(a: string, m: char, b: string)
    requires IsDiacritic(m)
    ensures Norm(a + [m] + b) == Norm(a + b)
  {
    NormOfMark(m);
    NormMarkReplace(a, m, b);
  }

  /** ... and strips the accent of a small letter. */
  lemma NormOfAccented(a: string, c: char, b: string)
    requires !IsUpperLetter(c) && !IsDiacritic(c)
    ensures Norm(a + [c] + b) == Norm(a + [StripMark(c)] + b)
  {
    assert Norm([c]) == NormChar(c) + Norm([]);
    assert Norm([StripMark(c)]) == NormChar(StripMark(c)) + Norm([]);
    NormReplace(a, [c], [StripMark(c)], b);
  }

  /** A combining mark (the decomposed accent of "trígo" in NFD form, say)
      does not matter. */
  lemma AnalysisSkipsMark(a: string, m: char, b: string)
    requires IsDiacritic(m)
    ensures Analysis(a + [m] + b) == Analysis(a + b)
  {
    NormSkipsMark(a, m, b);
  }

  /** Nor does an accent on a small Latin-1 letter: "trígo" reads as "trigo". */
  lemma AnalysisOfAccented(a: string, c: char, b: string)
    requires !IsUpperLetter(c) && !IsDiacritic(c)
    ensures Analysis(a + [c] + b) == Analysis(a + [StripMark(c)] + b)
  {
    NormOfAccented(a, c, b);
  }
}
