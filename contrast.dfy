/** The two classifiers side by side: where lib/analyze.ts and analyze.ts
    give different answers for the same label, and what they share. */
module ClassifierContrast {
  import opened JsText
  import opened RegExp
  import opened Classification
  import L = LibAnalyze
  import LF = LibAnalyzeFacts
  import LS = LibAnalyzeScenarios
  import G = LegacyAnalyze
  import GF = LegacyAnalyzeFacts
  import GS = LegacyAnalyzeScenarios

  // ---------- The same assembly ----------

  /** The additives label as analyze.ts spells it, every other label kept. */
  function Respell(con: string): string {
    if con == L.ConLabels[2] then G.ConLabels[2] else con
  }

  function RespellAll(cons: seq<string>): (r: seq<string>)
    ensures |r| == |cons| && forall i :: 0 <= i < |cons| ==> r[i] == Respell(cons[i])
  {
    if cons == [] then [] else [Respell(cons[0])] + RespellAll(cons[1..])
  }

  lemma {:induction false} SelectRespelled(a: seq<string>, b: seq<string>, flags: seq<bool>)
    requires |a| == |b| == |flags| && forall k :: 0 <= k < |a| ==> b[k] == Respell(a[k])
    ensures Select(b, flags) == RespellAll(Select(a, flags))
  {
    if a != [] {
      SelectRespelled(a[1..], b[1..], flags[1..]);
    }
  }

  /** On the same findings the two classifiers assemble the same pros, the
      same score and, given the same origin, the same summary; their cons
      differ only in the spelling of the additives label. */
  lemma SameAssembly(f: Findings)
    ensures G.Classify(f).pros == L.Classify(f).pros
    ensures G.Classify(f).cons == RespellAll(L.Classify(f).cons)
    ensures G.Classify(f).score == L.Classify(f).score
    ensures G.Classify(f).hasGluten == L.Classify(f).hasGluten
    ensures G.Classify(f).glutenOrigin == L.Classify(f).glutenOrigin ==> G.Classify(f).summary == L.Classify(f).summary
  {
    assert G.ProLabels == L.ProLabels;
    LF.LabelsDistinct();
    SelectRespelled(L.ConLabels, G.ConLabels, ConFlags(f));
  }

  // ---------- Precedence: oats and soy sauce ----------

  /** A label with oats and soy sauce and no other gluten source. */
  const OatsAndSoy := "avena, salsa de soya"

  lemma OatsAndSoyUnchanged()
    ensures L.Norm(OatsAndSoy) == OatsAndSoy && Lower(OatsAndSoy) == OatsAndSoy
  {
    OatsAndSoyNormal();
    OatsAndSoyLower();
  }

  lemma OatsAndSoyNormal()
    ensures L.Norm(OatsAndSoy) == OatsAndSoy
  {
    var t := OatsAndSoy;
    assert forall i :: 0 <= i < |t| ==> 'a' <= t[i] <= 'z' || t[i] == ' ' || t[i] == ',';
    LS.NormOfPlain(t);
  }

  lemma OatsAndSoyLower()
    ensures Lower(OatsAndSoy) == OatsAndSoy
  {
    GS.LowerOfSmall(OatsAndSoy);
  }

  lemma LibOats(t: string)
    requires t == OatsAndSoy
    ensures Test(L.GlutenMap[3].rx, t)
  {
    assert MatchFrom([Boundary], t, 5);
    assert "avena" <= t[0..];
    assert MatchFrom([Lit("avena"), Boundary], t, 0);
    assert MatchFrom(L.Oats[0], t, 0);
  }

  lemma LibNoWheat(t: string)
    requires t == OatsAndSoy
    ensures !Test(L.GlutenMap[0].rx, t)
  {
    RefuteByLead(L.Wheat, t);
  }

  lemma LibNoBarley(t: string)
    requires t == OatsAndSoy
    ensures !Test(L.GlutenMap[1].rx, t)
  {
    RefuteByLead(L.Barley, t);
  }

  lemma LibNoRye(t: string)
    requires t == OatsAndSoy
    ensures !Test(L.GlutenMap[2].rx, t)
  {
    RefuteByLead(L.Rye, t);
  }

  lemma LegacySoy(t: string)
    requires t == OatsAndSoy
    ensures Test(G.ChainRx(3), t)
  {
    assert "salsa de soya" <= t[7..];
    assert MatchFrom(G.SoyWheat[0], t, 7);
  }

  lemma LegacyNoCereal(t: string)
    requires t == OatsAndSoy
    ensures !Test(G.ChainRx(0), t) && !Test(G.ChainRx(1), t) && !Test(G.ChainRx(2), t)
  {
    LegacyNoWheat(t);
    LegacyNoBarley(t);
    LegacyNoRye(t);
  }

  lemma LegacyNoWheat(t: string)
    requires t == OatsAndSoy
    ensures !Test(G.Wheat, t)
  {
    RefuteByLead(G.Wheat, t);
  }

  lemma LegacyNoBarley(t: string)
    requires t == OatsAndSoy
    ensures !Test(G.Barley, t)
  {
    RefuteByLead(G.Barley, t);
  }

  lemma LegacyNoRye(t: string)
    requires t == OatsAndSoy
    ensures !Test(G.Rye, t)
  {
    RefuteByLead(G.Rye, t);
  }

  lemma LibHitsOrigin(t: string)
    requires t == OatsAndSoy
    ensures L.Origin(L.GlutenHits(t)) == Some(L.Order[3])
  {
    LibOats(t);
    LibNoWheat(t);
    LibNoBarley(t);
    LibNoRye(t);
    LF.OriginOfHits(t);
  }

  lemma LibOrigin(raw: string)
    requires L.Norm(raw) == OatsAndSoy
    ensures L.Analysis(raw).glutenOrigin == Some(L.Order[3])
  {
    LibHitsOrigin(L.Norm(raw));
  }

  lemma LegacyHitsOrigin(t: string)
    requires t == OatsAndSoy
    ensures G.Origin(G.GlutenHits(t)) == Some(G.ChainLabels[3])
  {
    LegacySoy(t);
    LegacyNoCereal(t);
    GF.OriginOfHits(t);
  }

  lemma LegacyOrigin(raw: string)
    requires Lower(raw) == OatsAndSoy
    ensures G.Analysis(raw).glutenOrigin == Some(G.ChainLabels[3])
  {
    LegacyHitsOrigin(Lower(raw));
  }

  /** "avena, salsa de soya" (which both classifiers read unchanged, by
      OatsAndSoyUnchanged): lib/analyze.ts ranks oats first, analyze.ts ranks
      soy with wheat first. */
  lemma OatsAgainstSoy(raw: string)
    requires L.Norm(raw) == OatsAndSoy && Lower(raw) == OatsAndSoy
    ensures L.Analysis(raw).glutenOrigin == Some("avena/oats")
    ensures G.Analysis(raw).glutenOrigin == Some("trigo (salsa de soya)")
  {
    LibOrigin(raw);
    LegacyOrigin(raw);
  }

  // ---------- Accents: "trígo" ----------

  const AccentedWheat := "tr\U{00ED}go"
  const PlainWheat := "trigo"

  lemma AccentStripped()
    ensures L.Norm(AccentedWheat) == PlainWheat
  {
    LS.NormCharwise(AccentedWheat, PlainWheat);
  }

  lemma AccentKeptByLower()
    ensures Lower(AccentedWheat) == AccentedWheat
  {
    GS.LowerOfSmall(AccentedWheat);
  }

  lemma LibFindsWheat(t: string)
    requires t == PlainWheat
    ensures Test(L.GlutenMap[0].rx, t)
  {
    assert MatchFrom([Boundary], t, 5);
    assert MatchFrom([Lit("trigo"), Boundary], t, 0);
    assert MatchFrom(L.Wheat[0], t, 0);
  }

  lemma LegacyCerealsMissAccent(t: string)
    requires t == AccentedWheat
    ensures !Test(G.Sources[0].rx, t) && !Test(G.Sources[1].rx, t)
    ensures !Test(G.Sources[2].rx, t) && !Test(G.Sources[3].rx, t)
  {
    RefuteByLead(G.Wheat, t);
    RefuteByLead(G.Barley, t);
    RefuteByLead(G.Rye, t);
    RefuteByLead(G.Oats, t);
  }

  lemma LegacyOthersMissAccent(t: string)
    requires t == AccentedWheat
    ensures !Test(G.Sources[4].rx, t) && !Test(G.Sources[5].rx, t)
  {
    RefuteByLead(G.SoyWheat, t);
    RefuteByLead(G.BrewersYeast, t);
  }

  lemma LibGluten(raw: string)
    requires L.Norm(raw) == PlainWheat
    ensures L.Analysis(raw).hasGluten
  {
    LibFindsWheat(L.Norm(raw));
    LF.OriginIsFirstMatch(raw);
  }

  lemma LegacyNoGluten(raw: string)
    requires Lower(raw) == AccentedWheat
    ensures !G.Analysis(raw).hasGluten
  {
    var t := Lower(raw);
    LegacyCerealsMissAccent(t);
    LegacyOthersMissAccent(t);
    GF.GlutenHitsFacts(t);
    assert !G.Detect(t).HasGluten();
  }

  /** "trígo" (which lib/analyze.ts reads as "trigo" and analyze.ts reads
      unchanged, by AccentStripped and AccentKeptByLower): lib/analyze.ts
      finds wheat; none of the patterns of analyze.ts matches the accented word. */
  lemma AccentOnlyStrippedByLib(raw: string)
    requires L.Norm(raw) == PlainWheat && Lower(raw) == AccentedWheat
    ensures L.Analysis(raw).hasGluten
    ensures !G.Analysis(raw).hasGluten
  {
    LibGluten(raw);
    LegacyNoGluten(raw);
  }

  // ---------- The bare word "sal" ----------

  /** "sal": a sodium con and one point off in analyze.ts, neither in lib/analyze.ts. */
  lemma SaltOnlySodiumInLegacy(raw: string)
    requires raw == GS.Salt
    ensures "Puede ser alto en sodio" !in L.Analysis(raw).cons
    ensures G.Analysis(raw).cons == ["Puede ser alto en sodio"] && G.Analysis(raw).score == 9
  {
    assert raw == LS.Salt;
    LS.SaltIsNormal();
    LS.BareSalIsNotSodium(raw);
    GS.LowerOfSmall(raw);
    GS.SaltIsSodiumCon(raw);
  }

  // ---------- The worked example ----------

  /** `toLowerCase` works character by character. */
  lemma LowerConcat(a: string, b: string)
    ensures Lower(a + b) == Lower(a) + Lower(b)
  {
  }

  lemma ExamplePiecesLowered()
    ensures Lower(LS.ExampleCap) == "h"
    ensures Lower(LS.ExampleHead) == LS.ExampleHead && Lower(LS.ExampleAccent) == LS.ExampleAccent
    ensures Lower(LS.ExampleTail) == LS.ExampleTail
  {
    GS.LowerOfSmall(LS.ExampleHead);
    GS.LowerOfSmall(LS.ExampleAccent);
    GS.LowerOfSmall(LS.ExampleTail);
  }

  lemma ExampleJoined()
    ensures GS.Example == "h" + LS.ExampleHead + LS.ExampleAccent + LS.ExampleTail
  {
  }

  /** The printed label lower-cased is the text analyze.ts works on. */
  lemma ExampleLowered()
    ensures Lower(LS.ExampleRaw) == GS.Example
  {
    ExamplePiecesLowered();
    ExampleJoined();
    LowerConcat(LS.ExampleCap + LS.ExampleHead + LS.ExampleAccent, LS.ExampleTail);
    LowerConcat(LS.ExampleCap + LS.ExampleHead, LS.ExampleAccent);
    LowerConcat(LS.ExampleCap, LS.ExampleHead);
  }

  /** "Harina de trigo, azúcar, sal": score 5 in lib/analyze.ts, 4 in analyze.ts. */
  lemma ExampleScores()
    ensures L.Analysis(LS.ExampleRaw).score == 5
    ensures G.Analysis(LS.ExampleRaw).score == 4
  {
    LS.ExampleRawAnalysis();
    ExampleLowered();
    GS.ExampleAnalysis(LS.ExampleRaw);
  }
}
