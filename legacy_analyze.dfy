/** The older heuristic classifier of analyze.ts: the same pipeline as
    lib/analyze.ts, but the text is only lower-cased, the patterns are
    Spanish only (and `sal` counts as sodium), the origin is chosen by an
    else-if chain in its own precedence and with its own wording, and the
    additives con is spelled without spaces. */
module LegacyAnalyze {
  import opened JsText
  import opened RegExp
  import opened Classification

  // ---------- Detectors ----------

  /** One entry of `glutenSources`. */
  datatype Source = Source(key: string, rx: Regex)

  const Wheat: Regex := [[Boundary, Lit("trigo"), Boundary], [Boundary, Lit("harina de trigo"), Boundary]]
  const Barley: Regex := [[Boundary, Lit("cebada"), Boundary], [Boundary, Lit("malta"), Boundary], [Boundary, Lit("maltead")]]
  const Rye: Regex := [[Boundary, Lit("centeno"), Boundary]]
  const Oats: Regex := [[Boundary, Lit("avena"), Boundary]]
  const SoyWheat: Regex := [[Lit("salsa de soya")], [Lit("soya"), AnyRun, Lit("trigo")], [Lit("trigo"), AnyRun, Lit("soya")]]
  const BrewersYeast: Regex := [[Lit("levadura de cerveza")], [Lit("brewer's yeast")]]

  const Sources: seq<Source> := [
    Source("trigo", Wheat),
    Source("cebada", Barley),
    Source("centeno", Rye),
    Source("avena", Oats),
    Source("soya+trigo", SoyWheat),
    Source("levadura de cerveza", BrewersYeast)]

  /** `lactoseMarkers`. The text keeps its accents, so "láctic" is spelled
      with one; `\b` before it still needs an ASCII word character after. */
  const Lactose: seq<Regex> := [
    [[Boundary, Lit("leche"), Boundary]],
    [[Boundary, Lit("láctic")], [Lit("lactose")], [Lit("lactosa"), Boundary]],
    [[Boundary, Lit("queso"), Boundary]],
    [[Boundary, Lit("mantequilla"), Boundary]],
    [[Boundary, Lit("casein")], [Lit("caseinato"), Boundary]],
    [[Boundary, Lit("suero"), Boundary], [Boundary, Lit("whey"), Boundary]]]

  /** `crossContamRx`. Its `i` flag changes nothing on lower-cased text:
      every letter of the phrases is a small ASCII letter. */
  const Cross: Regex := [
    [Lit("puede contener")], [Lit("trazas")], [Lit("procesad"), Class("oa"), Lit(" en instalaciones")],
    [Lit("may contain")], [Lit("processed in a facility")]]

  /** `addedSugarRx`: no word boundaries, and the accented "azúcar" too. */
  const Sugar: Regex := [[Lit("az"), Class("uú"), Lit("car")], [Lit("jarabe")], [Lit("corn syrup")], [Lit("fructosa")]]

  /** `highSodiumRx`: the bare word "sal" counts. */
  const Sodium: Regex := [[Lit("sodio")], [Boundary, Lit("sal"), Boundary]]

  const Artificial: Regex := [[Lit("colorantes")], [Lit("artificial")], [Lit("conservador")], [Lit("saborizante artificial")]]

  const SeedOils: Regex := [[Lit("aceite de "), Alt(["soya", "girasol", "maiz", "maíz", "canola"])]]

  const Protein: Regex := [[Boundary, Lit("prote"), Class("ií"), Lit("n"), Opt(["a"]), Boundary], [Lit("protein")]]
  const Fiber: Regex := [[Lit("fibra")], [Lit("integral")]]
  const GfClaim: Regex := [[Lit("sin gluten")], [Lit("gluten free")], [Lit("libre de gluten")]]
  const LfClaim: Regex := [[Lit("sin lactosa")], [Lit("lactose free")]]

  // ---------- Matching ----------

  function SourceKeys(): (r: seq<string>)
    ensures |r| == |Sources| && forall j :: 0 <= j < |r| ==> r[j] == Sources[j].key
  {
    seq(|Sources|, j requires 0 <= j < |Sources| => Sources[j].key)
  }

  /** Which gluten sources' patterns match the text, in table order. */
  function SourceFlags(text: string): (r: seq<bool>)
    ensures |r| == |Sources| && forall j :: 0 <= j < |r| ==> r[j] == Test(Sources[j].rx, text)
  {
    seq(|Sources|, j requires 0 <= j < |Sources| => Test(Sources[j].rx, text))
  }

  /** `glutenHits` once the `forEach` over `glutenSources` has run. */
  function GlutenHits(text: string): seq<string> {
    Select(SourceKeys(), SourceFlags(text))
  }

  /** Every detector on the lower-cased text. */
  function Detect(text: string): Findings {
    Findings(
      GlutenHits(text), TestAny(Lactose, text), Test(Cross, text),
      Test(Sugar, text), Test(Sodium, text), Test(Artificial, text), Test(SeedOils, text),
      Test(GfClaim, text), Test(LfClaim, text), Test(Fiber, text), Test(Protein, text),
      TrimmedEmpty(text))
  }

  /** The keys the else-if chain asks about, in the order it asks: soy with
      wheat comes before oats. */
  const ChainKeys: seq<string> := ["trigo", "cebada", "centeno", "soya+trigo", "avena", "levadura de cerveza"]

  /** What the chain assigns for each of them. */
  const ChainLabels: seq<string> := [
    "trigo", "cebada/malta", "centeno", "trigo (salsa de soya)",
    "avena (verificar si es certificada GF)", "levadura de cerveza"]

  /** The position in `glutenSources` of each key of the chain. */
  const ChainSource: seq<nat> := [0, 1, 2, 4, 3, 5]

  /** The pattern of the source the chain asks about k-th. */
  function ChainRx(k: nat): Regex
    requires k < |ChainSource|
  {
    Sources[ChainSource[k]].rx
  }

  /** `glutenOrigin` after the else-if chain: null without hits, else the
      label for the first key of the chain among the hits, and still null
      should the hits hold none of them. */
  function Origin(hits: seq<string>): Option<string> {
    if |hits| == 0 then None
    else if ChainKeys[0] in hits then Some(ChainLabels[0])
    else if ChainKeys[1] in hits then Some(ChainLabels[1])
    else if ChainKeys[2] in hits then Some(ChainLabels[2])
    else if ChainKeys[3] in hits then Some(ChainLabels[3])
    else if ChainKeys[4] in hits then Some(ChainLabels[4])
    else if ChainKeys[5] in hits then Some(ChainLabels[5])
    else None
  }

  // ---------- Assembly ----------

  const ProLabels: seq<string> := ["Declarado sin gluten", "Declarado sin lactosa", "Fuente de fibra/integral", "Aporte de proteína"]

  const ConLabels: seq<string> := [
    "Azúcares añadidos", "Puede ser alto en sodio", "Aditivos/artificiales", "Aceites vegetales refinados",
    "Contiene gluten", "Contiene lactosa/derivados", "Riesgo de contaminación cruzada"]

  /** The result `localAnalyze` assembles from the detector outcomes. */
  function Classify(f: Findings): AnalyzeOutput {
    var origin := Origin(f.glutenHits);
    AnalyzeOutput(
      f.HasGluten(), origin, f.hasLactose, f.crossContam,
      Select(ProLabels, ProFlags(f)), Select(ConLabels, ConFlags(f)),
      Score(f), Summary(f, origin))
  }

  /** What `localAnalyze(raw)` returns: `(raw || "")` is `raw` itself for a
      string, and then only `toLowerCase` is applied. */
  function Analysis(raw: string): AnalyzeOutput {
    Classify(Detect(Lower(raw)))
  }

  /** The else-if chain that assigns `glutenOrigin`. */
  method ChooseOrigin(glutenHits: seq<string>) returns (hasGluten: bool, glutenOrigin: Option<string>)
    ensures hasGluten <==> |glutenHits| > 0
    ensures glutenOrigin == Origin(glutenHits)
  {
    hasGluten := false;
    glutenOrigin := None;
    if |glutenHits| > 0 {
      hasGluten := true;
      if "trigo" in glutenHits { glutenOrigin := Some("trigo"); }
      else if "cebada" in glutenHits { glutenOrigin := Some("cebada/malta"); }
      else if "centeno" in glutenHits { glutenOrigin := Some("centeno"); }
      else if "soya+trigo" in glutenHits { glutenOrigin := Some("trigo (salsa de soya)"); }
      else if "avena" in glutenHits { glutenOrigin := Some("avena (verificar si es certificada GF)"); }
      else if "levadura de cerveza" in glutenHits { glutenOrigin := Some("levadura de cerveza"); }
    }
  }

  /** `localAnalyze`, statement by statement. */
  method LocalAnalyze(raw: string) returns (out: AnalyzeOutput)
    ensures out == Analysis(raw)
  {
    var text := Lower(raw);

    var glutenHits: seq<string> := [];
    for n := 0 to |Sources|
      invariant glutenHits == Select(SourceKeys()[..n], SourceFlags(text)[..n])
    {
      SelectSnoc(SourceKeys(), SourceFlags(text), n);
      if Test(Sources[n].rx, text) {
        glutenHits := glutenHits + [Sources[n].key];
      }
    }
    assert SourceKeys()[..|Sources|] == SourceKeys();
    assert SourceFlags(text)[..|Sources|] == SourceFlags(text);

    var hasLactose := TestAny(Lactose, text);
    var crossContam := Test(Cross, text);

    var hasGluten, glutenOrigin := ChooseOrigin(glutenHits);

    // As in lib/analyze.ts, no pattern has the `g` flag, so a pattern's
    // second `test` repeats its first.
    var f := Findings(
      glutenHits, hasLactose, crossContam,
      Test(Sugar, text), Test(Sodium, text), Test(Artificial, text), Test(SeedOils, text),
      Test(GfClaim, text), Test(LfClaim, text), Test(Fiber, text), Test(Protein, text),
      TrimmedEmpty(text));
    assert f == Detect(text);

    var pros := CollectPros(ProLabels, f);
    var cons := CollectCons(ConLabels, f, hasGluten);
    var score := ComputeScore(f, hasGluten);
    var summary := ComposeSummary(f, hasGluten, glutenOrigin);

    out := AnalyzeOutput(hasGluten, glutenOrigin, hasLactose, crossContam, pros, cons, score, summary);
  }
}
