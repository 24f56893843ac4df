/** The canonical heuristic classifier of lib/analyze.ts: `norm` and
    `localAnalyze`. */
module LibAnalyze {
  import opened JsText
  import opened RegExp
  import opened Classification

  // ---------- norm ----------

  /** The characters with the Unicode Diacritic property that the model knows:
      the spacing accents of ASCII and Latin-1, the spacing modifier letters
      (U+02B0 to U+02FF) and the diacritical combining marks. `\p{Diacritic}+` removes every one of them. */
  predicate IsDiacritic(c: char) {
    var n := c as int;
    n == 0x5E || n == 0x60 || n == 0xA8 || n == 0xAF || n == 0xB4 || n == 0xB7 || n == 0xB8 ||
    (0x2B0 <= n <= 0x2FF) || (0x300 <= n <= 0x34E) || (0x350 <= n <= 0x357) || (0x35D <= n <= 0x362)
  }

  /** NFD then mark removal on one small letter: the Latin-1 letters with an
      accent, cedilla or tilde become their base letter; others are kept. */
  function StripMark(c: char): (r: char)
    ensures r == c || 'a' <= r <= 'z'
  {
    var n := c as int;
    if 0xE0 <= n <= 0xE5 then 'a'
    else if n == 0xE7 then 'c'
    else if 0xE8 <= n <= 0xEB then 'e'
    else if 0xEC <= n <= 0xEF then 'i'
    else if n == 0xF1 then 'n'
    else if 0xF2 <= n <= 0xF6 then 'o'
    else if 0xF9 <= n <= 0xFC then 'u'
    else if n == 0xFD || n == 0xFF then 'y'
    else c
  }

  /** What `norm` makes of one character of its input. */
  function NormChar(c: char): seq<char> {
    var l := LowerChar(c);
    if IsDiacritic(l) then [] else [StripMark(l)]
  }

  /** `norm`: lower-case, decompose and drop the diacritics. The result holds
      no capital, no diacritic and no accented Latin-1 letter. */
  function Norm(s: string): (r: string)
    ensures |r| <= |s|
    ensures forall i :: 0 <= i < |r| ==> !IsUpperLetter(r[i]) && !IsDiacritic(r[i]) && StripMark(r[i]) == r[i]
  {
    if s == [] then [] else NormChar(s[0]) + Norm(s[1..])
  }

  lemma {:induction false} NormConcat(a: string, b: string)
    ensures Norm(a + b) == Norm(a) + Norm(b)
  {
    if a == [] {
      assert a + b == b;
    } else {
      assert (a + b)[0] == a[0] && (a + b)[1..] == a[1..] + b;
      NormConcat(a[1..], b);
    }
  }

  /** A character `norm` produces is left alone by `norm`. */
  lemma NormCharFixed(c: char)
    requires !IsUpperLetter(c) && !IsDiacritic(c) && StripMark(c) == c
    ensures NormChar(c) == [c]
  {
  }

  /** `norm` is idempotent. */
  lemma {:induction false} NormIdempotent(s: string)
    ensures Norm(Norm(s)) == Norm(s)
  {
    if s != [] {
      var head := NormChar(s[0]);
      NormIdempotent(s[1..]);
      NormConcat(head, Norm(s[1..]));
      if head != [] {
        assert head == [head[0]] && Norm(s)[0] == head[0];
        NormCharFixed(head[0]);
        assert Norm(head) == NormChar(head[0]) + Norm([]);
      }
    }
  }

  /** White space passes through `norm`, so blank input stays blank. */
  lemma {:induction false} NormKeepsBlank(s: string)
    requires TrimmedEmpty(s)
    ensures TrimmedEmpty(Norm(s))
  {
    if s != [] {
      NormKeepsBlank(s[1..]);
      assert NormChar(s[0]) == [s[0]];
    }
  }

  // ---------- Detectors ----------

  /** One entry of `glutenMap`. */
  datatype Source = Source(key: string, rx: Regex)

  const Wheat: Regex := [
    [Boundary, Lit("trigo"), Boundary], [Boundary, Lit("wheat"), Boundary],
    [Boundary, Lit("harina de trigo"), Boundary], [Boundary, Lit("wheat flour"), Boundary]]
  const Barley: Regex := [
    [Boundary, Lit("cebada"), Boundary], [Boundary, Lit("barley"), Boundary],
    [Boundary, Lit("malta"), Boundary], [Boundary, Lit("malt"), Opt(["ed"]), Boundary]]
  const Rye: Regex := [[Boundary, Lit("centeno"), Boundary], [Boundary, Lit("rye"), Boundary]]
  const Oats: Regex := [[Boundary, Lit("avena"), Boundary], [Boundary, Lit("oats"), Boundary]]
  const SoySauce: Regex := [
    [Lit("salsa de soya")], [Lit("soy sauce")], [Lit("soja"), AnyRun, Lit("trigo")],
    [Lit("soy"), AnyRun, Lit("wheat")], [Lit("wheat"), AnyRun, Lit("soy")]]
  const BrewersYeast: Regex := [[Lit("levadura de cerveza")], [Lit("brewer"), Opt(["'"]), Lit("s yeast")]]

  const GlutenMap: seq<Source> := [
    Source("trigo/wheat", Wheat),
    Source("cebada/barley", Barley),
    Source("centeno/rye", Rye),
    Source("avena/oats", Oats),
    Source("salsa de soya/soy sauce", SoySauce),
    Source("levadura de cerveza/brewer's yeast", BrewersYeast)]

  /** The precedence list `order` used to pick the origin. */
  const Order: seq<string> := [
    "trigo/wheat", "cebada/barley", "centeno/rye", "avena/oats",
    "salsa de soya/soy sauce", "levadura de cerveza/brewer's yeast"]

  const Lactose: seq<Regex> := [
    [[Boundary, Lit("leche"), Boundary], [Boundary, Lit("milk"), Boundary]],
    [[Boundary, Lit("lactosa"), Boundary], [Boundary, Lit("lactose"), Boundary]],
    [[Boundary, Lit("queso"), Boundary], [Boundary, Lit("cheese"), Boundary]],
    [[Boundary, Lit("mantequilla"), Boundary], [Boundary, Lit("butter"), Boundary]],
    [[Boundary, Lit("crema"), Boundary], [Boundary, Lit("cream"), Boundary]],
    [[Lit("casein"), Opt(["a", "ato"])], [Lit("caseinate")], [Lit("casein"), Boundary]],
    [[Boundary, Lit("suero"), Boundary], [Boundary, Lit("whey"), Boundary]]]

  /** The advisory phrases. The source gives this one the `i` flag; it is
      matched against `norm`'s output, which holds no capitals, so the flag
      changes nothing. */
  const Cross: Regex := [
    [Lit("puede contener")], [Lit("trazas")], [Lit("procesad"), Class("oa"), Lit(" en instalaciones")],
    [Lit("may contain")], [Lit("may contain traces")], [Lit("processed in a facility")]]

  const Sugar: Regex := [
    [Boundary, Lit("azucar"), Boundary], [Boundary, Lit("sugar"), Boundary],
    [Boundary, Lit("sucrose"), Boundary], [Boundary, Lit("glucose"), Boundary],
    [Boundary, Lit("dextrose"), Boundary], [Boundary, Lit("fructose"), Boundary],
    [Boundary, Lit("jarabe"), Boundary], [Boundary, Lit("syrup"), Boundary],
    [Boundary, Lit("sirup"), Boundary],
    [Boundary, Lit("corn"), Opt(["s"]), Spaces, Lit("syrup"), Boundary],
    [Boundary, Lit("high"), Class("- "), Lit("fructose"), Spaces, Lit("corn"), Spaces, Lit("syrup"), Boundary],
    [Boundary, Lit("hfcs"), Boundary]]

  /** No bare "sal" here, unlike the older classifier. */
  const Sodium: Regex := [
    [Boundary, Lit("sodio"), Boundary], [Boundary, Lit("salt"), Boundary], [Boundary, Lit("sodium"), Boundary]]

  const Artificial: Regex := [
    [Boundary, Lit("colorante"), Opt(["s"]), Boundary], [Boundary, Lit("color"), Opt(["ing"]), Boundary],
    [Boundary, Lit("artificial"), Opt(["es"]), Boundary], [Boundary, Lit("preservative"), Opt(["s"]), Boundary],
    [Boundary, Lit("conservador"), Opt(["es"]), Boundary]]

  const SeedOils: Regex := [
    [Boundary, Lit("aceite de "), Alt(["soya", "girasol", "maiz", "canola"]), Boundary],
    [Boundary, Lit("soy oil"), Boundary], [Boundary, Lit("sunflower oil"), Boundary],
    [Boundary, Lit("corn oil"), Boundary], [Boundary, Lit("canola oil"), Boundary]]

  const Protein: Regex := [
    [Boundary, Lit("proteina"), Boundary], [Boundary, Lit("proteina"), Boundary], [Boundary, Lit("protein"), Boundary]]
  const Fiber: Regex := [
    [Boundary, Lit("fibra"), Boundary], [Boundary, Lit("integral"), Boundary],
    [Boundary, Lit("whole"), Spaces, Lit("grain"), Boundary], [Boundary, Lit("fiber"), Boundary]]
  const GfClaim: Regex := [[Lit("sin gluten")], [Lit("gluten"), Spaces, Lit("free")], [Lit("libre de gluten")]]
  const LfClaim: Regex := [[Lit("sin lactosa")], [Lit("lactose"), Spaces, Lit("free")]]

  // ---------- Matching ----------

  function GlutenKeys(): (r: seq<string>)
    ensures |r| == |GlutenMap| && forall j :: 0 <= j < |r| ==> r[j] == GlutenMap[j].key
  {
    seq(|GlutenMap|, j requires 0 <= j < |GlutenMap| => GlutenMap[j].key)
  }

  /** Which gluten sources' patterns match the text, in table order. */
  function GlutenFlags(text: string): (r: seq<bool>)
    ensures |r| == |GlutenMap| && forall j :: 0 <= j < |r| ==> r[j] == Test(GlutenMap[j].rx, text)
  {
    seq(|GlutenMap|, j requires 0 <= j < |GlutenMap| => Test(GlutenMap[j].rx, text))
  }

  /** `glutenHits` once the loop over `glutenMap` has run. */
  function GlutenHits(text: string): seq<string> {
    Select(GlutenKeys(), GlutenFlags(text))
  }

  /** Every detector on the normalised text. */
  function Detect(text: string): Findings {
    Findings(
      GlutenHits(text), TestAny(Lactose, text), Test(Cross, text),
      Test(Sugar, text), Test(Sodium, text), Test(Artificial, text), Test(SeedOils, text),
      Test(GfClaim, text), Test(LfClaim, text), Test(Fiber, text), Test(Protein, text),
      TrimmedEmpty(text))
  }

  /** `order.find(k => hits.includes(k))`: the first key of order that is
      among the hits, if any. */
  function FindFirst(order: seq<string>, hits: seq<string>): (r: Option<string>)
    ensures r.None? <==> forall k :: 0 <= k < |order| ==> order[k] !in hits
    ensures r.Some? ==> exists k :: 0 <= k < |order| && r.value == order[k] && order[k] in hits &&
                                    forall j :: 0 <= j < k ==> order[j] !in hits
  {
    if order == [] then None
    else if order[0] in hits then Some(order[0])
    else
      var r := FindFirst(order[1..], hits);
      assert forall k :: 1 <= k < |order| ==> order[k] == order[1..][k - 1];
      r
  }

  /** `glutenOrigin`: null without hits, else the first key of the precedence
      list among them, `|| glutenHits[0]` when there is none (or it is ""). */
  function Origin(hits: seq<string>): Option<string> {
    if |hits| == 0 then None
    else
      var first := FindFirst(Order, hits);
      Some(if first.Some? && first.value != "" then first.value else hits[0])
  }

  // ---------- Assembly ----------

  const ProLabels: seq<string> := ["Declarado sin gluten", "Declarado sin lactosa", "Fuente de fibra/integral", "Aporte de proteína"]

  const ConLabels: seq<string> := [
    "Azúcares añadidos", "Puede ser alto en sodio", "Aditivos / artificiales", "Aceites vegetales refinados",
    "Contiene gluten", "Contiene lactosa/derivados", "Riesgo de contaminación cruzada"]

  /** The result `localAnalyze` assembles from the detector outcomes. */
  function Classify(f: Findings): AnalyzeOutput {
    var origin := Origin(f.glutenHits);
    AnalyzeOutput(
      f.HasGluten(), origin, f.hasLactose, f.crossContam,
      Select(ProLabels, ProFlags(f)), Select(ConLabels, ConFlags(f)),
      Score(f), Summary(f, origin))
  }

  /** What `localAnalyze(raw)` returns. */
  function Analysis(raw: string): AnalyzeOutput {
    Classify(Detect(Norm(raw)))
  }

  /** `localAnalyze`, statement by statement; the pros, cons, score and
      summary statements are the methods of Classification. */
  method LocalAnalyze(raw: string) returns (out: AnalyzeOutput)
    ensures out == Analysis(raw)
  {
    var text := Norm(raw);

    var glutenHits: seq<string> := [];
    for n := 0 to |GlutenMap|
      invariant glutenHits == Select(GlutenKeys()[..n], GlutenFlags(text)[..n])
    {
      SelectSnoc(GlutenKeys(), GlutenFlags(text), n);
      if Test(GlutenMap[n].rx, text) {
        glutenHits := glutenHits + [GlutenMap[n].key];
      }
    }
    assert GlutenKeys()[..|GlutenMap|] == GlutenKeys();
    assert GlutenFlags(text)[..|GlutenMap|] == GlutenFlags(text);

    var hasLactose := TestAny(Lactose, text);
    var crossContam := Test(Cross, text);

    var hasGluten := false;
    var glutenOrigin: Option<string> := None;
    if |glutenHits| > 0 {
      hasGluten := true;
      var first := FindFirst(Order, glutenHits);
      glutenOrigin := Some(if first.Some? && first.value != "" then first.value else glutenHits[0]);
    }

    // No pattern has the `g` flag, so a second `test` gives the same answer
    // as the first: one boolean per pattern stands for all of its tests.
    var f := Findings(
      glutenHits, hasLactose, crossContam,
      Test(Sugar, text), Test(Sodium, text), Test(Artificial, text), Test(SeedOils, text),
      Test(GfClaim, text), Test(LfClaim, text), Test(Fiber, text), Test(Protein, text),
      TrimmedEmpty(text));
    assert f == Detect(text);

    var pros := CollectPros(ProLabels, f);
    var cons := CollectCons(ConLabels, f, hasGluten);
    var score := ComputeScore(f, hasGluten);
    var summary := ComposeSummary(f, hasGluten, glutenOrigin);

    out := AnalyzeOutput(hasGluten, glutenOrigin, hasLactose, crossContam, pros, cons, score, summary);
  }
}
