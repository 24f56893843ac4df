/** What both heuristic classifiers share: the result record `AnalyzeOutput`
    (declared identically in lib/analyze.ts and analyze.ts), the detector
    outcomes they compute from the text, and the parts of their decision logic
    that are written identically in both files: the score and the summary. */
module Classification {

  datatype Option<+T> = None | Some(value: T)

  /** `AnalyzeOutput`; `glutenOrigin: string | null` is an Option. */
  datatype AnalyzeOutput = AnalyzeOutput(
    hasGluten: bool,
    glutenOrigin: Option<string>,
    hasLactose: bool,
    crossContam: bool,
    pros: seq<string>,
    cons: seq<string>,
    score: int,
    summary: string)

  /** The outcome of every detector on one normalised text. */
  datatype Findings = Findings(
    glutenHits: seq<string>,  // keys of the gluten sources whose pattern matched, in table order
    hasLactose: bool,         // some dairy pattern matched
    crossContam: bool,        // an advisory phrase matched
    sugar: bool,
    sodium: bool,
    artificial: bool,
    seedOils: bool,
    gfClaim: bool,            // "sin gluten", "gluten free", ...
    lfClaim: bool,            // "sin lactosa", "lactose free"
    fiber: bool,
    protein: bool,
    blank: bool)              // text.trim().length === 0
  {
    predicate HasGluten() { |glutenHits| > 0 }
  }

  // ---------- Ordered selection from a fixed list ----------

  /** The labels whose flag is set, in list order: what a run of
      `if (flag) list.push(label)` statements builds. */
  function Select(labels: seq<string>, flags: seq<bool>): seq<string>
    requires |labels| == |flags|
  {
    if labels == [] then [] else (if flags[0] then [labels[0]] else []) + Select(labels[1..], flags[1..])
  }

  predicate Distinct(s: seq<string>) {
    forall i, j :: 0 <= i < j < |s| ==> s[i] != s[j]
  }

  /** s is an order-preserving subsequence of l. */
  predicate SubsequenceOf(s: seq<string>, l: seq<string>)
    decreases |l|
  {
    s == [] || (l != [] && ((s[0] == l[0] && SubsequenceOf(s[1..], l[1..])) || SubsequenceOf(s, l[1..])))
  }

  lemma {:induction false} SubsequenceLength(s: seq<string>, l: seq<string>)
    requires SubsequenceOf(s, l)
    ensures |s| <= |l|
    decreases |l|
  {
    if s != [] {
      if s[0] == l[0] && SubsequenceOf(s[1..], l[1..]) {
        SubsequenceLength(s[1..], l[1..]);
      } else {
        SubsequenceLength(s, l[1..]);
      }
    }
  }

  /** A selection is an order-preserving subsequence of the list; it holds
      only labels of the list, so it has no duplicates when the list has none;
      and a label of a duplicate-free list is selected exactly when its flag is set. */
  lemma {:induction false} SelectFacts(labels: seq<string>, flags: seq<bool>)
    requires |labels| == |flags|
    ensures SubsequenceOf(Select(labels, flags), labels)
    ensures |Select(labels, flags)| <= |labels|
    ensures forall x :: x in Select(labels, flags) ==> x in labels
    ensures Distinct(labels) ==> Distinct(Select(labels, flags))
    ensures Distinct(labels) ==> forall i :: 0 <= i < |labels| ==> (labels[i] in Select(labels, flags) <==> flags[i])
  {
    if labels != [] {
      var rest := Select(labels[1..], flags[1..]);
      SelectFacts(labels[1..], flags[1..]);
      var r := Select(labels, flags);
      assert r == (if flags[0] then [labels[0]] else []) + rest;
      if flags[0] {
        assert r[0] == labels[0] && r[1..] == rest;
      } else if r != [] {
        assert r == rest;
      }
      assert SubsequenceOf(r, labels);
      SubsequenceLength(r, labels);
      if Distinct(labels) {
        assert labels[0] !in labels[1..];
        assert labels[0] !in rest;
        forall i | 0 <= i < |labels| ensures labels[i] in r <==> flags[i] {
          if i > 0 {
            assert labels[i] == labels[1..][i - 1];
            assert labels[i] != labels[0];
          }
        }
      }
    }
  }

  /** One `if (flag) list.push(label)` statement, stated on the list built so far. */
  lemma SelectStep(labels: seq<string>, flags: seq<bool>, k: nat, prev: seq<string>, next: seq<string>)
    requires |labels| == |flags| && k < |labels|
    requires prev == Select(labels[..k], flags[..k])
    requires next == prev + (if flags[k] then [labels[k]] else [])
    ensures next == Select(labels[..k + 1], flags[..k + 1])
    ensures k + 1 == |labels| ==> next == Select(labels, flags)
  {
    SelectSnoc(labels, flags, k);
    assert labels[..|labels|] == labels && flags[..|flags|] == flags;
  }

  /** A run of four (seven) push statements on an empty list, c0 to c4 (c7)
      being the list before and after each, builds the selection. */
  lemma SelectFour(labels: seq<string>, flags: seq<bool>,
                    c0: seq<string>, c1: seq<string>, c2: seq<string>, c3: seq<string>, c4: seq<string>)
    requires |labels| == 4 && |flags| == 4 && c0 == []
    requires c1 == c0 + (if flags[0] then [labels[0]] else [])
    requires c2 == c1 + (if flags[1] then [labels[1]] else [])
    requires c3 == c2 + (if flags[2] then [labels[2]] else [])
    requires c4 == c3 + (if flags[3] then [labels[3]] else [])
    ensures c4 == Select(labels, flags)
  {
    SelectStep(labels, flags, 0, c0, c1);
    SelectStep(labels, flags, 1, c1, c2);
    SelectStep(labels, flags, 2, c2, c3);
    SelectStep(labels, flags, 3, c3, c4);
  }

  lemma SelectSeven(labels: seq<string>, flags: seq<bool>, c0: seq<string>, c1: seq<string>, c2: seq<string>,
                     c3: seq<string>, c4: seq<string>, c5: seq<string>, c6: seq<string>, c7: seq<string>)
    requires |labels| == 7 && |flags| == 7 && c0 == []
    requires c1 == c0 + (if flags[0] then [labels[0]] else [])
    requires c2 == c1 + (if flags[1] then [labels[1]] else [])
    requires c3 == c2 + (if flags[2] then [labels[2]] else [])
    requires c4 == c3 + (if flags[3] then [labels[3]] else [])
    requires c5 == c4 + (if flags[4] then [labels[4]] else [])
    requires c6 == c5 + (if flags[5] then [labels[5]] else [])
    requires c7 == c6 + (if flags[6] then [labels[6]] else [])
    ensures c7 == Select(labels, flags)
  {
    SelectStep(labels, flags, 0, c0, c1);
    SelectStep(labels, flags, 1, c1, c2);
    SelectStep(labels, flags, 2, c2, c3);
    SelectStep(labels, flags, 3, c3, c4);
    SelectStep(labels, flags, 4, c4, c5);
    SelectStep(labels, flags, 5, c5, c6);
    SelectStep(labels, flags, 6, c6, c7);
  }

  /** Pushing the next selected label extends the selection of a prefix. */
  lemma {:induction false} SelectSnoc(labels: seq<string>, flags: seq<bool>, n: nat)
    requires |labels| == |flags| && n < |labels|
    ensures Select(labels[..n + 1], flags[..n + 1])
         == Select(labels[..n], flags[..n]) + (if flags[n] then [labels[n]] else [])
    decreases n
  {
    if n > 0 {
      SelectSnoc(labels[1..], flags[1..], n - 1);
      assert labels[..n + 1][1..] == labels[1..][..n];
      assert flags[..n + 1][1..] == flags[1..][..n];
      assert labels[..n][1..] == labels[1..][..n - 1];
      assert flags[..n][1..] == flags[1..][..n - 1];
    }
  }

  lemma {:induction false} SelectNone(labels: seq<string>, flags: seq<bool>)
    requires |labels| == |flags| && forall i :: 0 <= i < |flags| ==> !flags[i]
    ensures Select(labels, flags) == []
  {
    if labels != [] {
      SelectNone(labels[1..], flags[1..]);
    }
  }

  // ---------- The pros and cons statements ----------

  /** The conditions of the four `pros.push` statements, in order: the
      gluten-free claim, the lactose-free claim, fibre, protein. */
  function ProFlags(f: Findings): seq<bool> {
    [f.gfClaim, f.lfClaim, f.fiber, f.protein]
  }

  /** The conditions of the seven `cons.push` statements, in order: sugar,
      sodium, additives, seed oils, gluten, lactose, and cross-contamination
      when no gluten was found. */
  function ConFlags(f: Findings): seq<bool> {
    [f.sugar, f.sodium, f.artificial, f.seedOils, f.HasGluten(), f.hasLactose, f.crossContam && !f.HasGluten()]
  }

  /** With a table of four distinct pro labels, the pros are an ordered
      selection from it, each label present exactly when its condition holds. */
  lemma ProsSelected(labels: seq<string>, f: Findings)
    requires |labels| == 4 && Distinct(labels)
    ensures var pros := Select(labels, ProFlags(f));
      && SubsequenceOf(pros, labels) && Distinct(pros) && |pros| <= 4
      && (labels[0] in pros <==> f.gfClaim) && (labels[1] in pros <==> f.lfClaim)
      && (labels[2] in pros <==> f.fiber) && (labels[3] in pros <==> f.protein)
  {
    SelectFacts(labels, ProFlags(f));
  }

  /** The same for a table of seven distinct con labels. */
  lemma ConsSelected(labels: seq<string>, f: Findings)
    requires |labels| == 7 && Distinct(labels)
    ensures var cons := Select(labels, ConFlags(f));
      && SubsequenceOf(cons, labels) && Distinct(cons) && |cons| <= 7
      && (labels[0] in cons <==> f.sugar) && (labels[1] in cons <==> f.sodium)
      && (labels[2] in cons <==> f.artificial) && (labels[3] in cons <==> f.seedOils)
      && (labels[4] in cons <==> f.HasGluten()) && (labels[5] in cons <==> f.hasLactose)
      && (labels[6] in cons <==> f.crossContam && !f.HasGluten())
  {
    SelectFacts(labels, ConFlags(f));
  }

  /** The `pros.push` statements of either classifier, over its table of four
      pro labels; c0, c1, ... are the list after each statement. */
  method CollectPros(labels: seq<string>, f: Findings) returns (pros: seq<string>)
    requires |labels| == 4
    ensures pros == Select(labels, ProFlags(f))
  {
    ghost var flags := ProFlags(f);
    pros := [];
    ghost var c0 := pros;
    if f.gfClaim { pros := pros + [labels[0]]; }
    ghost var c1 := pros;
    if f.lfClaim { pros := pros + [labels[1]]; }
    ghost var c2 := pros;
    if f.fiber { pros := pros + [labels[2]]; }
    ghost var c3 := pros;
    if f.protein { pros := pros + [labels[3]]; }
    ghost var c4 := pros;
    SelectFour(labels, flags, c0, c1, c2, c3, c4);
  }

  /** The `cons.push` statements of either classifier, over its table of
      seven con labels, in the same way. */
  method CollectCons(labels: seq<string>, f: Findings, hasGluten: bool) returns (cons: seq<string>)
    requires |labels| == 7 && hasGluten == f.HasGluten()
    ensures cons == Select(labels, ConFlags(f))
  {
    ghost var flags := ConFlags(f);
    cons := [];
    ghost var c0 := cons;
    if f.sugar { cons := cons + [labels[0]]; }
    ghost var c1 := cons;
    if f.sodium { cons := cons + [labels[1]]; }
    ghost var c2 := cons;
    if f.artificial { cons := cons + [labels[2]]; }
    ghost var c3 := cons;
    if f.seedOils { cons := cons + [labels[3]]; }
    ghost var c4 := cons;
    if hasGluten { cons := cons + [labels[4]]; }
    ghost var c5 := cons;
    if f.hasLactose { cons := cons + [labels[5]]; }
    ghost var c6 := cons;
    if f.crossContam && !hasGluten { cons := cons + [labels[6]]; }
    ghost var c7 := cons;
    SelectSeven(labels, flags, c0, c1, c2, c3, c4, c5, c6, c7);
  }

  // ---------- Score ----------

  /** `Math.max(1, Math.min(10, score))`. */
  function Clamp(score: int): (r: int)
    ensures 1 <= r <= 10
    ensures 1 <= score <= 10 ==> r == score
  {
    if score > 10 then 10 else if score < 1 then 1 else score
  }

  /** The penalty the score statements subtract from 10, one term per
      statement (sugar 2, seed oils 1, sodium 1, additives 1, gluten 3,
      cross-contamination without gluten 1, lactose 1). */
  function Penalty(f: Findings): int {
    var gluten := f.HasGluten();
    (if f.sugar then 2 else 0) + (if f.seedOils then 1 else 0) + (if f.sodium then 1 else 0)
    + (if f.artificial then 1 else 0) + (if gluten then 3 else 0)
    + (if f.crossContam && !gluten then 1 else 0) + (if f.hasLactose then 1 else 0)
  }

  function Score(f: Findings): int {
    Clamp(10 - Penalty(f))
  }

  /** The score is within [1, 10], and the clamp never bites: the gluten and
      cross-contamination penalties exclude each other, so at most 9 is taken off. */
  lemma ScoreBounds(f: Findings)
    ensures 0 <= Penalty(f) <= 9
    ensures 1 <= Score(f) <= 10
    ensures Score(f) == 10 - Penalty(f)
  {
  }

  /** The points a con label of the table stands for in the score: the
      sugar label (first) 2, the gluten label (fifth) 3, every other 1. */
  function ConWeight(table: seq<string>, con: string): int
    requires |table| == 7
  {
    if con == table[0] then 2 else if con == table[4] then 3 else 1
  }

  /** The points of a list of cons. */
  function Weight(table: seq<string>, cons: seq<string>): int
    requires |table| == 7
  {
    if cons == [] then 0 else ConWeight(table, cons[0]) + Weight(table, cons[1..])
  }

  /** The points of the labels whose flag is set. */
  function FlagWeight(table: seq<string>, labels: seq<string>, flags: seq<bool>): int
    requires |table| == 7 && |labels| == |flags|
  {
    if labels == [] then 0
    else (if flags[0] then ConWeight(table, labels[0]) else 0) + FlagWeight(table, labels[1..], flags[1..])
  }

  lemma {:induction false} WeightOfSelect(table: seq<string>, labels: seq<string>, flags: seq<bool>)
    requires |table| == 7 && |labels| == |flags|
    ensures Weight(table, Select(labels, flags)) == FlagWeight(table, labels, flags)
  {
    if labels != [] {
      WeightOfSelect(table, labels[1..], flags[1..]);
      var rest := Select(labels[1..], flags[1..]);
      if flags[0] {
        assert Select(labels, flags) == [labels[0]] + rest;
        assert ([labels[0]] + rest)[1..] == rest;
      } else {
        assert Select(labels, flags) == rest;
      }
    }
  }

  lemma FlagWeightSeven(table: seq<string>, flags: seq<bool>)
    requires |table| == 7 && |flags| == 7
    ensures FlagWeight(table, table, flags) ==
      (if flags[0] then ConWeight(table, table[0]) else 0) + (if flags[1] then ConWeight(table, table[1]) else 0) +
      (if flags[2] then ConWeight(table, table[2]) else 0) + (if flags[3] then ConWeight(table, table[3]) else 0) +
      (if flags[4] then ConWeight(table, table[4]) else 0) + (if flags[5] then ConWeight(table, table[5]) else 0) +
      (if flags[6] then ConWeight(table, table[6]) else 0)
  {
    var l1, f1 := table[1..], flags[1..];
    var l2, f2 := l1[1..], f1[1..];
    var l3, f3 := l2[1..], f2[1..];
    var l4, f4 := l3[1..], f3[1..];
    var l5, f5 := l4[1..], f4[1..];
    var l6, f6 := l5[1..], f5[1..];
    assert l6[1..] == [];
    assert FlagWeight(table, l6, f6) == (if flags[6] then ConWeight(table, table[6]) else 0);
    assert FlagWeight(table, l5, f5) == (if flags[5] then ConWeight(table, table[5]) else 0) + FlagWeight(table, l6, f6);
    assert FlagWeight(table, l4, f4) == (if flags[4] then ConWeight(table, table[4]) else 0) + FlagWeight(table, l5, f5);
    assert FlagWeight(table, l3, f3) == (if flags[3] then ConWeight(table, table[3]) else 0) + FlagWeight(table, l4, f4);
    assert FlagWeight(table, l2, f2) == (if flags[2] then ConWeight(table, table[2]) else 0) + FlagWeight(table, l3, f3);
    assert FlagWeight(table, l1, f1) == (if flags[1] then ConWeight(table, table[1]) else 0) + FlagWeight(table, l2, f2);
  }

  /** The cons' points add up to the penalty: each con is pushed under the
      same condition as the score statement that subtracts its points. */
  lemma ConsWeigh(table: seq<string>, f: Findings)
    requires |table| == 7 && Distinct(table)
    ensures Weight(table, Select(table, ConFlags(f))) == Penalty(f)
  {
    WeightOfSelect(table, table, ConFlags(f));
    FlagWeightSeven(table, ConFlags(f));
    assert table[1] != table[0] && table[2] != table[0] && table[3] != table[0];
    assert table[5] != table[0] && table[6] != table[0];
    assert table[1] != table[4] && table[2] != table[4] && table[3] != table[4];
    assert table[5] != table[4] && table[6] != table[4] && table[4] != table[0];
  }

  // ---------- Summary ----------

  const PromptSentence := "Escaneá un producto o pegá el texto de la etiqueta"
  const GlutenPrefix := "Este producto CONTIENE gluten (origen: "
  const CrossSentence := "No se detectó gluten en ingredientes, pero hay riesgo de contaminación cruzada."
  const NoGlutenSentence := "No se detectó gluten en la lista de ingredientes."
  const LactoseSentence := " También presenta lactosa o derivados lácteos."

  /** `${glutenOrigin || "no especificado"}`: null and "" both fall back. */
  function OriginText(origin: Option<string>): string {
    if origin.Some? && origin.value != "" then origin.value else "no especificado"
  }

  /** The summary template: the prompt for blank text; otherwise the gluten
      sentence (gluten, then cross-contamination, then neither), followed by
      the lactose sentence when lactose was found. */
  function Summary(f: Findings, origin: Option<string>): string {
    if f.blank then PromptSentence
    else
      (if f.HasGluten() then GlutenPrefix + OriginText(origin) + ")."
       else if f.crossContam then CrossSentence
       else NoGlutenSentence)
      + (if f.hasLactose then LactoseSentence else "")
  }

  predicate EndsWith(s: string, suffix: string) {
    |suffix| <= |s| && s[|s| - |suffix|..] == suffix
  }

  predicate StartsWith(s: string, prefix: string) {
    prefix <= s
  }

  /** A string ending in a different character from the suffix's, at one of
      the last three places, does not end with the suffix. */
  lemma NotEndsWith(s: string, suffix: string, k: nat)
    requires 1 <= k <= 3 && k <= |s| && k <= |suffix|
    requires s[|s| - k] != suffix[|suffix| - k]
    ensures !EndsWith(s, suffix)
  {
  }

  lemma EndsWithConcat(a: string, b: string)
    ensures EndsWith(a + b, b) && StartsWith(a + b, a)
  {
    assert (a + b)[|a|..] == b;
  }

  /** For text that is not blank, the summary opens with the sentence for the
      strongest gluten finding, naming the origin, and ends with the lactose
      sentence exactly when lactose was found. */
  lemma SummaryFacts(f: Findings, origin: Option<string>)
    requires !f.blank
    ensures f.HasGluten() ==> StartsWith(Summary(f, origin), GlutenPrefix + OriginText(origin) + ").")
    ensures !f.HasGluten() && f.crossContam ==> StartsWith(Summary(f, origin), CrossSentence)
    ensures !f.HasGluten() && !f.crossContam ==> StartsWith(Summary(f, origin), NoGlutenSentence)
    ensures f.hasLactose <==> EndsWith(Summary(f, origin), LactoseSentence)
  {
    var head := if f.HasGluten() then GlutenPrefix + OriginText(origin) + ")."
                else if f.crossContam then CrossSentence else NoGlutenSentence;
    var tail := if f.hasLactose then LactoseSentence else "";
    assert Summary(f, origin) == head + tail;
    EndsWithConcat(head, tail);
    if !f.hasLactose {
      assert head + tail == head;
      var n := |LactoseSentence|;
      assert LactoseSentence[n - 2] == 's' && LactoseSentence[n - 3] == 'o';
      if f.HasGluten() {
        var o := GlutenPrefix + OriginText(origin);
        assert head == o + ")." && head[|head| - 2] == ')';
        NotEndsWith(head, LactoseSentence, 2);
      } else if f.crossContam {
        assert CrossSentence[|CrossSentence| - 2] == 'a';
        NotEndsWith(head, LactoseSentence, 2);
      } else {
        assert NoGlutenSentence[|NoGlutenSentence| - 3] == 'e';
        NotEndsWith(head, LactoseSentence, 3);
      }
    }
  }

  // ---------- The score and summary statements ----------

  /** The score statements of either classifier: start at 10, subtract, clamp. */
  method ComputeScore(f: Findings, hasGluten: bool) returns (score: int)
    requires hasGluten == f.HasGluten()
    ensures score == Score(f)
  {
    score := 10;
    if f.sugar { score := score - 2; }
    if f.seedOils { score := score - 1; }
    if f.sodium { score := score - 1; }
    if f.artificial { score := score - 1; }
    if hasGluten { score := score - 3; }
    if f.crossContam && !hasGluten { score := score - 1; }
    if f.hasLactose { score := score - 1; }
    score := Clamp(score);
  }

  /** The summary statements of either classifier. */
  method ComposeSummary(f: Findings, hasGluten: bool, glutenOrigin: Option<string>) returns (summary: string)
    requires hasGluten == f.HasGluten()
    ensures summary == Summary(f, glutenOrigin)
  {
    summary := "Analizando ingredientes...";
    if f.blank {
      summary := PromptSentence;
    } else {
      if hasGluten {
        summary := GlutenPrefix + OriginText(glutenOrigin) + ").";
      } else if f.crossContam {
        summary := CrossSentence;
      } else {
        summary := NoGlutenSentence;
      }
      if f.hasLactose { summary := summary + LactoseSentence; }
    }
  }
}
