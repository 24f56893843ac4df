# ScanCheck classification core in Dafny

ScanCheck reads a food label as text and answers with a verdict. The verdict says whether the label shows gluten and where it comes from, whether it shows lactose or dairy, and whether it shows a cross-contamination advisory. It also gives a list of pros, a list of cons, a score from 1 to 10 and a summary sentence. This project models the three pieces of code that make that decision and proves what they promise:

- **`localAnalyze` of lib/analyze.ts** is the canonical heuristic classifier:
  - `norm` lower-cases the text, decomposes it (NFD) and strips diacritics;
  - a fixed set of regular-expression detectors then runs over the normalised text;
  - the origin is the first gluten source in a fixed precedence list;
  - pros and cons are pushed in a fixed order;
  - the score is 10 minus fixed weights, clamped to [1, 10];
  - the summary comes from templates.
- **`localAnalyze` of analyze.ts** is the older variant. It runs the same pipeline with these differences:
  - it only lower-cases;
  - its pattern lists differ, and its sodium pattern matches the bare word "sal";
  - it picks the origin with an `else if` chain that ranks soy-with-wheat before oats, and it gives the origins other labels;
  - it spells "Aditivos/artificiales" without spaces.
- **`POST` of app/api/analyze/route.ts** is the dispatcher:
  - it chooses between the local classifier and a language-model provider, depending on the API key and on which request fields are truthy;
  - it falls back to `localAnalyze` when the provider's content does not parse or anything throws;
  - it repairs the provider's JSON object in place, property by property.

Modules:

| module | file | contents |
|---|---|---|
| `JsText` | jstext.dfy | character classes of JavaScript (`\w`, `\s`, line terminators) and `toLowerCase` |
| `RegExp` | regexp.dfy | the fragment of regular expressions the detectors use, `RegExp.prototype.test` without the `g` flag, and lemmas for showing that a pattern does not match |
| `Classification` | classification.dfy | what both classifiers share: the result record, the detector outcomes (`Findings`), the ordered selection of pros and cons, the score and the summary templates, and the score and summary statement sequences as methods |
| `LibAnalyze` | lib_analyze.dfy | `norm`, the detectors, the origin and `localAnalyze` of lib/analyze.ts |
| `LibAnalyzeFacts` | lib_facts.dfy | its properties for every input |
| `LibAnalyzeScenarios` | lib_scenarios.dfy | concrete labels run through it |
| `LegacyAnalyze` | legacy_analyze.dfy | `localAnalyze` of analyze.ts |
| `LegacyAnalyzeFacts` | legacy_facts.dfy | its properties for every input |
| `LegacyAnalyzeScenarios` | legacy_scenarios.dfy | concrete labels run through it |
| `ClassifierContrast` | contrast.dfy | where the two classifiers agree and where they differ |
| `AnalyzeRoute` | route.dfy | JSON values, the repairs of the provider's JSON, and the handler |
| `AnalyzeRouteFacts` | route_facts.dfy | what the handler answers in each case |

How the model is built:

- **Form.** The imperative parts keep their form as methods that are proved against pure specification functions:
  - `LocalAnalyze` has a loop over the gluten table and a sequence of `push` statements;
  - `ComputeScore` has the decrements and the clamp;
  - `ComposeSummary` has the reassignments and the `+=`;
  - `ChooseOrigin` has the `else if` chain;
  - `NormalizeParsed` has the eight repair statements;
  - `Post` has the dispatch, with `HandleReply` and `CatchBlock` for the rest of the try block and the catch block.
- **Regular expressions.** A regular expression is a list of top-level alternatives. Each alternative is a sequence of literals, character classes, optional groups, `\s*`, `.*` and `\b`. `Test` asks whether some alternative matches from some position, with backtracking. A group of alternatives between two `\b` is written as one alternative per member.
- **Characters.** `toLowerCase` is modelled on ASCII and Latin-1. `norm`'s decomposition and `\p{Diacritic}` are modelled on every Latin-1 letter with an accent, cedilla or tilde, and on the diacritic code points below U+0363: the spacing accents of ASCII and Latin-1, the spacing modifier letters U+02B0 to U+02FF, and the combining marks U+0300 to U+0362 that carry the property.
- **JSON.** The handler works on JSON values. JavaScript truthiness is modelled for `text` and `imageBase64`, which may be any JSON value. Four things outside the handler are parameters of the model:
  - the provider, as a function from the prompt to an exception or a content string;
  - `JSON.parse`, as a partial function;
  - whether `new OpenAI(...)` throws;
  - the text `String(e)` gives for a TypeError raised by the runtime, as a function of the value that caused it (a non-string `text`, or a parsed null or primitive).
- **The local classifier in the handler.** The handler's specification functions take the local classifier as a parameter. `Post` binds it to lib/analyze.ts by calling `LibAnalyze.LocalAnalyze`, which is what the route imports.

## The two classifiers on one label, and what the repairs check

- **"Harina de trigo, azúcar, sal".**
  - lib/analyze.ts, which the route uses, has the sodium pattern `\b(sodio|salt|sodium)\b`, which does not match the bare word "sal". The label gives the cons "Azúcares añadidos" and "Contiene gluten", no advisory, and score 5 (`LibAnalyzeScenarios.ExampleRawAnalysis`).
  - analyze.ts matches "sal" through `\bsal\b`. The label gives origin "trigo", the sugar, sodium and gluten cons, and score 4 (`LegacyAnalyzeScenarios.ExampleAnalysis`).
  - The two outcomes are set side by side in `ClassifierContrast.ExampleScores`.
- **The repairs check types only** (app/api/analyze/route.ts:67-74):
  - a number outside [1, 10] stays the score;
  - an empty string stays the summary (`AnalyzeRouteFacts.ValuesNotChecked`);
  - a JSON array from the provider is returned as it was;
  - a truthy `text` that is not a string can make the handler raise outside its try block: without a key, at once (line 21, `AnalyzeRouteFacts.NoKeyOddText`), and with a key, whenever the `localAnalyze` fallback of line 64 or of the catch block at line 78 runs. With a key and content that parses to an object or array, such a `text` is only written into the prompt, and the answer is the repaired object or the array as sent. `AnalyzeRouteFacts.AnswerShape` shows that no other input raises.

## Model

| member | source | states |
|---|---|---|
| JsText.LowerChar | lib/analyze.ts:15 | `toLowerCase` on one character maps an ASCII or Latin-1 capital to its small letter (code point + 0x20), keeps every other character, and never yields a capital |
| JsText.Lower | lib/analyze.ts:15 | `toLowerCase` keeps the length and lower-cases character by character |
| JsText.LowerIdempotent | analyze.ts:13 | lower-casing twice is lower-casing once |
| Classification.SelectFacts | lib/analyze.ts:81-95 | the labels whose condition holds, in table order: an order-preserving subsequence of the table, no longer than it, duplicate-free when the table is, holding each label exactly when its condition holds |
| Classification.ProsSelected | lib/analyze.ts:84-87 | with four distinct labels the pros are an ordered selection of at most four, each present exactly when its claim or nutrient was found |
| Classification.ConsSelected | lib/analyze.ts:89-95 | with seven distinct labels the cons are an ordered selection of at most seven: one per quality finding, the gluten con exactly when gluten was found, the cross-contamination con exactly when an advisory was found and gluten was not |
| Classification.Clamp | lib/analyze.ts:106 | `Math.max(1, Math.min(10, s))` lies in [1, 10] and is `s` itself inside that range |
| Classification.ScoreBounds | lib/analyze.ts:98-106 | the total penalty is between 0 and 9, because gluten and cross-contamination exclude each other, so the score lies in [1, 10] and the clamp never changes it |
| Classification.WeightOfSelect | lib/analyze.ts:89-105 | the weight of a selection of cons is the sum of the weights of the labels whose condition holds |
| Classification.ConsWeigh | lib/analyze.ts:89-105 | each con is pushed exactly when its test subtracts: the weights of the cons (sugar 2, gluten 3, every other con 1) add up to the penalty |
| Classification.SummaryFacts | lib/analyze.ts:109-117 | for non-blank text the summary opens with the gluten sentence and its origin when gluten was found, else with the cross-contamination sentence when an advisory was found, else with the no-gluten sentence; it ends with the lactose sentence exactly when lactose was found |
| Classification.ComputeScore | lib/analyze.ts:98-106 | the decrements and the clamp give the score of the findings |
| Classification.ComposeSummary | lib/analyze.ts:108-117 | the reassignments and the `+=` give the summary template of the findings |
| LibAnalyze.StripMark | lib/analyze.ts:16-17 | decomposing a small letter and dropping its marks leaves it unchanged or gives a base letter a-z |
| LibAnalyze.Norm | lib/analyze.ts:13-18 | `norm` never lengthens the text and leaves no capital, no diacritic and no accented Latin-1 letter |
| LibAnalyze.NormConcat | lib/analyze.ts:13-18 | `norm` works character by character: the norm of a concatenation is the concatenation of the norms |
| LibAnalyze.NormIdempotent | lib/analyze.ts:13-18 | `norm` of normalised text changes nothing |
| LibAnalyze.NormKeepsBlank | lib/analyze.ts:13-18 | `norm` of blank text is blank |
| LibAnalyze.GlutenKeys | lib/analyze.ts:25-32 | the keys of the gluten table, in table order |
| LibAnalyze.GlutenFlags | lib/analyze.ts:67-68 | the j-th flag is whether the j-th gluten pattern matches the text |
| LibAnalyze.FindFirst | lib/analyze.ts:78 | `order.find(k => hits.includes(k))` is absent exactly when no key of the order is a hit; otherwise it is the first key of the order that is a hit |
| Classification.CollectPros | lib/analyze.ts:81-87 | the four `pros.push` statements, over a table of four labels, give the ordered selection of those labels whose condition holds; both classifiers call it with their own table (analyze.ts:52-58 too) |
| Classification.CollectCons | lib/analyze.ts:82-95 | the seven `cons.push` statements, over a table of seven labels, give the ordered selection of those labels whose condition holds, the cross-contamination con only without gluten; both classifiers call it with their own table (analyze.ts:53-66 too) |
| LibAnalyze.LocalAnalyze | lib/analyze.ts:20-120 | the loop over the gluten table, the origin, the pushes, the score and the summary give the result of the specification function `Analysis` |
| LibAnalyzeFacts.LabelsDistinct | lib/analyze.ts:77-95 | the precedence list, the pro labels and the con labels hold no label twice |
| LibAnalyzeFacts.KeysAreOrder | lib/analyze.ts:25-77 | the precedence list is the list of the table's keys, so the fallback `\|\| glutenHits[0]` never applies (lines 25-32, 77) |
| LibAnalyzeFacts.GlutenHitsFacts | lib/analyze.ts:67-68 | a key is a hit exactly when its pattern matches; the hits follow table order without repetition; there is a hit exactly when some pattern matches |
| LibAnalyzeFacts.FindFirstIs | lib/analyze.ts:78 | when the k-th key of the order is the first one among the hits, `find` returns it |
| LibAnalyzeFacts.OriginOfHits | lib/analyze.ts:73-79 | the origin is set exactly when there is a hit, and it is then the key of the first pattern, in the order wheat, barley, rye, oats, soy sauce, brewer's yeast, that matched |
| LibAnalyzeFacts.OriginIsFirstMatch | lib/analyze.ts:67-79 | `glutenOrigin` is set exactly when `hasGluten`; `hasGluten` holds exactly when some gluten pattern matches the normalised text; the origin is the first such key in precedence order |
| LibAnalyzeFacts.ProsOf | lib/analyze.ts:81-87 | the pros of any findings: an ordered duplicate-free selection of at most four labels, each present exactly when its condition holds |
| LibAnalyzeFacts.ProsFacts | lib/analyze.ts:81-87 | each pro label is present exactly when its pattern matches the normalised text, and the pros are an ordered duplicate-free selection of at most four |
| LibAnalyzeFacts.ConsOf | lib/analyze.ts:82-95 | the cons of any findings: an ordered duplicate-free selection of at most seven labels, each present exactly when its condition holds |
| LibAnalyzeFacts.ConsFacts | lib/analyze.ts:82-95 | each con is present exactly when its pattern matches; "Contiene gluten" exactly when `hasGluten`; the cross-contamination con exactly when `crossContam && !hasGluten`; ordered, duplicate-free, at most seven |
| LibAnalyzeFacts.ScoreMatchesCons | lib/analyze.ts:89-106 | the score lies in [1, 10] and is 10 minus the weights of the cons in the result |
| LibAnalyzeFacts.DetectBlank | lib/analyze.ts:21-110 | no detector fires on blank text (lines 21-71, 110) |
| LibAnalyzeFacts.BlankInput | lib/analyze.ts:109-111 | text that is blank after `norm` gives no finding, no origin, no pros or cons, score 10 and the prompt to scan a product |
| LibAnalyzeFacts.BlankRawInput | lib/analyze.ts:13-111 | empty or white-space-only input gives that same prompt result (lines 13-21, 109-111) |
| LibAnalyzeFacts.AnalysisOfNorm | lib/analyze.ts:13-21 | the result depends on the text only through `norm`: normalising first changes nothing |
| LibAnalyzeFacts.NormOfLower | lib/analyze.ts:13-15 | lower-casing before `norm` changes nothing |
| LibAnalyzeFacts.AnalysisOfLower | lib/analyze.ts:13-21 | capitals do not change the result |
| LibAnalyzeFacts.NormReplace | lib/analyze.ts:13-18 | two pieces with the same norm can replace each other anywhere in a text without changing its norm |
| LibAnalyzeFacts.NormOfMark | lib/analyze.ts:17 | a lone diacritic normalises to nothing |
| LibAnalyzeFacts.NormSkipsMark | lib/analyze.ts:16-17 | a combining mark inside a text does not change its norm |
| LibAnalyzeFacts.NormOfAccented | lib/analyze.ts:16-17 | an accented small letter inside a text normalises like its base letter |
| LibAnalyzeFacts.AnalysisSkipsMark | lib/analyze.ts:13-21 | a diacritic inside a label does not change the result |
| LibAnalyzeFacts.AnalysisOfAccented | lib/analyze.ts:13-21 | an accented letter gives the same result as its base letter |
| LibAnalyzeScenarios.NormOfPlain | lib/analyze.ts:13-18 | small ASCII letters, spaces and commas are left alone by `norm` |
| LibAnalyzeScenarios.AdvisoryStillCountsGluten | lib/analyze.ts:26-95 | "puede contener trazas de trigo" sets `hasGluten` with origin "trigo/wheat" and `crossContam`, and lists "Contiene gluten" but not the cross-contamination con (lines 26, 46, 93-95) |
| LibAnalyzeScenarios.LactoseFreeClaimAlsoFindsLactose | lib/analyze.ts:37-94 | "sin lactosa" gives the "Declarado sin lactosa" pro and also `hasLactose` with the lactose con (lines 37, 64, 70, 85, 94) |
| LibAnalyzeScenarios.BareSalIsNotSodium | lib/analyze.ts:52-90 | the bare word "sal" does not give the sodium con (lines 52, 90) |
| LibAnalyzeScenarios.TrigoVariants | lib/analyze.ts:13-21 | "TRIGO", "trígo", "tri" + combining acute + "go" and "tri" + spacing circumflex U+02C6 + "go" all give the result of "trigo" |
| LibAnalyzeScenarios.ExampleLabel | lib/analyze.ts:13-18 | `norm` of "Harina de trigo, azúcar, sal" is "harina de trigo, azucar, sal" |
| LibAnalyzeScenarios.ExampleFindings | lib/analyze.ts:25-71 | on that text the gluten hits are exactly wheat, sugar is found, and no other detector fires, the advisory included |
| LibAnalyzeScenarios.ExampleOutcome | lib/analyze.ts:81-117 | findings of gluten and sugar alone give no pros, the cons sugar then gluten, score 5 and the gluten sentence with its origin |
| LibAnalyzeScenarios.ExampleClassified | lib/analyze.ts:20-120 | the normalised example gives `hasGluten`, origin "trigo/wheat", no lactose, no advisory, no pros, cons sugar and gluten, score 5 and the gluten sentence |
| LibAnalyzeScenarios.ExampleAnalysis | lib/analyze.ts:20-120 | every label that normalises to the example gives that result |
| LibAnalyzeScenarios.ExampleRawAnalysis | lib/analyze.ts:20-120 | "Harina de trigo, azúcar, sal" itself gives that result |
| LegacyAnalyze.SourceKeys | analyze.ts:15-22 | the keys of the gluten table, in table order |
| LegacyAnalyze.SourceFlags | analyze.ts:34-35 | the j-th flag is whether the j-th gluten pattern matches the text |
| LegacyAnalyze.ChooseOrigin | analyze.ts:40-50 | `hasGluten` exactly when there is a hit, and the `else if` chain assigns the label of the first key of the chain among the hits |
| LegacyAnalyze.LocalAnalyze | analyze.ts:12-88 | the loop over the gluten table, the chain, the pushes, the score and the summary give the result of the specification function `Analysis` |
| LegacyAnalyzeFacts.LabelsDistinct | analyze.ts:15-66 | the keys, the chain's keys and labels, and the pro and con labels hold no label twice (lines 15-22, 44-66) |
| LegacyAnalyzeFacts.ChainCoversSources | analyze.ts:15-49 | the chain asks about every source exactly once, soy-with-wheat fourth and oats fifth (lines 15-22, 44-49) |
| LegacyAnalyzeFacts.GlutenHitsFacts | analyze.ts:34-35 | a key is a hit exactly when its pattern matches; the hits follow table order without repetition; there is a hit exactly when some pattern matches |
| LegacyAnalyzeFacts.OriginIsChainFirst | analyze.ts:44-49 | when the k-th key of the chain is the first one among the hits, the origin is the k-th label |
| LegacyAnalyzeFacts.OriginOfHits | analyze.ts:40-50 | the origin is set exactly when there is a hit, and it is then the label of the first pattern, in chain order, that matched |
| LegacyAnalyzeFacts.OriginIsFirstMatch | analyze.ts:34-50 | `glutenOrigin` is set exactly when `hasGluten`; `hasGluten` holds exactly when some source matches the lower-cased text; the origin is the label of the first match in the order trigo, cebada, centeno, soya+trigo, avena, levadura de cerveza |
| LegacyAnalyzeFacts.ProsFacts | analyze.ts:52-58 | each pro label is present exactly when its pattern matches the lower-cased text; ordered, duplicate-free, at most four |
| LegacyAnalyzeFacts.ConsOf | analyze.ts:53-66 | the cons of any findings: an ordered duplicate-free selection of at most seven labels, each present exactly when its condition holds |
| LegacyAnalyzeFacts.ConsFacts | analyze.ts:53-66 | each con is present exactly when its pattern matches; "Contiene gluten" exactly when `hasGluten`; the cross-contamination con exactly when `crossContam && !hasGluten`; ordered, duplicate-free, at most seven |
| LegacyAnalyzeFacts.ScoreMatchesCons | analyze.ts:60-76 | the score lies in [1, 10] and is 10 minus the weights of the cons, with the weights of lib/analyze.ts |
| LegacyAnalyzeFacts.DetectBlank | analyze.ts:24-79 | no detector fires on blank text (lines 24-38, 79) |
| LegacyAnalyzeFacts.BlankInput | analyze.ts:13-79 | blank input gives no finding, no pros or cons, score 10 and the prompt to scan a product (lines 13, 78-79) |
| LegacyAnalyzeFacts.AnalysisOfLower | analyze.ts:13 | capitals do not change the result |
| LegacyAnalyzeScenarios.NoGlutenInShortText | analyze.ts:15-22 | no gluten pattern matches a text of three characters or fewer |
| LegacyAnalyzeScenarios.SaltFindings | analyze.ts:24-38 | on "sal" only the sodium detector fires |
| LegacyAnalyzeScenarios.SaltOutcome | analyze.ts:52-85 | a sodium finding alone gives the sodium con, score 9 and the no-gluten sentence |
| LegacyAnalyzeScenarios.SaltIsSodiumCon | analyze.ts:28-71 | a label that lower-cases to "sal" gives exactly the sodium con and one point off (lines 28, 61, 71) |
| LegacyAnalyzeScenarios.ShoutedSugarMatches | analyze.ts:13-27 | lower-casing "AZÚCAR" yields text that `az[uú]car` matches (lines 13, 27) |
| LegacyAnalyzeScenarios.ShoutedSugarIsSugar | analyze.ts:13-60 | "AZÚCAR" gives the added-sugar con (lines 13, 27, 60) |
| LegacyAnalyzeScenarios.ExampleOutcome | analyze.ts:52-85 | gluten, sugar and sodium alone give the cons sugar, sodium and gluten, score 4 and "Este producto CONTIENE gluten (origen: trigo)." |
| LegacyAnalyzeScenarios.ExampleAnalysis | analyze.ts:12-88 | a label that lower-cases to "harina de trigo, azúcar, sal" gives gluten from "trigo", no lactose, no advisory, no pros, the sugar, sodium and gluten cons, score 4 and the gluten sentence |
| ClassifierContrast.RespellAll | analyze.ts:62 | each con as analyze.ts spells it: only the additives label differs |
| ClassifierContrast.SelectRespelled | analyze.ts:53-66 | selecting from the respelled table is respelling the selection |
| ClassifierContrast.SameAssembly | analyze.ts:52-85 | on the same findings both classifiers give the same pros, score and `hasGluten`, the same cons up to the additives spelling, and the same summary when the origins agree |
| ClassifierContrast.LibOrigin | lib/analyze.ts:29-78 | on "avena, salsa de soya" lib/analyze.ts has oats as the origin (lines 29-30, 77-78) |
| ClassifierContrast.LegacyOrigin | analyze.ts:44-49 | on that label analyze.ts has "trigo (salsa de soya)", since its chain asks about soy-with-wheat before oats |
| ClassifierContrast.OatsAgainstSoy | analyze.ts:44-49 | one label, two origins: "avena/oats" against "trigo (salsa de soya)" |
| ClassifierContrast.AccentOnlyStrippedByLib | analyze.ts:13 | "trígo" is gluten for lib/analyze.ts, which strips the accent, and not for analyze.ts, which only lower-cases |
| ClassifierContrast.LibGluten | lib/analyze.ts:13-26 | every label that normalises to "trigo" is gluten for lib/analyze.ts (lines 13-18, 26) |
| ClassifierContrast.LegacyNoGluten | analyze.ts:13-16 | a label that lower-cases to "trígo" is not gluten for analyze.ts (lines 13, 16) |
| ClassifierContrast.SaltOnlySodiumInLegacy | analyze.ts:28 | "sal" is no sodium con for lib/analyze.ts, but the only con and score 9 for analyze.ts |
| ClassifierContrast.ExampleLowered | analyze.ts:13 | lower-casing "Harina de trigo, azúcar, sal" keeps the accent |
| ClassifierContrast.ExampleScores | analyze.ts:68-76 | on "Harina de trigo, azúcar, sal" lib/analyze.ts scores 5 and analyze.ts scores 4 |
| AnalyzeRoute.Repair | app/api/analyze/route.ts:67-74 | one repair statement, after those before it, is one more step of the repairs in their order |
| AnalyzeRoute.NormalizeParsed | app/api/analyze/route.ts:66-74 | the eight repair statements give `Normalized` of the parsed object |
| AnalyzeRoute.LocalJson | app/api/analyze/route.ts:21-78 | `localAnalyze(v)` as JSON for a string, and the TypeError for anything else (lines 21, 64, 78) |
| AnalyzeRoute.CatchBlock | app/api/analyze/route.ts:77-78 | the catch block answers `{ error, ...localAnalyze(text \|\| '') }`, or raises again |
| AnalyzeRoute.HandleReply | app/api/analyze/route.ts:60-78 | from the provider's reply to the answer, as `AfterReply` |
| AnalyzeRoute.Post | app/api/analyze/route.ts:14-79 | the handler's answer is `Outcome` with the local classifier of lib/analyze.ts |
| AnalyzeRouteFacts.FixFacts | app/api/analyze/route.ts:67-74 | one repair keeps a property of the tested type, gives a missing or mistyped one its default, and moves nothing else |
| AnalyzeRouteFacts.FixStep | app/api/analyze/route.ts:67-74 | a repair of a property not yet repaired extends what has been repaired |
| AnalyzeRouteFacts.FixAllRepairs | app/api/analyze/route.ts:67-74 | the repairs of distinct properties repair exactly those properties and leave every other one as it was |
| AnalyzeRouteFacts.NormalizedFacts | app/api/analyze/route.ts:67-74 | the eight properties get their defaults (score 5, lists `[]`, summary "Análisis generado.", flags false, origin null) exactly when missing or of the wrong type, and `glutenOrigin` only when missing; typed properties and every other property are left as they were |
| AnalyzeRouteFacts.NormalizedIsWellShaped | app/api/analyze/route.ts:67-74 | after the repairs every property of the result has the type the handler checks |
| AnalyzeRouteFacts.WellShapedUnchanged | app/api/analyze/route.ts:67-74 | an object already of that shape is left unchanged |
| AnalyzeRouteFacts.NormalizedIdempotent | app/api/analyze/route.ts:67-74 | repairing twice is repairing once |
| AnalyzeRouteFacts.EmptyObjectDefaults | app/api/analyze/route.ts:60-74 | `{}` becomes the object of defaults (lines 60, 67-74) |
| AnalyzeRouteFacts.ValuesNotChecked | app/api/analyze/route.ts:67-74 | any number stays the score, any string, the empty one too, stays the summary, and any present `glutenOrigin` stays (lines 67, 70, 74) |
| AnalyzeRouteFacts.ToJsonWellShaped | app/api/analyze/route.ts:64 | the local result as JSON has the shape the repairs check |
| AnalyzeRouteFacts.LocalPassesNormalization | app/api/analyze/route.ts:63-74 | so the repairs leave the fallback of line 64 unchanged |
| AnalyzeRouteFacts.ErrorJsonShape | app/api/analyze/route.ts:78 | the catch block's object is the local result with `error` added, and keeps the contract's shape |
| AnalyzeRouteFacts.NoKeyText | app/api/analyze/route.ts:21 | without a key, a non-empty string `text` is answered by exactly the local result for it |
| AnalyzeRouteFacts.NoKeyOddText | app/api/analyze/route.ts:21 | without a key, a truthy `text` that is not a string makes the handler raise |
| AnalyzeRouteFacts.NoKeyImage | app/api/analyze/route.ts:22 | without a key, a truthy image and a falsy text are answered by the local result for "" |
| AnalyzeRouteFacts.EmptyTextResult | app/api/analyze/route.ts:22-49 | lib/analyze.ts's result for "" is the prompt result with score 10 (lines 22, 49) |
| AnalyzeRouteFacts.ImageFirst | app/api/analyze/route.ts:29-42 | with a client, a truthy image is sent to the provider whatever the text |
| AnalyzeRouteFacts.TextToProvider | app/api/analyze/route.ts:43-47 | with a client, no image and a truthy text, the text is sent |
| AnalyzeRouteFacts.NoInputNoProvider | app/api/analyze/route.ts:48-49 | with a client and neither field truthy, the answer is the local result for "", whatever the provider |
| AnalyzeRouteFacts.ClientFails | app/api/analyze/route.ts:24-78 | a client that cannot be built is handled by the catch block (lines 24-25, 77-78) |
| AnalyzeRouteFacts.EmptyContent | app/api/analyze/route.ts:60-74 | missing or empty content is read as `{}` and answered with the object of defaults (lines 60, 67-74) |
| AnalyzeRouteFacts.ObjectContent | app/api/analyze/route.ts:63-76 | content that parses to an object is answered with that object repaired (lines 63, 67-76) |
| AnalyzeRouteFacts.ArrayContent | app/api/analyze/route.ts:63-76 | content that parses to an array is answered with that array unchanged (lines 63, 67-76) |
| AnalyzeRouteFacts.UnparseableContent | app/api/analyze/route.ts:63-74 | unparseable content is answered with exactly the local result for `text \|\| ''` |
| AnalyzeRouteFacts.ProviderThrows | app/api/analyze/route.ts:52-78 | a provider exception is answered with its message as `error` next to the local result for `text \|\| ''` (lines 52-58, 77-78) |
| AnalyzeRouteFacts.PrimitiveContent | app/api/analyze/route.ts:67-78 | content parsing to null, a boolean, a number or a string goes to the catch block (lines 67, 77-78) |
| AnalyzeRouteFacts.CaughtShape | app/api/analyze/route.ts:77-78 | the catch block raises again exactly when `text` is a truthy non-string, and otherwise answers the contract with `error` |
| AnalyzeRouteFacts.AfterReplyShape | app/api/analyze/route.ts:60-78 | after the provider, the answer is an object of the contract's shape, an array the provider sent, or an exception caused by a non-string text |
| AnalyzeRouteFacts.AnswerShape | app/api/analyze/route.ts:14-79 | every answer is an object of the contract's shape (with or without `error`), a provider array, or an exception, and an exception only for a truthy non-string `text` |

## Left out

- The UI (components/ScanCheck.tsx), the OCR wrapper (lib/ocr.ts), pull-to-refresh (lib/usePullToRefresh.ts), the layout, the page and the Tailwind configuration hold no classification logic.
- The provider call, the message it is sent (the system prompt, the image URL and the text template) and `NextResponse` serialisation are outside the model. The provider is a function from the prompt (image or text) to an exception or a content string.
- `JSON.parse` and `req.json()` are parameters. The model does not parse JSON text. The key order of JSON objects is not kept, and numbers are reals.
- A number in the provider's content too large for a double, such as `1e400`, is parsed by `JSON.parse` into `Infinity`. It has `typeof` "number", so the repair of the score keeps it, and `NextResponse.json` sends it as `null`. The model's numbers are reals and cannot represent that value or that answer.
- `new OpenAI(...)` is a parameter, because the SDK is not part of this model and only its failure matters here. So is the text `String(e)` the runtime gives for a TypeError, a function of the value that raised it, because its wording depends on the engine.
- `toLowerCase`, NFD and `\p{Diacritic}` are modelled only on ASCII, Latin-1 and the diacritic code points below U+0363. Other scripts pass through unchanged in the model.
- The regular expressions are modelled with the constructs they use. There is no general regular-expression engine. The `i` flag of the cross-contamination pattern is not modelled, because both classifiers lower-case the text before the pattern runs.
- `(raw || "")` is not modelled: both classifiers take a string. A non-string reaching `localAnalyze` from the route is modelled as the TypeError it raises.
- The asynchronous behaviour of the handler, the `runtime` and `dynamic` exports, and the environment lookup are outside the model. The API key is a string parameter, "" when unset.
