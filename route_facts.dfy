/** What the `POST` handler of app/api/analyze/route.ts promises about its
    answers, proved about `AnalyzeRoute.Outcome` and `AnalyzeRoute.Normalized`. */
module AnalyzeRouteFacts {
  import opened Classification
  import opened AnalyzeRoute
  import L = LibAnalyze
  import LF = LibAnalyzeFacts

  // ---------- Normalisation ----------

  /** What the object should hold once the properties in `done` have been
      repaired. */
  function Want(m: map<string, JValue>, done: set<string>, k: string): JValue
    requires k in m || k in done
  {
    if k in done && !(k in m && Typed(k, m[k])) then Default(k) else m[k]
  }

  /** `r` is `m` with the repairs of `done` applied. */
  predicate RepairedBy(m: map<string, JValue>, done: set<string>, r: map<string, JValue>) {
    r.Keys == m.Keys + done && forall k :: k in r ==> r[k] == Want(m, done, k)
  }

  /** One repair statement keeps `key` when it has the tested type, gives it
      the default otherwise, and moves nothing else. */
  lemma FixFacts(m: map<string, JValue>, key: string)
    ensures Fix(m, key).Keys == m.Keys + {key}
    ensures forall k :: k in m && k != key ==> Fix(m, key)[k] == m[k]
    ensures key in m && Typed(key, m[key]) ==> Fix(m, key)[key] == m[key]
    ensures !(key in m && Typed(key, m[key])) ==> Fix(m, key)[key] == Default(key)
  {
  }

  /** A repair of a property not yet repaired extends the invariant. */
  lemma FixStep(m: map<string, JValue>, done: set<string>, r: map<string, JValue>, key: string)
    requires RepairedBy(m, done, r) && key !in done
    ensures RepairedBy(m, done + {key}, Fix(r, key))
  {
    var r' := Fix(r, key);
    FixFacts(r, key);
    forall k | k in r' ensures r'[k] == Want(m, done + {key}, k) {
      if k != key {
        assert r'[k] == r[k];
      }
    }
  }

  function KeySet(keys: seq<string>): set<string> {
    set k | k in keys
  }

  /** The repair statements for distinct `keys` repair exactly those. */
  lemma {:induction false} FixAllRepairs(m: map<string, JValue>, keys: seq<string>)
    requires Distinct(keys)
    ensures RepairedBy(m, KeySet(keys), FixAll(m, keys))
    decreases |keys|
  {
    if keys == [] {
      assert RepairedBy(m, {}, m);
    } else {
      var n := |keys| - 1;
      var front := keys[..n];
      FrontOfDistinct(keys);
      FixAllRepairs(m, front);
      FixStep(m, KeySet(front), FixAll(m, front), keys[n]);
    }
  }

  /** Dropping the last of distinct keys leaves distinct keys without it. */
  lemma FrontOfDistinct(keys: seq<string>)
    requires Distinct(keys) && keys != []
    ensures Distinct(keys[..|keys| - 1]) && keys[|keys| - 1] !in keys[..|keys| - 1]
    ensures KeySet(keys[..|keys| - 1]) + {keys[|keys| - 1]} == KeySet(keys)
  {
    var n := |keys| - 1;
    assert keys == keys[..n] + [keys[n]];
  }

  /** The eight repairs applied in their order. */
  lemma NormalizedRepairs(m: map<string, JValue>)
    ensures RepairedBy(m, Repaired, Normalized(m))
  {
    FixAllRepairs(m, RepairOrder);
    assert KeySet(RepairOrder) == Repaired;
  }

  /** The repairs give each of the eight properties its default when it is
      missing or has the wrong type, keep it otherwise, and leave every other
      property as it was. */
  lemma NormalizedFacts(m: map<string, JValue>)
    ensures Normalized(m).Keys == m.Keys + Repaired
    ensures forall k :: k in m && k !in Repaired ==> Normalized(m)[k] == m[k]
    ensures forall k :: k in Repaired && k in m && Typed(k, m[k]) ==> Normalized(m)[k] == m[k]
    ensures forall k :: k in Repaired && !(k in m && Typed(k, m[k])) ==> Normalized(m)[k] == Default(k)
  {
    NormalizedRepairs(m);
  }

  /** The repaired object has every property of the result contract, with
      the type the handler checks. */
  lemma NormalizedIsWellShaped(m: map<string, JValue>)
    ensures WellShaped(Normalized(m))
  {
    NormalizedFacts(m);
    assert "score" in Repaired && "pros" in Repaired && "cons" in Repaired && "summary" in Repaired;
    assert "hasGluten" in Repaired && "hasLactose" in Repaired && "crossContam" in Repaired && "glutenOrigin" in Repaired;
  }

  /** An object that already has the contract's shape comes out unchanged. */
  lemma WellShapedUnchanged(m: map<string, JValue>)
    requires WellShaped(m)
    ensures Normalized(m) == m
  {
    NormalizedFacts(m);
    forall k | k in Repaired ensures k in m && Typed(k, m[k]) {
      assert k == "score" || k == "pros" || k == "cons" || k == "summary" || k == "hasGluten" ||
             k == "hasLactose" || k == "crossContam" || k == "glutenOrigin";
    }
  }

  /** Repairing twice is repairing once. */
  lemma NormalizedIdempotent(m: map<string, JValue>)
    ensures Normalized(Normalized(m)) == Normalized(m)
  {
    NormalizedIsWellShaped(m);
    WellShapedUnchanged(Normalized(m));
  }

  /** Every property at its default. */
  const DefaultObject: map<string, JValue> := map[
    "score" := JNum(5.0), "pros" := JArr([]), "cons" := JArr([]),
    "summary" := JStr("Análisis generado."), "hasGluten" := JBool(false),
    "hasLactose" := JBool(false), "crossContam" := JBool(false), "glutenOrigin" := JNull]

  /** The empty object `{}` (what missing content parses to) becomes the
      object of defaults: score 5, no lists, the stock summary, every flag
      false and no origin. */
  lemma EmptyObjectDefaults()
    ensures Normalized(map[]) == DefaultObject
  {
    NormalizedFacts(map[]);
    assert Normalized(map[]).Keys == DefaultObject.Keys;
  }

  /** The repairs check types only: a number outside 1..10 stays the score
      and any string, the empty one too, stays the summary. */
  lemma ValuesNotChecked(m: map<string, JValue>)
    ensures "score" in m && m["score"].JNum? ==> "score" in Normalized(m) && Normalized(m)["score"] == m["score"]
    ensures "summary" in m && m["summary"].JStr? ==> "summary" in Normalized(m) && Normalized(m)["summary"] == m["summary"]
    ensures "glutenOrigin" in m ==> "glutenOrigin" in Normalized(m) && Normalized(m)["glutenOrigin"] == m["glutenOrigin"]
  {
    NormalizedFacts(m);
    assert "score" in Repaired && "summary" in Repaired && "glutenOrigin" in Repaired;
  }

  // ---------- The local result as JSON ----------

  /** `localAnalyze`'s result has the contract's shape. */
  lemma ToJsonWellShaped(out: AnalyzeOutput)
    ensures WellShaped(ToJson(out))
  {
  }

  /** So the repairs leave it alone: the fallback after unparseable content is
      exactly `localAnalyze`'s result. */
  lemma LocalPassesNormalization(out: AnalyzeOutput)
    ensures Normalized(ToJson(out)) == ToJson(out)
  {
    ToJsonWellShaped(out);
    WellShapedUnchanged(ToJson(out));
  }

  /** The catch block's object: the contract's shape plus `error`. */
  lemma ErrorJsonShape(e: string, out: AnalyzeOutput)
    ensures WellShaped(ErrorJson(e, out)) && ErrorJson(e, out)["error"] == JStr(e)
    ensures ErrorJson(e, out).Keys == ToJson(out).Keys + {"error"}
    ensures forall k :: k in ToJson(out) ==> ErrorJson(e, out)[k] == ToJson(out)[k]
  {
  }

  // ---------- Dispatch ----------

  /** Without an API key, a text field that is a non-empty string is answered
      by the local classifier on it. */
  lemma NoKeyText(body: Option<JValue>, env: Env, local: string -> AnalyzeOutput, s: string)
    requires env.apiKey == "" && Field(body, "text") == Some(JStr(s)) && s != ""
    ensures Outcome(body, env, local) == Json(JObj(ToJson(local(s))))
  {
  }

  /** Without an API key, a truthy text field that is not a string makes
      `localAnalyze` raise outside the try block. */
  lemma NoKeyOddText(body: Option<JValue>, env: Env, local: string -> AnalyzeOutput)
    requires env.apiKey == "" && Truthy(Field(body, "text")) && !Field(body, "text").value.JStr?
    ensures Outcome(body, env, local) == Escapes
  {
  }

  /** Without an API key, an image alone gets the local result for empty
      text. */
  lemma NoKeyImage(body: Option<JValue>, env: Env, local: string -> AnalyzeOutput)
    requires env.apiKey == "" && !Truthy(Field(body, "text")) && Truthy(Field(body, "imageBase64"))
    ensures Outcome(body, env, local) == Json(JObj(ToJson(local(""))))
  {
  }

  /** The result for empty text, which lib/analyze.ts makes the prompt to scan
      a product, with no finding and score 10. */
  lemma EmptyTextResult()
    ensures ToJson(L.Analysis("")) == ToJson(AnalyzeOutput(false, None, false, false, [], [], 10, PromptSentence))
  {
    LF.BlankRawInput("");
  }

  /** With a client, the provider is asked about the image whenever there is
      one, whatever the text says. */
  lemma ImageFirst(body: Option<JValue>, env: Env, local: string -> AnalyzeOutput)
    requires env.apiKey != "" && env.clientError.None? && Truthy(Field(body, "imageBase64"))
    ensures Outcome(body, env, local) == AfterReply(env.provider(ImagePrompt(Field(body, "imageBase64").value)), Field(body, "text"), env, local)
  {
  }

  /** With a client and a truthy text but no image, the provider is asked
      about the text. */
  lemma TextToProvider(body: Option<JValue>, env: Env, local: string -> AnalyzeOutput)
    requires env.apiKey != "" && env.clientError.None?
    requires Truthy(Field(body, "text")) && !Truthy(Field(body, "imageBase64"))
    ensures Outcome(body, env, local) == AfterReply(env.provider(TextPrompt(Field(body, "text").value)), Field(body, "text"), env, local)
  {
  }

  /** With a client and neither field truthy, the provider is not asked: the
      answer is the local result for empty text, whatever the provider would
      say. */
  lemma NoInputNoProvider(body: Option<JValue>, env: Env, local: string -> AnalyzeOutput)
    requires env.apiKey != "" && env.clientError.None?
    requires !Truthy(Field(body, "text")) && !Truthy(Field(body, "imageBase64"))
    ensures Outcome(body, env, local) == Json(JObj(ToJson(local(""))))
  {
  }

  /** A client that cannot be built is answered like any exception in the
      try block. */
  lemma ClientFails(body: Option<JValue>, env: Env, local: string -> AnalyzeOutput)
    requires env.clientError.Some?
    requires env.apiKey != "" || (!Truthy(Field(body, "text")) && !Truthy(Field(body, "imageBase64")))
    ensures Outcome(body, env, local) == Caught(env.clientError.value, Field(body, "text"), local)
  {
  }

  /** Missing or empty content is read as `{}`, which the repairs turn into
      the object of defaults. */
  lemma EmptyContent(c: Option<string>, text: Option<JValue>, env: Env, local: string -> AnalyzeOutput)
    requires c == None || c == Some("")
    requires env.parse("{}") == Some(JObj(map[]))
    ensures AfterReply(Replied(c), text, env, local) == Json(JObj(DefaultObject))
  {
    EmptyObjectDefaults();
  }

  /** Content that parses to an object is answered with that object repaired. */
  lemma ObjectContent(c: Option<string>, text: Option<JValue>, env: Env, local: string -> AnalyzeOutput, m: map<string, JValue>)
    requires env.parse(ContentOrEmptyObject(c)) == Some(JObj(m))
    ensures AfterReply(Replied(c), text, env, local) == Json(JObj(Normalized(m)))
  {
  }

  /** Content that parses to an array goes back as it was. */
  lemma ArrayContent(c: Option<string>, text: Option<JValue>, env: Env, local: string -> AnalyzeOutput, a: seq<JValue>)
    requires env.parse(ContentOrEmptyObject(c)) == Some(JArr(a))
    ensures AfterReply(Replied(c), text, env, local) == Json(JArr(a))
  {
  }

  /** Unparseable content falls back to the local result for `text || ''`,
      unchanged by the repairs. */
  lemma UnparseableContent(c: Option<string>, text: Option<JValue>, env: Env, local: string -> AnalyzeOutput)
    requires env.parse(ContentOrEmptyObject(c)) == None && TextOrEmpty(text).JStr?
    ensures AfterReply(Replied(c), text, env, local) == Json(JObj(ToJson(local(TextOrEmpty(text).s))))
  {
    LocalPassesNormalization(local(TextOrEmpty(text).s));
  }

  /** A provider exception gives its message as `error` next to the fields of
      the local result for `text || ''`. */
  lemma ProviderThrows(e: string, text: Option<JValue>, env: Env, local: string -> AnalyzeOutput)
    requires TextOrEmpty(text).JStr?
    ensures AfterReply(Threw(e), text, env, local) == Json(JObj(ErrorJson(e, local(TextOrEmpty(text).s))))
  {
  }

  /** Content that parses to null, a boolean, a number or a string makes the
      first repair raise, which the catch block answers like an exception. */
  lemma PrimitiveContent(c: Option<string>, text: Option<JValue>, env: Env, local: string -> AnalyzeOutput)
    requires env.parse(ContentOrEmptyObject(c)).Some?
    requires var p := env.parse(ContentOrEmptyObject(c)).value; !p.JObj? && !p.JArr?
    ensures AfterReply(Replied(c), text, env, local) ==
      Caught(env.typeError(env.parse(ContentOrEmptyObject(c)).value), text, local)
  {
  }

  /** The catch block answers with the error next to the contract, or, when
      `text` is a truthy non-string, raises again. */
  lemma CaughtShape(e: string, text: Option<JValue>, local: string -> AnalyzeOutput)
    ensures Caught(e, text, local).Escapes? <==> (Truthy(text) && !text.value.JStr?)
    ensures Caught(e, text, local).Json? ==>
      Caught(e, text, local).body.JObj? && WellShaped(Caught(e, text, local).body.fields) &&
      Caught(e, text, local).body.fields["error"] == JStr(e)
  {
    var v := TextOrEmpty(text);
    if v.JStr? {
      ErrorJsonShape(e, local(v.s));
    }
  }

  /** After the provider: the contract, the contract with `error`, an
      array the provider sent, or an exception that escapes. */
  lemma AfterReplyShape(r: Reply, text: Option<JValue>, env: Env, local: string -> AnalyzeOutput)
    ensures match AfterReply(r, text, env, local)
      case Escapes => Truthy(text) && !text.value.JStr?
      case Json(v) => v.JArr? || (v.JObj? && WellShaped(v.fields))
  {
    if r.Threw? {
      CaughtShape(r.error, text, local);
    } else {
      var p := env.parse(ContentOrEmptyObject(r.content));
      var v := TextOrEmpty(text);
      if p.Some? && p.value.JObj? {
        NormalizedIsWellShaped(p.value.fields);
      } else if p.Some? && !p.value.JArr? {
        CaughtShape(env.typeError(p.value), text, local);
      } else if p.None? && v.JStr? {
        NormalizedIsWellShaped(ToJson(local(v.s)));
      } else if p.None? {
        CaughtShape(env.typeError(v), text, local);
      }
    }
  }

  /** Every answer that is an object has the contract's shape, and the
      handler fails outright only on a truthy text field that is not a
      string: the answer is the contract, the contract plus `error`, an array
      the provider sent, or nothing. */
  lemma AnswerShape(body: Option<JValue>, env: Env, local: string -> AnalyzeOutput)
    ensures match Outcome(body, env, local)
      case Escapes => Truthy(Field(body, "text")) && !Field(body, "text").value.JStr?
      case Json(v) => v.JArr? || (v.JObj? && WellShaped(v.fields))
  {
    var text, image := Field(body, "text"), Field(body, "imageBase64");
    ToJsonWellShaped(local(""));
    if text.Some? && text.value.JStr? {
      ToJsonWellShaped(local(text.value.s));
    }
    if env.clientError.Some? {
      CaughtShape(env.clientError.value, text, local);
    }
    if Truthy(image) {
      AfterReplyShape(env.provider(ImagePrompt(image.value)), text, env, local);
    } else if Truthy(text) {
      AfterReplyShape(env.provider(TextPrompt(text.value)), text, env, local);
    }
  }
}
