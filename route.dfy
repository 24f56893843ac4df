/** The `POST` handler of app/api/analyze/route.ts: which classifier answers
    a request, the fallbacks to `localAnalyze` of lib/analyze.ts, and the
    in-place repair of the provider's JSON. The provider, the OpenAI client
    and `JSON.parse` are parameters; key order in JSON objects is not kept. */
module AnalyzeRoute {
  import opened Classification
  import L = LibAnalyze

  // ---------- JSON values ----------

  /** A JSON value as `JSON.parse` produces it. Numbers are reals, so the
      `Infinity` that an overlong literal such as `1e400` parses to is not
      represented. */
  datatype JValue =
    | JNull
    | JBool(b: bool)
    | JNum(n: real)
    | JStr(s: string)
    | JArr(items: seq<JValue>)
    | JObj(fields: map<string, JValue>)

  /** JavaScript truthiness of a property that may be `undefined` (None). */
  predicate Truthy(v: Option<JValue>) {
    match v
    case None => false
    case Some(x) =>
      match x
      case JNull => false
      case JBool(b) => b
      case JNum(n) => n != 0.0
      case JStr(s) => s != ""
      case JArr(_) => true
      case JObj(_) => true
  }

  /** `x || ''` for the request's `text`. */
  function TextOrEmpty(text: Option<JValue>): JValue {
    if Truthy(text) then text.value else JStr("")
  }

  // ---------- The result contract as JSON ----------

  function Strings(xs: seq<string>): (r: seq<JValue>)
    ensures |r| == |xs| && forall i :: 0 <= i < |xs| ==> r[i] == JStr(xs[i])
  {
    if xs == [] then [] else [JStr(xs[0])] + Strings(xs[1..])
  }

  /** `AnalyzeOutput` as `NextResponse.json` serialises it. */
  function ToJson(out: AnalyzeOutput): map<string, JValue> {
    map[
      "hasGluten" := JBool(out.hasGluten),
      "glutenOrigin" := (if out.glutenOrigin.Some? then JStr(out.glutenOrigin.value) else JNull),
      "hasLactose" := JBool(out.hasLactose),
      "crossContam" := JBool(out.crossContam),
      "pros" := JArr(Strings(out.pros)),
      "cons" := JArr(Strings(out.cons)),
      "score" := JNum(out.score as real),
      "summary" := JStr(out.summary)]
  }

  /** `{ error: String(e), ...localAnalyze(...) }`. */
  function ErrorJson(error: string, out: AnalyzeOutput): map<string, JValue> {
    ToJson(out)["error" := JStr(error)]
  }

  // ---------- Normalisation ----------

  /** The eight properties the repair statements look at. */
  const Repaired: set<string> := {"score", "pros", "cons", "summary", "hasGluten", "hasLactose", "crossContam", "glutenOrigin"}

  /** The test each repair statement makes: `typeof` for the score, the
      summary and the booleans, `Array.isArray` for the lists, and for
      `glutenOrigin` only the presence of the key. */
  predicate Typed(key: string, v: JValue) {
    if key == "score" then v.JNum?
    else if key == "pros" || key == "cons" then v.JArr?
    else if key == "summary" then v.JStr?
    else if key == "hasGluten" || key == "hasLactose" || key == "crossContam" then v.JBool?
    else true
  }

  /** The value each repair statement assigns. */
  function Default(key: string): JValue {
    if key == "score" then JNum(5.0)
    else if key == "pros" || key == "cons" then JArr([])
    else if key == "summary" then JStr("Análisis generado.")
    else if key == "hasGluten" || key == "hasLactose" || key == "crossContam" then JBool(false)
    else JNull
  }

  /** Every repaired property present with the type its statement checks. */
  predicate WellShaped(m: map<string, JValue>) {
    && "score" in m && m["score"].JNum?
    && "pros" in m && m["pros"].JArr?
    && "cons" in m && m["cons"].JArr?
    && "summary" in m && m["summary"].JStr?
    && "hasGluten" in m && m["hasGluten"].JBool?
    && "hasLactose" in m && m["hasLactose"].JBool?
    && "crossContam" in m && m["crossContam"].JBool?
    && "glutenOrigin" in m
  }

  /** One repair statement: `key` keeps its value when it has the type the
      statement tests, and otherwise gets the default; nothing else moves. */
  function Fix(m: map<string, JValue>, key: string): map<string, JValue> {
    if key in m && Typed(key, m[key]) then m else m[key := Default(key)]
  }

  /** The properties in the order the repair statements of lines 67-74 take
      them. */
  const RepairOrder: seq<string> := ["score", "pros", "cons", "summary", "hasGluten", "hasLactose", "crossContam", "glutenOrigin"]

  /** The repair statements for `keys`, one after the other. */
  function FixAll(m: map<string, JValue>, keys: seq<string>): map<string, JValue>
    decreases |keys|
  {
    if keys == [] then m else Fix(FixAll(m, keys[..|keys| - 1]), keys[|keys| - 1])
  }

  /** The object after all eight repair statements. */
  function Normalized(m: map<string, JValue>): map<string, JValue> {
    FixAll(m, RepairOrder)
  }

  /** One repair statement `if (<test fails>) parsed.<key> = <default>`,
      after those for `done`. */
  method Repair(ghost parsed: map<string, JValue>, ghost done: seq<string>, m0: map<string, JValue>, key: string)
    returns (m: map<string, JValue>)
    requires m0 == FixAll(parsed, done)
    ensures m == FixAll(parsed, done + [key])
  {
    m := m0;
    if !(key in m && Typed(key, m[key])) {
      m := m[key := Default(key)];
    }
    assert (done + [key])[..|done|] == done;
  }

  /** Lines 67-74: the repair statements reassign the properties of `parsed`
      one after the other. */
  method NormalizeParsed(parsed: map<string, JValue>) returns (m: map<string, JValue>)
    ensures m == Normalized(parsed)
  {
    ghost var done: seq<string> := [];
    m := parsed;
    m := Repair(parsed, done, m, "score");
    done := done + ["score"];
    m := Repair(parsed, done, m, "pros");
    done := done + ["pros"];
    m := Repair(parsed, done, m, "cons");
    done := done + ["cons"];
    m := Repair(parsed, done, m, "summary");
    done := done + ["summary"];
    m := Repair(parsed, done, m, "hasGluten");
    done := done + ["hasGluten"];
    m := Repair(parsed, done, m, "hasLactose");
    done := done + ["hasLactose"];
    m := Repair(parsed, done, m, "crossContam");
    done := done + ["crossContam"];
    m := Repair(parsed, done, m, "glutenOrigin");
    done := done + ["glutenOrigin"];
    assert done == RepairOrder;
  }

  // ---------- The handler ----------

  /** What the handler sends the provider: the image when there is one,
      else the text. */
  datatype Prompt = ImagePrompt(image: JValue) | TextPrompt(text: JValue)

  /** The provider's answer: an exception (`String(e)` of it), or the
      message content, possibly null. */
  datatype Reply = Threw(error: string) | Replied(content: Option<string>)

  /** Everything outside the handler: the API key ("" when unset), whether
      `new OpenAI(...)` throws, the provider, `JSON.parse` (None when it
      throws) and `String(e)` of the TypeError the runtime raises on a value:
      a non-string reaching `localAnalyze`, or a parsed null or primitive
      whose property is read or assigned. The message depends on that value
      (reading on null and creating a property on a number say different
      things). */
  datatype Env = Env(
    apiKey: string,
    clientError: Option<string>,
    provider: Prompt -> Reply,
    parse: string -> Option<JValue>,
    typeError: JValue -> string)

  /** What the handler produces: a JSON body, or an exception that escapes it
      (the framework then answers with a server error). */
  datatype Response = Json(body: JValue) | Escapes

  /** The request body's property, after `body = await req.json()` (None when
      that throws) and `body || {}`. */
  function Field(body: Option<JValue>, key: string): Option<JValue> {
    if body.Some? && Truthy(body) && body.value.JObj? && key in body.value.fields
    then Some(body.value.fields[key]) else None
  }

  /** `localAnalyze(v)` as JSON, or the TypeError it raises on a non-string. */
  function Local(v: JValue, local: string -> AnalyzeOutput): Option<map<string, JValue>> {
    if v.JStr? then Some(ToJson(local(v.s))) else None
  }

  /** The catch block: the error merged with `localAnalyze(text || '')`, which
      raises again, now uncaught, when `text` is a truthy non-string. */
  function Caught(error: string, text: Option<JValue>, local: string -> AnalyzeOutput): Response {
    var v := TextOrEmpty(text);
    if v.JStr? then Json(JObj(ErrorJson(error, local(v.s)))) else Escapes
  }

  /** `resp.choices[0]?.message?.content || '{}'`. */
  function ContentOrEmptyObject(content: Option<string>): string {
    if content.Some? && content.value != "" then content.value else "{}"
  }

  /** From the provider's reply to the response. An object is repaired; an
      array takes the assignments as properties that JSON does not show, so
      it goes back as it was; on null or a primitive the first assignment
      raises. Unparseable content falls back to `localAnalyze(text || '')`. */
  function AfterReply(reply: Reply, text: Option<JValue>, env: Env, local: string -> AnalyzeOutput): Response {
    match reply
    case Threw(e) => Caught(e, text, local)
    case Replied(c) =>
      match env.parse(ContentOrEmptyObject(c))
      case None =>
        var fallback := Local(TextOrEmpty(text), local);
        if fallback.Some? then Json(JObj(Normalized(fallback.value)))
        else Caught(env.typeError(TextOrEmpty(text)), text, local)
      case Some(p) =>
        if p.JObj? then Json(JObj(Normalized(p.fields)))
        else if p.JArr? then Json(p)
        else Caught(env.typeError(p), text, local)
  }

  /** What `POST` answers for a request body, `local` being the classifier
      it falls back on (`localAnalyze` of lib/analyze.ts, see `Post`). */
  function Outcome(body: Option<JValue>, env: Env, local: string -> AnalyzeOutput): Response {
    var text, image := Field(body, "text"), Field(body, "imageBase64");
    if env.apiKey == "" && Truthy(text) then
      (var r := Local(text.value, local); if r.Some? then Json(JObj(r.value)) else Escapes)
    else if env.apiKey == "" && Truthy(image) then Json(JObj(ToJson(local(""))))
    else if env.clientError.Some? then Caught(env.clientError.value, text, local)
    else if Truthy(image) then AfterReply(env.provider(ImagePrompt(image.value)), text, env, local)
    else if Truthy(text) then AfterReply(env.provider(TextPrompt(text.value)), text, env, local)
    else Json(JObj(ToJson(local(""))))
  }

  /** `localAnalyze(v)` of lib/analyze.ts, or None where it raises a TypeError
      because `v` is not a string. */
  method LocalJson(v: JValue) returns (r: Option<map<string, JValue>>)
    ensures r == Local(v, L.Analysis)
  {
    if !v.JStr? { return None; }
    var out := L.LocalAnalyze(v.s);
    return Some(ToJson(out));
  }

  /** The catch block, lines 77-78. */
  method CatchBlock(error: string, text: Option<JValue>) returns (resp: Response)
    ensures resp == Caught(error, text, L.Analysis)
  {
    var fallback := LocalJson(TextOrEmpty(text));
    if fallback.None? { return Escapes; }
    resp := Json(JObj(fallback.value["error" := JStr(error)]));
  }

  /** Lines 60-76, after the provider has answered; an exception on the way
      is handed to the catch block. */
  method HandleReply(reply: Reply, text: Option<JValue>, env: Env) returns (resp: Response)
    ensures resp == AfterReply(reply, text, env, L.Analysis)
  {
    if reply.Threw? {
      resp := CatchBlock(reply.error, text);
      return;
    }
    var content := ContentOrEmptyObject(reply.content);
    var parsed := env.parse(content);
    if parsed.None? {
      var local := LocalJson(TextOrEmpty(text));
      if local.None? {
        resp := CatchBlock(env.typeError(TextOrEmpty(text)), text);
        return;
      }
      parsed := Some(JObj(local.value));
    }
    if parsed.value.JObj? {
      var m := NormalizeParsed(parsed.value.fields);
      resp := Json(JObj(m));
    } else if parsed.value.JArr? {
      resp := Json(parsed.value);
    } else {
      resp := CatchBlock(env.typeError(parsed.value), text);
    }
  }

  /** `POST`, lines 14-79. */
  method Post(body: Option<JValue>, env: Env) returns (resp: Response)
    ensures resp == Outcome(body, env, L.Analysis)
  {
    var text, image := Field(body, "text"), Field(body, "imageBase64");
    if env.apiKey == "" && Truthy(text) {
      var local := LocalJson(text.value);
      if local.None? { return Escapes; }
      return Json(JObj(local.value));
    }
    if env.apiKey == "" && Truthy(image) {
      var empty := LocalJson(JStr(""));
      return Json(JObj(empty.value));
    }
    if env.clientError.Some? {
      resp := CatchBlock(env.clientError.value, text);
      return;
    }
    var reply: Reply;
    if Truthy(image) {
      reply := env.provider(ImagePrompt(image.value));
    } else if Truthy(text) {
      reply := env.provider(TextPrompt(text.value));
    } else {
      var empty := LocalJson(JStr(""));
      return Json(JObj(empty.value));
    }
    resp := HandleReply(reply, text, env);
  }
}
