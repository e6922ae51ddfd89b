/** The two serverless handlers of the gateway: api/analyze.js (a Web
    `Request` in, a `Response` out) and api/index.js (Node-style `req`/`res`).
    Both dispatch in the same order -- method, image, credentials, prompt,
    upstream call -- and hand the model's reply to the shared normaliser; they differ
    in how the request body is read, in the wording of the demo steps and in
    how a raw reply that is not a string is first parsed.

    The upstream call is an input: `Upstream` is what `fetch` followed by
    `cf.json()` produced, or the text of the exception one of them threw. */
module Gateway {
  import opened Js
  import opened Normalizer

  /** What a handler sends back. */
  datatype Reply = ErrorReply(error: string) | ResultReply(result: Analysis)
  datatype Response = Response(status: int, reply: Reply)

  /** The two deployment secrets; a missing variable is `None`. */
  datatype Env = Env(accountId: Option<string>, token: Option<string>)

  /** The upstream model call: the parsed reply body, or `String(e)` of the
      exception thrown by `fetch` or `cf.json()`. */
  datatype Upstream = Replied(body: JsValue) | Threw(message: string)

  /** api/analyze.js's request: the method, and what `request.json()`
      resolves to (`None` when it rejects: no body, or a body that is not
      JSON). */
  datatype FetchRequest = FetchRequest(verb: string, json: Option<JsValue>)

  /** api/index.js's request: the method, and `req.body` as the platform
      parsed it (`Undefined` when absent). */
  datatype NodeRequest = NodeRequest(verb: string, body: JsValue)

  const MethodNotAllowed: Response := Response(405, ErrorReply("Method Not Allowed"))
  const ImageRequired: Response := Response(400, ErrorReply("imageBase64 required"))

  /** `String(e)` of the TypeError V8 raises for `const { imageBase64 } = null`. */
  const NullBodyError: string := "TypeError: Cannot destructure property 'imageBase64' of '(intermediate value)' as it is null."

  /** `String(e)` of the TypeError V8 raises when a value without a usable
      conversion is put into a template literal. */
  const ConvertError: string := "TypeError: Cannot convert object to primitive value"

  const DemoCode: string := "DEMO"
  const DemoTitle: string := "서버 설정 필요 (데모 응답)"
  const AnalyzeDemoSteps: seq<JsValue> := [Str("Vercel 환경변수에 CF_ACCOUNT_ID, CF_API_TOKEN 설정"), Str("Redeploy"), Str("다시 테스트")]
  const IndexDemoSteps: seq<JsValue> := [Str("Vercel 환경변수에 CF_ACCOUNT_ID, CF_API_TOKEN 설정"), Str("배포 다시 실행"), Str("정상 동작 확인")]

  /** `!accountId || !token` is false: both secrets are set and non-empty. */
  predicate Configured(env: Env)
  {
    env.accountId.Some? && env.accountId.value != "" && env.token.Some? && env.token.value != ""
  }

  /** `const { imageBase64 } = body`: `None` stands for the TypeError that
      destructuring `null` or `undefined` throws. */
  function Destructure(body: JsValue): Option<JsValue>
  {
    if body.Null? || body.Undefined? then None else Some(Get(body, "imageBase64"))
  }

  /** api/analyze.js: `await request.json().catch(() => ({}))`, destructured. */
  function AnalyzeImage(req: FetchRequest): Option<JsValue>
  {
    Destructure(match req.json case Some(v) => v case None => Obj(map[]))
  }

  /** api/index.js: `req.body || {}`, destructured (never throws). */
  function IndexImage(req: NodeRequest): (image: JsValue)
    ensures Destructure(Or(req.body, Obj(map[]))) == Some(image)
  {
    Get(Or(req.body, Obj(map[])), "imageBase64")
  }

  /** api/analyze.js's first parse: a string is parsed, any other value is
      used as it is. */
  function AnalyzeFirstParse(raw: JsValue, parse: Parser): (first: JsValue)
    ensures raw.Str? && parse(raw.s).Some? ==> first == parse(raw.s).value
    ensures raw.Str? && parse(raw.s).None? ==> first == Null
    ensures !raw.Str? ==> first == raw
  {
    if raw.Str? then ParseOrNull(parse, raw.s) else raw
  }

  /** api/index.js's first parse: `JSON.parse(raw)`, which converts a
      non-string `raw` with `String(raw)` first; when that conversion throws,
      the `catch {}` leaves `parsed` null. */
  function IndexFirstParse(raw: JsValue, parse: Parser): (first: JsValue)
    ensures raw.Str? ==> first == AnalyzeFirstParse(raw, parse)
    ensures ToStringThrows(raw) ==> first == Null
    ensures raw.Obj? && "toString" !in raw.props ==> first == ParseOrNull(parse, "[object Object]")
    ensures !ToStringThrows(raw) ==> parse(ToJsString(raw)).None? ==> first == Null
  {
    if ToStringThrows(raw) then Null else ParseOrNull(parse, ToJsString(raw))
  }

  /** The stage both handlers share once the request is accepted: the demo
      record without credentials (the upstream reply is not consulted), else
      a 500 when the image cannot be put into the prompt's
      `data:image/jpeg;base64,${imageBase64}` (before any upstream call), else
      the exception of the upstream call as a 500, else the normalised
      reply. */
  function Forward(env: Env, image: JsValue, upstream: Upstream, demoSteps: seq<JsValue>, firstParse: JsValue -> JsValue, parse: Parser): Response
  {
    if !Configured(env) then Response(200, ResultReply(Analysis(Str(DemoCode), Str(DemoTitle), demoSteps, Demo)))
    else if ToStringThrows(image) then Response(500, ErrorReply(ConvertError))
    else match upstream
      case Threw(message) => Response(500, ErrorReply(message))
      case Replied(j) =>
        var raw := RawOf(j);
        Response(200, ResultReply(Normalize(raw, firstParse(raw), parse)))
  }

  /** The dispatch contract both handlers keep. */
  ghost predicate Dispatches(verb: string, image: Option<JsValue>, env: Env, upstream: Upstream, r: Response)
  {
    && (verb != "POST" <==> r == MethodNotAllowed)
    && (r.status == 400 <==> verb == "POST" && image.Some? && !Truthy(image.value))
    && (r.status == 400 ==> r == ImageRequired)
    && (r.status == 200 <==> verb == "POST" && image.Some? && Truthy(image.value)
                             && (!Configured(env) || (!ToStringThrows(image.value) && upstream.Replied?)))
    && (r.status == 200 ==> r.reply.ResultReply? && |r.reply.result.steps| == 3)
    && (r.status == 200 ==> (r.reply.result.source == Demo <==> !Configured(env)))
    && (r.status == 200 && r.reply.result.source == Demo ==> r.reply.result.code == Str(DemoCode) && r.reply.result.title == Str(DemoTitle))
    && (r.status == 200 && Configured(env) ==> r.reply.result.source == Ai)
    && (r.status == 500 ==>
          r.reply.ErrorReply? && verb == "POST" &&
          (image.None? || (Truthy(image.value) && Configured(env) && (ToStringThrows(image.value) || upstream.Threw?))))
    && (verb == "POST" && image.Some? && Truthy(image.value) && Configured(env) && ToStringThrows(image.value)
        ==> r == Response(500, ErrorReply(ConvertError)))
    && (verb == "POST" && image.Some? && Truthy(image.value) && Configured(env) && !ToStringThrows(image.value) && upstream.Threw?
        ==> r == Response(500, ErrorReply(upstream.message)))
    && (r.status == 200 || r.status == 400 || r.status == 405 || r.status == 500)
  }

  /** api/analyze.js `handler`. */
  function AnalyzeHandler(req: FetchRequest, env: Env, upstream: Upstream, parse: Parser): (r: Response)
    ensures Dispatches(req.verb, AnalyzeImage(req), env, upstream, r)
    ensures req.verb == "POST" && AnalyzeImage(req).None? ==> r == Response(500, ErrorReply(NullBodyError))
    ensures r.status == 200 && r.reply.result.source == Demo ==> r.reply.result.steps == AnalyzeDemoSteps
    ensures req.verb == "POST" && AnalyzeImage(req).Some? && Truthy(AnalyzeImage(req).value) && Configured(env)
            && !ToStringThrows(AnalyzeImage(req).value) && upstream.Replied? ==>
      var raw := RawOf(upstream.body);
      r == Response(200, ResultReply(Normalize(raw, AnalyzeFirstParse(raw, parse), parse)))
  {
    if req.verb != "POST" then MethodNotAllowed
    else match AnalyzeImage(req)
      case None => Response(500, ErrorReply(NullBodyError))
      case Some(image) =>
        if !Truthy(image) then ImageRequired
        else Forward(env, image, upstream, AnalyzeDemoSteps, raw => AnalyzeFirstParse(raw, parse), parse)
  }

  /** api/index.js `handler`. */
  function IndexHandler(req: NodeRequest, env: Env, upstream: Upstream, parse: Parser): (r: Response)
    ensures Dispatches(req.verb, Some(IndexImage(req)), env, upstream, r)
    ensures r.status == 200 && r.reply.result.source == Demo ==> r.reply.result.steps == IndexDemoSteps
    ensures req.verb == "POST" && Truthy(IndexImage(req)) && Configured(env) && !ToStringThrows(IndexImage(req)) && upstream.Replied? ==>
      var raw := RawOf(upstream.body);
      r == Response(200, ResultReply(Normalize(raw, IndexFirstParse(raw, parse), parse)))
  {
    if req.verb != "POST" then MethodNotAllowed
    else
      var image := IndexImage(req);
      if !Truthy(image) then ImageRequired
      else Forward(env, image, upstream, IndexDemoSteps, raw => IndexFirstParse(raw, parse), parse)
  }

  /** Without credentials no upstream call is made: whatever the upstream
      would have answered, and however replies would parse, the response is
      the same. */
  lemma UnconfiguredIgnoresUpstream(fr: FetchRequest, nr: NodeRequest, env: Env, u1: Upstream, u2: Upstream, p1: Parser, p2: Parser)
    requires !Configured(env)
    ensures AnalyzeHandler(fr, env, u1, p1) == AnalyzeHandler(fr, env, u2, p2)
    ensures IndexHandler(nr, env, u1, p1) == IndexHandler(nr, env, u2, p2)
  {
  }

  /** A request without a body is a bad request in both handlers; a JSON
      `null` body is a 500 in api/analyze.js and a 400 in api/index.js. */
  lemma MissingBodyRejected(env: Env, upstream: Upstream, parse: Parser)
    ensures AnalyzeHandler(FetchRequest("POST", None), env, upstream, parse) == ImageRequired
    ensures IndexHandler(NodeRequest("POST", Undefined), env, upstream, parse) == ImageRequired
    ensures AnalyzeHandler(FetchRequest("POST", Some(Null)), env, upstream, parse) == Response(500, ErrorReply(NullBodyError))
    ensures IndexHandler(NodeRequest("POST", Null), env, upstream, parse) == ImageRequired
  {
  }

  /** An image sent as an object with its own `toString`, such as
      `{"toString": 0}`, cannot be put into the prompt: with credentials set,
      both handlers answer 500 whatever the upstream would have replied, so
      no upstream call is made. */
  lemma UnconvertibleImageRejected(image: JsValue, env: Env, u1: Upstream, u2: Upstream, parse: Parser)
    requires image == Obj(map["toString" := Num(0)])
    requires Configured(env)
    ensures var fr := FetchRequest("POST", Some(Obj(map["imageBase64" := image])));
      && AnalyzeHandler(fr, env, u1, parse) == AnalyzeHandler(fr, env, u2, parse) == Response(500, ErrorReply(ConvertError))
    ensures var nr := NodeRequest("POST", Obj(map["imageBase64" := image]));
      && IndexHandler(nr, env, u1, parse) == IndexHandler(nr, env, u2, parse) == Response(500, ErrorReply(ConvertError))
  {
  }

  /** When the raw reply is a string, the two handlers' first parses
      coincide, and so do their normalised results. */
  lemma FirstParsesAgreeOnStrings(s: string, parse: Parser)
    ensures AnalyzeFirstParse(Str(s), parse) == IndexFirstParse(Str(s), parse)
    ensures Normalize(Str(s), AnalyzeFirstParse(Str(s), parse), parse)
         == Normalize(Str(s), IndexFirstParse(Str(s), parse), parse)
  {
  }

  /** Two requests that ask for the same image, under the same
      configuration, get the same response from both handlers whenever the
      model's raw reply (if any) is a string. */
  lemma HandlersAgreeOnStringReplies(fr: FetchRequest, nr: NodeRequest, env: Env, upstream: Upstream, parse: Parser)
    requires fr.verb == nr.verb
    requires AnalyzeImage(fr) == Some(IndexImage(nr))
    requires Configured(env)
    requires upstream.Replied? ==> RawOf(upstream.body).Str?
    ensures AnalyzeHandler(fr, env, upstream, parse) == IndexHandler(nr, env, upstream, parse)
  {
    if upstream.Replied? {
      FirstParsesAgreeOnStrings(RawOf(upstream.body).s, parse);
    }
  }

  /** A raw reply that is already an object: api/analyze.js uses its fields,
      while api/index.js parses "[object Object]", which `JSON.parse`
      rejects, and falls back to the default record. */
  lemma HandlersDifferOnObjectReplies(props: map<string, JsValue>, parse: Parser)
    requires "code" in props && Truthy(props["code"])
    requires "title" in props && Truthy(props["title"])
    requires "steps" in props && props["steps"].Arr? && |props["steps"].items| == 3
    requires parse("[object Object]").None?
    ensures Normalize(Obj(props), AnalyzeFirstParse(Obj(props), parse), parse)
         == Analysis(props["code"], props["title"], props["steps"].items, Ai)
    ensures Normalize(Obj(props), IndexFirstParse(Obj(props), parse), parse) == DefaultAnalysis
  {
    WellFormedPassesThrough(props);
  }

  /** A reply that parses as a whole to a well-formed object comes out
      field for field, in both handlers. */
  lemma ParsedReplyPassesThrough(s: string, props: map<string, JsValue>, parse: Parser)
    requires "code" in props && Truthy(props["code"])
    requires "title" in props && Truthy(props["title"])
    requires "steps" in props && props["steps"].Arr? && |props["steps"].items| == 3
    requires parse(s) == Some(Obj(props))
    ensures Normalize(Str(s), AnalyzeFirstParse(Str(s), parse), parse)
         == Analysis(props["code"], props["title"], props["steps"].items, Ai)
    ensures Normalize(Str(s), IndexFirstParse(Str(s), parse), parse)
         == Analysis(props["code"], props["title"], props["steps"].items, Ai)
  {
    WellFormedPassesThrough(props);
  }

  /** A JSON object wrapped in prose is recovered by the brace fallback:
      when the whole text does not parse, the slice from its first '{' to
      its last '}' is parsed, and a well-formed object there comes out
      field for field. */
  lemma WrappedObjectRecovered(prefix: string, content: string, suffix: string, props: map<string, JsValue>, parse: Parser)
    requires forall k :: 0 <= k < |prefix| ==> prefix[k] != '{'
    requires forall k :: 0 <= k < |suffix| ==> suffix[k] != '}'
    requires parse(prefix + "{" + content + "}" + suffix).None?
    requires parse("{" + content + "}") == Some(Obj(props))
    requires "code" in props && Truthy(props["code"])
    requires "title" in props && Truthy(props["title"])
    requires "steps" in props && props["steps"].Arr? && |props["steps"].items| == 3
    ensures var s := prefix + "{" + content + "}" + suffix;
      && Normalize(Str(s), AnalyzeFirstParse(Str(s), parse), parse) == Analysis(props["code"], props["title"], props["steps"].items, Ai)
      && Normalize(Str(s), IndexFirstParse(Str(s), parse), parse) == Analysis(props["code"], props["title"], props["steps"].items, Ai)
  {
    var braced := "{" + content + "}";
    var s := prefix + braced + suffix;
    assert s == prefix + "{" + content + "}" + suffix;
    BraceSpanOfWrapped(prefix, braced, suffix);
    assert AnalyzeFirstParse(Str(s), parse) == IndexFirstParse(Str(s), parse) == Null;
    assert Resolve(Str(s), Null, parse) == Obj(props);
    WellFormedPassesThrough(props);
  }

  /** The reply 'prefix-noise {"code":"BRAKE","title":"T","steps":["a","b","c"]} suffix-noise'
      gives code BRAKE, title T and steps a, b, c. */
  lemma NoisyReplyExample(prefix: string, content: string, suffix: string, parse: Parser)
    requires prefix == "prefix-noise " && suffix == " suffix-noise"
    requires content == "\"code\":\"BRAKE\",\"title\":\"T\",\"steps\":[\"a\",\"b\",\"c\"]"
    requires parse(prefix + "{" + content + "}" + suffix).None?
    requires parse("{" + content + "}") == Some(Obj(map["code" := Str("BRAKE"), "title" := Str("T"), "steps" := Arr([Str("a"), Str("b"), Str("c")])]))
    ensures var s := prefix + "{" + content + "}" + suffix;
      Normalize(Str(s), AnalyzeFirstParse(Str(s), parse), parse) == Analysis(Str("BRAKE"), Str("T"), [Str("a"), Str("b"), Str("c")], Ai)
  {
    assert forall k :: 0 <= k < |prefix| ==> prefix[k] != '{';
    assert forall k :: 0 <= k < |suffix| ==> suffix[k] != '}';
    WrappedObjectRecovered(prefix, content, suffix, map["code" := Str("BRAKE"), "title" := Str("T"), "steps" := Arr([Str("a"), Str("b"), Str("c")])], parse);
  }
}
