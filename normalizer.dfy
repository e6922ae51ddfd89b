/** The response normaliser shared by both gateway handlers
    (api/analyze.js and api/index.js): it picks the model's raw reply out of
    the upstream body, parses it (re-parsing the outermost `{...}` slice of a
    string when the first parse gives nothing), and builds the
    `{code, title, steps, source: 'ai'}` record with per-field defaults. */
module Normalizer {
  import opened Js
  import Strings

  /** Provenance of an analysis result. */
  datatype Source = Ai | Demo | Local

  /** An analysis result. `code` and `title` are whatever values the model
      supplied (the normaliser checks only their truthiness), and `steps`
      holds the elements of the steps array. */
  datatype Analysis = Analysis(code: JsValue, title: JsValue, steps: seq<JsValue>, source: Source)

  function SourceTag(source: Source): string
  {
    match source
    case Ai => "ai"
    case Demo => "demo"
    case Local => "local"
  }

  /** The result as the JSON object sent to the client. */
  function AnalysisJson(a: Analysis): JsValue
  {
    Obj(map["code" := a.code, "title" := a.title, "steps" := Arr(a.steps), "source" := Str(SourceTag(a.source))])
  }

  /** The nine codes the prompt advertises to the model. The normaliser
      does not check a reply's code against them. */
  const Labels: seq<string> := ["ENGINE", "TPMS", "BATT", "BRAKE", "OIL", "COOLANT", "AIRBAG", "ABS", "INFO"]

  const DefaultCode: string := "INFO"
  const DefaultTitle: string := "특이 경고 없음 (AI)"
  const DefaultSteps: seq<JsValue> := [Str("정상으로 보입니다"), Str("문제가 지속되면 재촬영"), Str("필요 시 정비소 방문")]

  /** The record produced when nothing usable was parsed. */
  const DefaultAnalysis: Analysis := Analysis(Str(DefaultCode), Str(DefaultTitle), DefaultSteps, Ai)

  /** `j?.result?.response || j?.result?.text || j?.result?.output_text || ''`. */
  function RawOf(j: JsValue): (raw: JsValue)
    ensures var res := Get(j, "result");
      var response, text, outputText := Get(res, "response"), Get(res, "text"), Get(res, "output_text");
      && (Truthy(response) ==> raw == response)
      && (!Truthy(response) && Truthy(text) ==> raw == text)
      && (!Truthy(response) && !Truthy(text) && Truthy(outputText) ==> raw == outputText)
      && (!Truthy(response) && !Truthy(text) && !Truthy(outputText) ==> raw == Str(""))
  {
    var res := Get(j, "result");
    Or(Or(Or(Get(res, "response"), Get(res, "text")), Get(res, "output_text")), Str(""))
  }

  /** `let parsed = null; try { parsed = JSON.parse(text) } catch {}`. */
  function ParseOrNull(parse: Parser, text: string): (v: JsValue)
  {
    match parse(text)
    case Some(v) => v
    case None => Null
  }

  /** Some '{' comes before some '}' in `s`. */
  ghost predicate HasBracePair(s: string)
  {
    exists i, j :: 0 <= i < j < |s| && s[i] == '{' && s[j] == '}'
  }

  /** `a = s.indexOf('{'), b = s.lastIndexOf('}')`, kept when `a >= 0 && b > a`:
      the outermost brace span of `s`, present exactly when some '{'
      precedes some '}'. */
  function BraceSpan(s: string): (r: Option<(nat, nat)>)
    ensures r.Some? <==> HasBracePair(s)
    ensures r.Some? ==>
      var (a, b) := r.value;
      && a < b < |s| && s[a] == '{' && s[b] == '}'
      && (forall k :: 0 <= k < a ==> s[k] != '{')
      && (forall k :: b < k < |s| ==> s[k] != '}')
  {
    var a := Strings.IndexOf(s, '{');
    var b := Strings.LastIndexOf(s, '}');
    if a >= 0 && b > a then Some((a, b))
    else None
  }

  /** The value `parsed` holds once the brace fallback has run: the
      fallback runs only when the first parse gave a falsy value and the
      raw reply is a string; it re-parses `raw.slice(a, b + 1)` and keeps the
      first value when that parse throws. */
  function Resolve(raw: JsValue, first: JsValue, parse: Parser): (parsed: JsValue)
    ensures Truthy(first) || !raw.Str? || !HasBracePair(raw.s) ==> parsed == first
    ensures parsed != first ==>
      raw.Str? && BraceSpan(raw.s).Some? &&
      var (a, b) := BraceSpan(raw.s).value;
      parse(raw.s[a..b + 1]) == Some(parsed)
    ensures !Truthy(first) && raw.Str? && BraceSpan(raw.s).Some? ==>
      var (a, b) := BraceSpan(raw.s).value;
      parse(raw.s[a..b + 1]).Some? ==> parsed == parse(raw.s[a..b + 1]).value
  {
    if !Truthy(first) && raw.Str? then
      match BraceSpan(raw.s)
      case Some((a, b)) =>
        (match parse(raw.s[a..b + 1])
         case Some(v) => v
         case None => first)
      case None => first
    else first
  }

  /** The `out` record built from `parsed`: `code` and `title` fall back to
      their defaults unless truthy, and `steps` is the parsed array only
      when it has exactly three elements. */
  function Shape(parsed: JsValue): (r: Analysis)
    ensures r.source == Ai && |r.steps| == 3
    ensures Truthy(r.code) && Truthy(r.title)
    ensures r.code == Get(parsed, "code") || r.code == Str(DefaultCode)
    ensures r.title == Get(parsed, "title") || r.title == Str(DefaultTitle)
    ensures r.steps == DefaultSteps || Get(parsed, "steps") == Arr(r.steps)
    ensures Truthy(Get(parsed, "code")) ==> r.code == Get(parsed, "code")
    ensures Truthy(Get(parsed, "title")) ==> r.title == Get(parsed, "title")
    ensures Get(parsed, "steps").Arr? && |Get(parsed, "steps").items| == 3 ==> r.steps == Get(parsed, "steps").items
  {
    var steps := Get(parsed, "steps");
    Analysis(
      Or(Get(parsed, "code"), Str(DefaultCode)),
      Or(Get(parsed, "title"), Str(DefaultTitle)),
      if steps.Arr? && |steps.items| == 3 then steps.items else DefaultSteps,
      Ai)
  }

  /** The normaliser: brace fallback, then field defaults. `first` is the
      result of the handler's own first parse of `raw`. */
  function Normalize(raw: JsValue, first: JsValue, parse: Parser): (r: Analysis)
    ensures r.source == Ai && |r.steps| == 3 && Truthy(r.code) && Truthy(r.title)
  {
    Shape(Resolve(raw, first, parse))
  }

  /** In a text made of a prefix without '{', a braced part and a suffix
      without '}', the brace span is exactly the braced part. */
  lemma {:induction false} BraceSpanOfWrapped(prefix: string, braced: string, suffix: string)
    requires forall k :: 0 <= k < |prefix| ==> prefix[k] != '{'
    requires forall k :: 0 <= k < |suffix| ==> suffix[k] != '}'
    requires |braced| >= 2 && braced[0] == '{' && braced[|braced| - 1] == '}'
    ensures var s := prefix + braced + suffix;
      BraceSpan(s) == Some((|prefix|, |prefix| + |braced| - 1)) && s[|prefix|..|prefix| + |braced|] == braced
  {
    var s := prefix + braced + suffix;
    var m := |prefix| + |braced|;
    assert s[|prefix|] == '{' && s[m - 1] == '}';
    assert forall k :: 0 <= k < |prefix| ==> s[k] == prefix[k];
    assert forall k :: m <= k < |s| ==> s[k] == suffix[k - m];
    assert HasBracePair(s);
    var (a, b) := BraceSpan(s).value;
    assert a == |prefix| && b == m - 1;
    assert s[a..b + 1] == braced;
  }

  /** A parsed object whose code and title are truthy and whose steps is a
      three-element array comes out field for field. */
  lemma WellFormedPassesThrough(props: map<string, JsValue>)
    requires "code" in props && Truthy(props["code"])
    requires "title" in props && Truthy(props["title"])
    requires "steps" in props && props["steps"].Arr? && |props["steps"].items| == 3
    ensures Shape(Obj(props)) == Analysis(props["code"], props["title"], props["steps"].items, Ai)
  {
  }

  /** A truthy code is kept whatever it is: the normaliser does not
      check it against the advertised labels (nor that it is a string). */
  lemma CodeNotValidated(props: map<string, JsValue>)
    requires "code" in props && Truthy(props["code"])
    ensures Shape(Obj(props)).code == props["code"]
    ensures Shape(Obj(map["code" := Str("WIPER")])).code == Str("WIPER") && "WIPER" !in Labels
  {
  }

  /** Anything that is not an object (including the `null` of a failed
      parse) gives the default record. */
  lemma NonObjectGivesDefault(parsed: JsValue)
    requires !parsed.Obj?
    ensures Shape(parsed) == DefaultAnalysis
  {
  }

  /** Steps that are not an array of exactly three elements are replaced as
      a whole by the default triple, whatever the other fields hold. */
  lemma MalformedStepsReplaced(parsed: JsValue)
    requires !(Get(parsed, "steps").Arr? && |Get(parsed, "steps").items| == 3)
    ensures Shape(parsed).steps == DefaultSteps
  {
  }

  /** A string reply with no '{' before a '}', whose first parse gave no
      object, gives the default record. */
  lemma NoBracePairGivesDefault(s: string, first: JsValue, parse: Parser)
    requires !first.Obj?
    requires !HasBracePair(s)
    ensures Normalize(Str(s), first, parse) == DefaultAnalysis
  {
    NonObjectGivesDefault(first);
  }

  /** A string reply whose first parse gave no object and whose brace slice
      does not parse to an object gives the default record. */
  lemma UnparsableSliceGivesDefault(s: string, first: JsValue, parse: Parser)
    requires !first.Obj?
    requires BraceSpan(s).Some?
    requires var (a, b) := BraceSpan(s).value;
      parse(s[a..b + 1]).None? || !parse(s[a..b + 1]).value.Obj?
    ensures Normalize(Str(s), first, parse) == DefaultAnalysis
  {
    NonObjectGivesDefault(Resolve(Str(s), first, parse));
  }
}
