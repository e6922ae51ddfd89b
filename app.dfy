/** The decision logic of the browser client, src/App.jsx: the file-name
    heuristic used when the gateway cannot be reached, the target size
    computed before an upload is re-encoded, and the history update made
    after each analysis. */
module App {
  import opened Js
  import opened Normalizer
  import Strings
  import Gateway

  // ---------------------------------------------------------------------
  // Fallback classifier (`analyzeLocallyByHeuristic`)
  // ---------------------------------------------------------------------

  /** `name` contains `keyword` somewhere. */
  ghost predicate Mentions(name: string, keyword: string)
  {
    exists i :: Strings.OccursAt(name, keyword, i)
  }

  /** `name.includes(keyword)`, tied to `Mentions`. */
  function Includes(name: string, keyword: string): (b: bool)
    ensures b <==> Mentions(name, keyword)
  {
    Strings.IncludesIffOccurs(name, keyword);
    Strings.Includes(name, keyword)
  }

  const TpmsResult: Analysis :=
    Analysis(Str("TPMS"), Str("타이어 공기압 경고 (추정)"), [Str("공기압 보충"), Str("펑크 점검"), Str("겨울철 보정")], Local)
  const BattResult: Analysis :=
    Analysis(Str("BATT"), Str("배터리/충전 경고 (추정)"), [Str("야간 주행 자제"), Str("단자 점검"), Str("충전 전압 측정")], Local)
  const EngineResult: Analysis :=
    Analysis(Str("ENGINE"), Str("엔진 계통 경고 (추정)"), [Str("가속 자제"), Str("연료캡 확인"), Str("OBD-II 스캔")], Local)
  const InfoResult: Analysis :=
    Analysis(Str("INFO"), Str("특이 경고 없음 (일반 표시)"), [Str("연료/냉각수/오일 확인"), Str("문제가 지속되면 재업로드"), Str("필요 시 정비소 방문")], Local)

  /** `(file.name || '').toLowerCase()`. */
  function LoweredName(name: Option<string>): string
  {
    Strings.ToLower(match name case Some(s) => s case None => "")
  }

  /** `analyzeLocallyByHeuristic`: the rules are tried in order -- tire or
      tpms, then battery, then engine or check -- on the lowercased name,
      and the first that matches decides; no match gives the INFO record. */
  function Classify(name: Option<string>): (r: Analysis)
    ensures r.source == Local && |r.steps| == 3
    ensures var n := LoweredName(name);
      && (r == TpmsResult <==> Mentions(n, "tire") || Mentions(n, "tpms"))
      && (r == BattResult <==> !Mentions(n, "tire") && !Mentions(n, "tpms") && Mentions(n, "battery"))
      && (r == EngineResult <==> !Mentions(n, "tire") && !Mentions(n, "tpms") && !Mentions(n, "battery")
                                 && (Mentions(n, "engine") || Mentions(n, "check")))
      && (r == InfoResult <==> !Mentions(n, "tire") && !Mentions(n, "tpms") && !Mentions(n, "battery")
                               && !Mentions(n, "engine") && !Mentions(n, "check"))
  {
    var n := LoweredName(name);
    if Includes(n, "tire") || Includes(n, "tpms") then TpmsResult
    else if Includes(n, "battery") then BattResult
    else if Includes(n, "engine") || Includes(n, "check") then EngineResult
    else InfoResult
  }

  /** Case does not matter: a name and its lowercased form are classified
      alike, and a missing name is classified like the empty one, as INFO. */
  lemma ClassifyIgnoresCase(s: string)
    ensures Classify(Some(s)) == Classify(Some(Strings.ToLower(s)))
    ensures Classify(None) == Classify(Some("")) == InfoResult
  {
    Strings.ToLowerIdempotent(s);
    assert !Mentions("", "tire") && !Mentions("", "tpms") && !Mentions("", "battery");
    assert !Mentions("", "engine") && !Mentions("", "check");
  }

  /** A name mentioning tires wins over every later rule. */
  lemma TireWins(s: string)
    requires Mentions(Strings.ToLower(s), "tire")
    ensures Classify(Some(s)) == TpmsResult
  {
  }

  /** A name can mention a keyword only if it holds the keyword's first
      letter. */
  lemma MentionsFirstLetter(name: string, keyword: string)
    requires keyword != []
    ensures Mentions(name, keyword) ==> exists i :: 0 <= i < |name| && name[i] == keyword[0]
  {
    if Mentions(name, keyword) {
      var i :| Strings.OccursAt(name, keyword, i);
      assert name[i..i + |keyword|][0] == name[i];
    }
  }

  /** "Tire_Pressure.jpg" is a TPMS warning. */
  lemma TirePressureExample(name: string)
    requires name == "Tire_Pressure.jpg"
    ensures Classify(Some(name)) == TpmsResult
  {
  }

  /** "random.png" mentions no keyword and gets the INFO record. */
  lemma RandomNameExample(name: string)
    requires name == "random.png"
    ensures Classify(Some(name)) == InfoResult
  {
    var n := LoweredName(Some(name));
    assert n == name by {
      forall i | 0 <= i < |name| ensures n[i] == name[i] {
        assert !('A' <= name[i] <= 'Z');
      }
    }
    forall i | 0 <= i < |n| ensures n[i] !in {'t', 'b', 'e', 'c'} {
      assert name[i] in {'r', 'a', 'n', 'd', 'o', 'm', '.', 'p', 'g'};
    }
    MentionsFirstLetter(n, "tire");
    MentionsFirstLetter(n, "tpms");
    MentionsFirstLetter(n, "battery");
    MentionsFirstLetter(n, "engine");
    MentionsFirstLetter(n, "check");
  }

  // ---------------------------------------------------------------------
  // Resize arithmetic (`toBase64Resized`)
  // ---------------------------------------------------------------------

  /** `Math.round(n / d)` for non-negative operands: halves round up. */
  function RoundDiv(n: nat, d: nat): (q: nat)
    requires d > 0
    ensures 2 * d * q <= 2 * n + d < 2 * d * q + 2 * d
  {
    (2 * n + d) / (2 * d)
  }

  /** The canvas size `toBase64Resized` draws into: unchanged when the
      longer side fits within `limit`; otherwise the longer side (the width
      on a tie) becomes `limit` and the other side is the nearest integer to
      its proportional value, which never exceeds `limit`. */
  function TargetSize(width: nat, height: nat, limit: nat): (r: (nat, nat))
    ensures width <= limit && height <= limit ==> r == (width, height)
    ensures width >= height && width > limit ==>
      && r.0 == limit && r.1 <= limit
      && 2 * width * r.1 <= 2 * (height * limit) + width < 2 * width * r.1 + 2 * width
    ensures width < height && height > limit ==>
      && r.1 == limit && r.0 <= limit
      && 2 * height * r.0 <= 2 * (width * limit) + height < 2 * height * r.0 + 2 * height
  {
    if width <= limit && height <= limit then (width, height)
    else if width >= height then
      var th := RoundDiv(height * limit, width);
      ScaledSideFits(height, width, limit, th);
      (limit, th)
    else
      var tw := RoundDiv(width * limit, height);
      ScaledSideFits(width, height, limit, tw);
      (tw, limit)
  }

  /** The shorter side, scaled and rounded, stays within the limit. */
  lemma ScaledSideFits(short: nat, long: nat, limit: nat, q: nat)
    requires short <= long && long > 0
    requires 2 * long * q <= 2 * (short * limit) + long
    ensures q <= limit
  {
    MulRightMono(short, long, limit);
    assert 2 * long * q == 2 * (long * q);
    assert long * (limit + 1) == long * limit + long;
    MulCancelLt(long, q, limit + 1);
  }

  /** Multiplying by the same factor keeps `<=`. */
  lemma MulRightMono(x: nat, y: nat, a: nat)
    requires x <= y
    ensures x * a <= y * a
  {
  }

  /** A strict inequality between multiples of a positive number is one
      between the factors. */
  lemma MulCancelLt(a: nat, x: nat, y: nat)
    requires a > 0 && a * x < a * y
    ensures x < y
  {
  }

  /** 4000x2000 is scaled to 1280x640; 800x600 is kept. */
  lemma TargetSizeExamples()
    ensures TargetSize(4000, 2000, 1280) == (1280, 640)
    ensures TargetSize(800, 600, 1280) == (800, 600)
  {
  }

  // ---------------------------------------------------------------------
  // History update (`runAnalyze`)
  // ---------------------------------------------------------------------

  /** The picked file; only its name is used. */
  datatype FileInfo = FileInfo(name: Option<string>)

  /** One history entry. `id` and `at` (from `Date.now()` and
      `toLocaleString()`) are supplied by the caller. */
  datatype HistoryItem = HistoryItem(
    id: int, fileName: Option<string>, preview: Option<string>,
    detected: JsValue, code: JsValue, source: JsValue, at: string)

  /** How the call to the gateway ended: `analyzeWithServer` resolved with
      the response body, or something on the way threw (resizing, the
      network, a non-2xx status). */
  datatype Outcome = Served(data: JsValue) | Failed

  /** A gateway reply as the JSON body the client receives. */
  function ReplyJson(reply: Gateway.Reply): JsValue
  {
    match reply
    case ErrorReply(e) => Obj(map["error" := Str(e)])
    case ResultReply(a) => AnalysisJson(a)
  }

  /** `analyzeWithServer`: `None` is a network failure; a status outside
      200..299 throws 'API 오류'. */
  function ClientOutcome(response: Option<Gateway.Response>): (o: Outcome)
    ensures o.Failed? <==> response.None? || !(200 <= response.value.status < 300)
    ensures o.Served? ==> o.data == ReplyJson(response.value.reply) && o.data.Obj?
    ensures o.Served? ==> Completes(o)
  {
    match response
    case None => Failed
    case Some(resp) => if 200 <= resp.status < 300 then Served(ReplyJson(resp.reply)) else Failed
  }

  /** The `try` block of `runAnalyze` runs to its end: the gateway call
      resolved, and reading `data.title` did not throw, which it does when
      the body is `null` (or `undefined`). Otherwise the `catch` block runs. */
  predicate Completes(outcome: Outcome)
  {
    outcome.Served? && !outcome.data.Null? && !outcome.data.Undefined?
  }

  /** The item `runAnalyze` prepends: when the `try` block completes its
      fields are read from the response, with `source` falling back to 'ai';
      otherwise they come from the heuristic and `source` is 'local'. */
  function Entry(file: FileInfo, preview: Option<string>, outcome: Outcome, id: int, at: string): (item: HistoryItem)
    ensures item.id == id && item.fileName == file.name && item.preview == preview && item.at == at
    ensures Completes(outcome) ==>
      && item.detected == Get(outcome.data, "title") && item.code == Get(outcome.data, "code")
      && Truthy(item.source)
      && (Truthy(Get(outcome.data, "source")) ==> item.source == Get(outcome.data, "source"))
      && (!Truthy(Get(outcome.data, "source")) ==> item.source == Str("ai"))
    ensures !Completes(outcome) ==>
      item.source == Str("local") && item.code == Classify(file.name).code && item.detected == Classify(file.name).title
  {
    if Completes(outcome) then
      var data := outcome.data;
      HistoryItem(id, file.name, preview, Get(data, "title"), Get(data, "code"), Or(Get(data, "source"), Str("ai")), at)
    else
      var local := Classify(file.name);
      HistoryItem(id, file.name, preview, local.title, local.code, Str("local"), at)
  }

  /** The value `runAnalyze` leaves in `result`: the response body when the
      `try` block completes, else the heuristic record (a `null` body is
      shown for a moment and then replaced by the `catch` block). */
  function Shown(file: FileInfo, outcome: Outcome): (shown: JsValue)
    ensures !shown.Null? && !shown.Undefined?
    ensures Completes(outcome) ==> shown == outcome.data
    ensures !Completes(outcome) ==> shown == AnalysisJson(Classify(file.name)) && Get(shown, "source") == Str("local")
  {
    if Completes(outcome) then outcome.data else AnalysisJson(Classify(file.name))
  }

  /** A successful gateway reply is recorded with its own code, title and
      source tag ('ai' or 'demo'). */
  lemma ServedEntryKeepsSource(file: FileInfo, preview: Option<string>, a: Analysis, id: int, at: string)
    ensures var item := Entry(file, preview, ClientOutcome(Some(Gateway.Response(200, Gateway.ResultReply(a)))), id, at);
      item.source == Str(SourceTag(a.source)) && item.code == a.code && item.detected == a.title
  {
  }

  /** Every gateway error (405, 400, 500) and every network failure is
      recorded as a local heuristic result for the same file name. */
  lemma FailureEntryIsLocal(file: FileInfo, preview: Option<string>, response: Option<Gateway.Response>, id: int, at: string)
    requires response.Some? ==> response.value.status in {400, 405, 500}
    ensures var item := Entry(file, preview, ClientOutcome(response), id, at);
      && item.source == Str("local") && item.code == Classify(file.name).code
      && item.detected == Classify(file.name).title
    ensures Shown(file, ClientOutcome(response)) == AnalysisJson(Classify(file.name))
  {
  }

  /** A body that is `null` or `undefined` makes `data.title` throw inside
      the `try` block, so the `catch` block records and shows the heuristic
      result, exactly as for a failed call. */
  lemma NullishDataTakesLocalPath(file: FileInfo, preview: Option<string>, data: JsValue, id: int, at: string)
    requires data.Null? || data.Undefined?
    ensures Entry(file, preview, Served(data), id, at) == Entry(file, preview, Failed, id, at)
    ensures Entry(file, preview, Served(data), id, at).source == Str("local")
    ensures Shown(file, Served(data)) == AnalysisJson(Classify(file.name))
  {
  }

  /** The client-side state `runAnalyze` reads and updates: the picked file
      and its preview URL, the displayed result and the history list. */
  class Session {
    var file: Option<FileInfo>
    var preview: Option<string>
    var result: JsValue
    var history: seq<HistoryItem>

    /** Starts with the history read back from storage and no file. */
    constructor (saved: seq<HistoryItem>)
      ensures file.None? && preview.None? && result == Null && history == saved
    {
      file := None;
      preview := None;
      result := Null;
      history := saved;
    }

    /** `onPick`: an empty selection changes nothing; otherwise the file
        and its preview URL are kept and the previous result is cleared. */
    method Pick(picked: Option<FileInfo>, url: string)
      modifies this
      ensures picked.None? ==> file == old(file) && preview == old(preview) && result == old(result)
      ensures picked.Some? ==> file == picked && preview == Some(url) && result == Null
      ensures history == old(history)
    {
      if picked.Some? {
        file := picked;
        preview := Some(url);
        result := Null;
      }
    }

    /** `runAnalyze`: without a file the user is alerted and nothing
        changes; otherwise the result is shown and exactly one item is
        prepended to the history, the earlier items kept in order. */
    method RunAnalyze(outcome: Outcome, id: int, at: string) returns (alerted: bool)
      modifies this
      ensures file == old(file) && preview == old(preview)
      ensures alerted <==> file.None?
      ensures alerted ==> history == old(history) && result == old(result)
      ensures !alerted ==> history == [Entry(file.value, preview, outcome, id, at)] + old(history)
      ensures !alerted ==> result == Shown(file.value, outcome)
    {
      if file.None? {
        return true;
      }
      var f := file.value;
      result := Shown(f, outcome);
      history := [Entry(f, preview, outcome, id, at)] + history;
      alerted := false;
    }
  }
}
