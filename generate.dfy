/**
 * The generation step (`POST /api/generate?id=...`): read the newest answers
 * payload of an insigne, ask the language model for a report and a Latin
 * motto, parse its output with a fallback, and store the trimmed result.
 * The model call, `JSON.stringify` and `JSON.parse` are oracles.
 */
module Generate {
  import opened Wrappers
  import opened Js
  import opened Db
  import opened Query
  import opened Http

  /** The prompt embeds at most this many characters of the serialised payload. */
  const PayloadLimit: nat := 12000

  /** What the model provider's HTTP answer amounts to. */
  datatype LlmReply =
    | Unreachable                // `fetch` rejects: no response arrived
    | NotOk(text: string)        // `!r.ok`: the body as text
    | Unreadable                 // `r.json()` rejects: the body is not JSON
    | Answered(json: JsValue)    // the parsed body `j`

  /** `j.output?.[0]?.content?.[0]?.text`. */
  function FirstText(j: JsValue): JsValue {
    Get(At(Get(At(Get(j, "output"), 0), "content"), 0), "text")
  }

  /**
   * The text extraction of `openaiText`:
   * `String(j.output?.[0]?.content?.[0]?.text || j.output_text || "")`.
   * `None` stands for the TypeError `j.output` raises when `j` is null.
   */
  function ExtractText(j: JsValue): (r: Option<string>)
    ensures r.None? <==> j == Null || j == Undefined
    ensures r.Some? && Truthy(FirstText(j)) ==> r.value == ToJsString(FirstText(j))
    ensures r.Some? && !Truthy(FirstText(j)) && Truthy(Get(j, "output_text")) ==>
      r.value == ToJsString(Get(j, "output_text"))
    ensures r.Some? && !Truthy(FirstText(j)) && !Truthy(Get(j, "output_text")) ==> r.value == ""
  {
    if j == Null || j == Undefined then None
    else Some(ToJsString(Or(Or(FirstText(j), Get(j, "output_text")), Str(""))))
  }

  /** The usual body shape: the first content part's text is the answer. */
  lemma ExtractFromOutput(t: string, outputText: JsValue)
    requires t != ""
    ensures ExtractText(Obj(map[
      "output" := Arr([Obj(map["content" := Arr([Obj(map["text" := Str(t)])])])]),
      "output_text" := outputText])) == Some(t)
  {
  }

  /** Without an `output` array the top-level `output_text` is the answer. */
  lemma ExtractFromOutputText(t: string)
    requires t != ""
    ensures ExtractText(Obj(map["output_text" := Str(t)])) == Some(t)
  {
  }

  /** An `output` that is an object keyed by index is read like an array: `o[0]` is `o["0"]`. */
  lemma ExtractFromIndexedOutput(t: string)
    requires t != ""
    ensures ExtractText(Obj(map[
      "output" := Obj(map["0" := Obj(map["content" := Arr([Obj(map["text" := Str(t)])])])])])) == Some(t)
  {
    assert NatToString(0) == "0";
  }

  /** `openaiText(prompt)` once the provider has answered: the text, or what it throws. */
  function OpenaiText(reply: LlmReply): Result<string, Exception> {
    match reply
    case Unreachable => Failure(NetworkError)
    case NotOk(text) => Failure(ProviderError(text))
    case Unreadable => Failure(SyntaxError)
    case Answered(j) =>
      match ExtractText(j)
      case None => Failure(TypeError)
      case Some(t) => Success(t)
  }

  function AnswerCreatedAt(a: AnswerRow): int { a.createdAt }

  /**
   * `.from("answers").eq("insigne_id", id).order("created_at", { ascending: false }).limit(1)`:
   * a row of that insigne with the greatest `created_at`.
   */
  function LatestAnswer(answers: seq<AnswerRow>, id: string): (r: Option<AnswerRow>)
    ensures r.None? <==> forall a :: a in answers ==> a.insigneId != id
    ensures r.Some? ==> r.value in answers && r.value.insigneId == id
    ensures r.Some? ==> forall a :: a in answers && a.insigneId == id ==> a.createdAt <= r.value.createdAt
  {
    var own := Filter(answers, (a: AnswerRow) => a.insigneId == id);
    Newest(own, AnswerCreatedAt)
  }

  /** `ansErr?.message || "No answers found"`. */
  function NoAnswersMessage(answersError: Option<string>): string {
    if answersError.Some? && answersError.value != "" then answersError.value else "No answers found"
  }

  /** `JSON.stringify(payload).slice(0, 12000)`: the part of the payload the prompt carries. */
  function EmbeddedPayload(payload: JsValue, stringify: JsValue -> string): (p: string)
    ensures |p| <= PayloadLimit
    ensures |p| <= |stringify(payload)| && p == stringify(payload)[..|p|]
    ensures |stringify(payload)| <= PayloadLimit ==> p == stringify(payload)
    ensures |stringify(payload)| > PayloadLimit ==> |p| == PayloadLimit
  {
    Truncate(stringify(payload), PayloadLimit)
  }

  /** The object the handler falls back to when the model's output is not JSON. */
  function Fallback(out: string): JsValue {
    Obj(map["report_text" := Str(out), "motto_english" := Str(""), "motto_latin" := Str("")])
  }

  /** `try { parsed = JSON.parse(out) } catch { parsed = fallback }`. */
  function Parsed(out: string, parse: string -> Option<JsValue>): JsValue {
    match parse(out)
    case Some(v) => v
    case None => Fallback(out)
  }

  /** `String(parsed[key] || "").trim()` for a `parsed` that is neither null nor undefined. */
  function TextField(parsed: JsValue, key: string): (r: string)
    ensures NoOuterSpace(r)
    ensures Get(parsed, key).Str? ==> r == Trim(Get(parsed, key).s)
    ensures !Truthy(Get(parsed, key)) ==> r == ""
  {
    Trim(ToJsString(Or(Get(parsed, key), Str(""))))
  }

  /** What the final update writes. */
  datatype Content = Content(reportText: string, mottoLatin: string)

  /**
   * The content derived from the model's output `out`, or the TypeError raised
   * by reading `parsed.report_text` when the output parses to null.
   */
  function ContentOf(out: string, parse: string -> Option<JsValue>): (r: Result<Content, Exception>)
    ensures parse(out).None? ==> r == Success(Content(Trim(out), ""))
    ensures r.Failure? <==> parse(out) == Some(Null) || parse(out) == Some(Undefined)
    ensures r.Failure? ==> r.error == TypeError
    ensures r.Success? ==> NoOuterSpace(r.value.reportText) && NoOuterSpace(r.value.mottoLatin)
  {
    var parsed := Parsed(out, parse);
    if parsed == Null || parsed == Undefined then Failure(TypeError)
    else
      assert parse(out).None? ==> Get(parsed, "motto_latin") == Str("");
      Success(Content(TextField(parsed, "report_text"), TextField(parsed, "motto_latin")))
  }

  /** Strict JSON output with string fields is stored trimmed; `motto_english` is dropped. */
  lemma ContentOfStructured(out: string, parse: string -> Option<JsValue>, fields: map<string, JsValue>)
    requires parse(out) == Some(Obj(fields))
    requires "report_text" in fields && fields["report_text"].Str?
    requires "motto_latin" in fields && fields["motto_latin"].Str?
    ensures ContentOf(out, parse) == Success(Content(Trim(fields["report_text"].s), Trim(fields["motto_latin"].s)))
  {
  }

  /**
   * The handler. `prompt` is the payload text handed to the model, `None` when
   * the handler returns before calling it.
   */
  method Handle(db: Store, req: Request, answersError: Option<string>,
                stringify: JsValue -> string, llm: string -> LlmReply, parse: string -> Option<JsValue>)
    returns (resp: Response, prompt: Option<string>)
    requires db.Valid()
    modifies db
    ensures db.Valid()
    ensures req.verb != "POST" ==>
      resp == Reply(405, Refused) && prompt == None && db.Snapshot() == old(db.Snapshot())
    ensures req.verb == "POST" && Param(req, "id") == "" ==>
      resp == Reply(400, Error("Missing id")) && prompt == None && db.Snapshot() == old(db.Snapshot())
    ensures req.verb == "POST" && Param(req, "id") != ""
            && (answersError.Some? || LatestAnswer(old(db.answers), Param(req, "id")).None?) ==>
      resp == Reply(500, Error(NoAnswersMessage(answersError))) && prompt == None
      && db.Snapshot() == old(db.Snapshot())
    ensures req.verb == "POST" && Param(req, "id") != ""
            && answersError.None? && LatestAnswer(old(db.answers), Param(req, "id")).Some? ==>
      var id := Param(req, "id");
      var asked := EmbeddedPayload(LatestAnswer(old(db.answers), id).value.payload, stringify);
      var generating := old(db.Snapshot()).(insignes := WithStatus(old(db.insignes), id, Generating));
      && prompt == Some(asked)
      && match OpenaiText(llm(asked))
         case Failure(e) => resp == Thrown(e) && db.Snapshot() == generating
         case Success(out) =>
           match ContentOf(out, parse)
           case Failure(e) => resp == Thrown(e) && db.Snapshot() == generating
           case Success(c) =>
             resp == Reply(200, Ok)
             && db.Snapshot() == generating.(insignes := WithContent(generating.insignes, id, c.reportText, c.mottoLatin))
  {
    prompt := None;
    if req.verb != "POST" {
      return Reply(405, Refused), prompt;
    }
    var id := Param(req, "id");
    if id == "" {
      return Reply(400, Error("Missing id")), prompt;
    }
    var latest := LatestAnswer(db.answers, id);
    if answersError.Some? || latest.None? {
      return Reply(500, Error(NoAnswersMessage(answersError))), prompt;
    }
    var asked := EmbeddedPayload(latest.value.payload, stringify);
    prompt := Some(asked);
    db.SetStatus(id, Generating);
    var out := OpenaiText(llm(asked));
    if out.Failure? {
      return Thrown(out.error), prompt;
    }
    var content := ContentOf(out.value, parse);
    if content.Failure? {
      return Thrown(content.error), prompt;
    }
    db.SetContent(id, content.value.reportText, content.value.mottoLatin);
    resp := Reply(200, Ok);
  }
}
