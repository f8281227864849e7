/**
 * `handler`, the serverless entry point: check the method, read the request body, look the design
 * type up in the catalog, ask the text model (through the retry wrapper) for a JSON design, check
 * and parse its answer, resolve the image prompts in it and answer 200, or answer with an error.
 * The text model, the image model and `JSON.parse` are parameters.
 */
module Handler {
  import opened Wrappers
  import opened JsText
  import opened Json
  import opened Retry
  import Catalog
  import ImageResolver
  import PromptResolution

  /** The parts of the incoming event the handler reads. */
  datatype Event = Event(httpMethod: string, body: string)

  /** The returned response; the body is the value `JSON.stringify` is applied to. */
  datatype Response = Response(statusCode: nat, headers: map<string, string>, body: Json)

  /** One entry of a multi-part request: the text, or the inline reference image. */
  datatype Part = TextPart(text: string) | InlineData(mimeType: Option<Json>, data: Option<Json>)

  /** `contents`: the bare prompt text, or `{ parts: [...] }` when an image goes along. */
  datatype Contents = TextContents(text: string) | Parts(parts: seq<Part>)

  /**
   * The `generateContent` request. Its response schema and system instruction are those of the
   * catalog entry; the model records which entry they come from.
   */
  datatype ContentRequest = ContentRequest(
    model: string, contents: Contents, responseMimeType: string, designTypeId: string)

  /** What the text model answers: its `text` accessor, which may be undefined. */
  datatype TextAnswer = TextAnswer(text: Option<string>)

  /** The text model: the outcome of its n-th call with a request. */
  type TextBackend = (ContentRequest, nat) -> Attempt<TextAnswer>

  /**
   * Everything outside the function the handler depends on: `JSON.parse` (a value, or the
   * message of the SyntaxError it throws), the message of the TypeError thrown when destructuring
   * `null`, how a number prints inside a template literal, and the two models.
   */
  datatype Services = Services(
    parseJson: string -> Result<Json, string>,
    nullBodyMessage: string,
    numberText: real -> string,
    textBackend: TextBackend,
    imageBackend: ImageResolver.ImageBackend)

  const MethodNotAllowedMessage := "Method Not Allowed"
  const InvalidTypePrefix := "Invalid design type: "
  const UnknownErrorMessage := "An unknown server error occurred."
  const EmptyAnswerMessage := "Не удалось создать дизайн: ИИ вернул пустой ответ."
  const MalformedAnswerMessage :=
    "Не удалось создать дизайн: ИИ вернул некорректный ответ. Пожалуйста, попробуйте еще раз."
  const TextModel := "gemini-2.5-flash"
  const JsonMimeType := "application/json"
  const JsonHeaders: map<string, string> := map["Content-Type" := JsonMimeType]
  /** The retry defaults the text call uses. */
  const TextAttempts := 3
  const TextDelay := 1000

  /** An error response: the status and `{ error: message }`, with no headers. */
  function Failure(status: nat, message: string): Response
  {
    Response(status, map[], Obj(map["error" := Str(message)]))
  }

  /** `error.message || "An unknown server error occurred."`. */
  function ServerMessage(message: Option<string>): (m: string)
    ensures |m| > 0
    ensures m == UnknownErrorMessage || Some(m) == message
  {
    if message.Some? && message.value != "" then message.value else UnknownErrorMessage
  }

  /** `String(v)`, as `${v}` prints a JSON value. */
  function Show(j: Json, numberText: real -> string): string
    decreases j, 1
  {
    match j
    case Null => "null"
    case Bool(b) => if b then "true" else "false"
    case Num(n) => numberText(n)
    case Str(s) => s
    case Arr(items) => JoinItems(j, items, numberText)
    case Obj(_) => "[object Object]"
  }

  /** `items.join(",")` of the elements of array `j` (null elements print as nothing). */
  function JoinItems(j: Json, items: seq<Json>, numberText: real -> string): string
    requires forall x :: x in items ==> x < j
    decreases j, 0, |items|
  {
    if items == [] then ""
    else
      assert items[0] in items;
      var first := if items[0] == Null then "" else Show(items[0], numberText);
      if |items| == 1 then first
      else
        assert forall x :: x in items[1..] ==> x in items;
        first + "," + JoinItems(j, items[1..], numberText)
  }

  /** `${v}` of a property that may be missing (undefined). */
  function Interpolate(v: Option<Json>, numberText: real -> string): string
  {
    if v.None? then "undefined" else Show(v.value, numberText)
  }

  /** Truthiness of a property: missing, null, false, 0 and "" are falsy. */
  predicate Truthy(v: Option<Json>)
  {
    match v
    case None => false
    case Some(Null) => false
    case Some(Bool(b)) => b
    case Some(Num(n)) => n != 0.0
    case Some(Str(s)) => s != ""
    case Some(_) => true
  }

  /** The user part of the request text. */
  function UserPromptText(prompt: string, description: string): string
  {
    "User Prompt: \"" + prompt + "\".\n\nTask: " + description
  }

  /** `DESIGN_TYPES.find(d => d.id === designTypeId)`: only a string can equal an id. */
  function CatalogEntry(designTypeId: Option<Json>): Option<Catalog.DesignType>
  {
    if designTypeId.Some? && designTypeId.value.Str? then Catalog.Find(designTypeId.value.s) else None
  }

  /** The request body as the handler destructures it: a value other than null, or the thrown message. */
  function ReadBody(event: Event, s: Services): Result<Json, string>
  {
    match s.parseJson(event.body)
    case Err(m) => Err(m)
    case Ok(v) => if v == Null then Err(s.nullBodyMessage) else Ok(v)
  }

  /** The `generateContent` request for a catalog entry, the `prompt` property and the `image` property. */
  function TextRequest(entry: Catalog.DesignType, prompt: Option<Json>, image: Option<Json>, numberText: real -> string)
    : ContentRequest
  {
    var text := UserPromptText(Interpolate(prompt, numberText), entry.description);
    var contents :=
      if Truthy(image) then Parts([TextPart(text), InlineData(Get(image.value, "mimeType"), Get(image.value, "b64"))])
      else TextContents(text);
    ContentRequest(TextModel, contents, JsonMimeType, entry.id)
  }

  /** The script of outcomes the retry wrapper sees for the text request. */
  function TextScript(backend: TextBackend, request: ContentRequest): nat -> Attempt<TextAnswer>
  {
    (n: nat) => backend(request, n)
  }

  /** `response.text?.trim()`, with undefined as the empty string (both are falsy). */
  function AnswerText(answer: TextAnswer): string
  {
    if answer.text.Some? then Trim(answer.text.value) else ""
  }

  /** How the handler ends: an error response, or the parsed design handed to the resolution. */
  datatype Verdict = Reject(status: nat, message: string) | Proceed(data: Json, designTypeId: string)

  /** The verdict together with the number of calls the text model received. */
  datatype Decision = Decision(verdict: Verdict, textCalls: nat)

  /** The verdict once the retried text request has ended. */
  function AnswerVerdict(outcome: Outcome<TextAnswer>, parseJson: string -> Result<Json, string>, designTypeId: string)
    : Verdict
  {
    match outcome
    case Thrown(e) => Reject(500, ServerMessage(e.message))
    case Returned(answer) =>
      var jsonText := AnswerText(answer);
      if jsonText == "" then Reject(500, EmptyAnswerMessage)
      else match parseJson(jsonText)
        case Err(_) => Reject(500, MalformedAnswerMessage)
        case Ok(data) => Proceed(data, designTypeId)
  }

  /** The request of a POST whose body reads and whose design type is in the catalog. */
  function RequestOf(body: Json, entry: Catalog.DesignType, s: Services): ContentRequest
  {
    TextRequest(entry, Get(body, "prompt"), Get(body, "image"), s.numberText)
  }

  /** The retried text request: `retryRequest` with its defaults of three attempts and a 1000 ms base delay. */
  function TextRun(backend: TextBackend, request: ContentRequest): Run<TextAnswer>
  {
    RetrySpec(TextScript(backend, request), TextAttempts, TextDelay)
  }

  /** The text call for a request of a catalog entry, and the checks on its answer. */
  function Ask(request: ContentRequest, designTypeId: string, s: Services): Decision
  {
    var run := TextRun(s.textBackend, request);
    Decision(AnswerVerdict(run.outcome, s.parseJson, designTypeId), run.calls)
  }

  /** The design-type lookup on a body that reads, then the text call. */
  function Route(body: Json, s: Services): Decision
  {
    var designTypeId := Get(body, "designTypeId");
    match CatalogEntry(designTypeId)
    case None => Decision(Reject(400, InvalidTypePrefix + Interpolate(designTypeId, s.numberText)), 0)
    case Some(entry) => Ask(RequestOf(body, entry, s), entry.id, s)
  }

  /** What the handler decides for an event, before the image prompts are resolved. */
  function Decide(event: Event, s: Services): Decision
  {
    if event.httpMethod != "POST" then Decision(Reject(405, MethodNotAllowedMessage), 0)
    else match ReadBody(event, s)
      case Err(m) => Decision(Reject(500, ServerMessage(Some(m))), 0)
      case Ok(body) => Route(body, s)
  }

  /** `handler(event)`: the straight-line sequence of checks, the text call and the resolution. */
  method Handle(event: Event, s: Services) returns (response: Response, textCalls: nat)
    ensures var d := Decide(event, s);
      && textCalls == d.textCalls
      && (d.verdict.Reject? ==> response == Failure(d.verdict.status, d.verdict.message))
      && (d.verdict.Proceed? ==>
            && response.statusCode == 200 && response.headers == JsonHeaders
            && PromptResolution.IsResolution(
                 d.verdict.data, response.body, d.verdict.designTypeId, PromptResolution.ResolverOf(s.imageBackend)))
  {
    textCalls := 0;
    if event.httpMethod != "POST" {
      response := Failure(405, MethodNotAllowedMessage);
      return;
    }
    var body := ReadBody(event, s);
    if body.Err? {
      response := Failure(500, ServerMessage(Some(body.error)));
      return;
    }
    var designTypeId := Get(body.value, "designTypeId");
    var designType := CatalogEntry(designTypeId);
    if designType.None? {
      response := Failure(400, InvalidTypePrefix + Interpolate(designTypeId, s.numberText));
      return;
    }
    var request := RequestOf(body.value, designType.value, s);
    var outcome, calls, delays := RetryRequest(TextScript(s.textBackend, request), TextAttempts, TextDelay);
    textCalls := calls;
    if outcome.Thrown? {
      response := Failure(500, ServerMessage(outcome.error.message));
      return;
    }
    var jsonText := AnswerText(outcome.value);
    if jsonText == "" {
      response := Failure(500, EmptyAnswerMessage);
      return;
    }
    var generatedData := s.parseJson(jsonText);
    if generatedData.Err? {
      response := Failure(500, MalformedAnswerMessage);
      return;
    }
    var finalData := PromptResolution.ProcessImagePrompts(generatedData.value, designType.value.id, s.imageBackend);
    response := Response(200, JsonHeaders, finalData);
  }

  /** A POST whose body reads (and is not null) and names a catalog design type: the text model is asked. */
  ghost predicate Accepted(event: Event, s: Services)
  {
    && event.httpMethod == "POST"
    && ReadBody(event, s).Ok?
    && CatalogEntry(Get(ReadBody(event, s).value, "designTypeId")).Some?
  }

  /** The catalog lookup succeeds exactly for a string that is a catalog id, and returns that entry. */
  lemma CatalogEntryKnown(designTypeId: Option<Json>)
    ensures CatalogEntry(designTypeId).Some? <==>
              designTypeId.Some? && designTypeId.value.Str? && designTypeId.value.s in Catalog.KnownIds()
    ensures CatalogEntry(designTypeId).Some? ==>
              && CatalogEntry(designTypeId).value in Catalog.DesignTypes
              && designTypeId == Some(Str(CatalogEntry(designTypeId).value.id))
  {
    if designTypeId.Some? && designTypeId.value.Str? {
      Catalog.FindKnown(designTypeId.value.s);
    }
  }

  /** Any method but POST is answered 405 without a call to the text model. */
  lemma OnlyPostIsServed(event: Event, s: Services)
    requires event.httpMethod != "POST"
    ensures Decide(event, s) == Decision(Reject(405, MethodNotAllowedMessage), 0)
  {
  }

  /** The text call is made one to three times and ends in a 500 with a message, or in the parsed design. */
  lemma AskShape(request: ContentRequest, designTypeId: string, s: Services)
    ensures var d := Ask(request, designTypeId, s);
      && 1 <= d.textCalls <= 3
      && (d.verdict.Reject? ==> d.verdict.status == 500 && |d.verdict.message| > 0)
      && (d.verdict.Proceed? ==> d.verdict.designTypeId == designTypeId)
  {
    RetryShape(TextScript(s.textBackend, request), TextAttempts, TextDelay);
  }

  /**
   * The overall shape of a decision: the text model is called (one to three times) exactly for an
   * accepted request; every rejection is a 400, 405 or 500 with a non-empty message; a design is
   * only passed on for an accepted request, under a catalog id.
   */
  lemma DecisionShape(event: Event, s: Services)
    ensures var d := Decide(event, s);
      && d.textCalls <= 3
      && (d.textCalls > 0 <==> Accepted(event, s))
      && (d.verdict.Reject? ==> d.verdict.status in {400, 405, 500} && |d.verdict.message| > 0)
      && (d.verdict.Proceed? ==> Accepted(event, s) && d.verdict.designTypeId in Catalog.KnownIds())
  {
    if event.httpMethod == "POST" && ReadBody(event, s).Ok? {
      var body := ReadBody(event, s).value;
      var designTypeId := Get(body, "designTypeId");
      assert Decide(event, s) == Route(body, s);
      CatalogEntryKnown(designTypeId);
      if CatalogEntry(designTypeId).Some? {
        var entry := CatalogEntry(designTypeId).value;
        AskShape(RequestOf(body, entry, s), entry.id, s);
      }
    }
  }

  /**
   * The 400 answer is given exactly when a POST body reads but its `designTypeId` is no catalog
   * id; its message names the value, and the text model is not called.
   */
  lemma InvalidDesignType(event: Event, s: Services)
    ensures var d := Decide(event, s);
      (d.verdict.Reject? && d.verdict.status == 400) <==>
        (event.httpMethod == "POST" && ReadBody(event, s).Ok?
         && CatalogEntry(Get(ReadBody(event, s).value, "designTypeId")).None?)
    ensures var d := Decide(event, s);
      d.verdict.Reject? && d.verdict.status == 400 ==>
        var designTypeId := Get(ReadBody(event, s).value, "designTypeId");
        && d == Decision(Reject(400, InvalidTypePrefix + Interpolate(designTypeId, s.numberText)), 0)
        && !(designTypeId.Some? && designTypeId.value.Str? && designTypeId.value.s in Catalog.KnownIds())
  {
    DecisionShape(event, s);
    if event.httpMethod == "POST" && ReadBody(event, s).Ok? {
      var designTypeId := Get(ReadBody(event, s).value, "designTypeId");
      assert Decide(event, s) == Route(ReadBody(event, s).value, s);
      CatalogEntryKnown(designTypeId);
    }
  }

  /** A string design type prints as itself in the 400 message. */
  lemma InvalidStringType(event: Event, s: Services, id: string)
    requires event.httpMethod == "POST" && ReadBody(event, s).Ok?
    requires Get(ReadBody(event, s).value, "designTypeId") == Some(Str(id)) && id !in Catalog.KnownIds()
    ensures Decide(event, s) == Decision(Reject(400, InvalidTypePrefix + id), 0)
  {
    CatalogEntryKnown(Some(Str(id)));
    assert CatalogEntry(Some(Str(id))).None?;
    assert Decide(event, s) == Route(ReadBody(event, s).value, s);
  }

  /**
   * The two checks on the model's answer: a missing or all-whitespace text gives the "empty answer"
   * message, a text that does not parse the "malformed answer" message (a different one), and
   * otherwise the parsed trimmed text is the design.
   */
  lemma AnswerChecks(answer: TextAnswer, parseJson: string -> Result<Json, string>, designTypeId: string)
    ensures var v := AnswerVerdict(Returned(answer), parseJson, designTypeId);
      && (v == Reject(500, EmptyAnswerMessage) <==> answer.text.None? || AllWhitespace(answer.text.value))
      && (v == Reject(500, MalformedAnswerMessage) <==>
            answer.text.Some? && !AllWhitespace(answer.text.value) && parseJson(Trim(answer.text.value)).Err?)
      && (v.Proceed? ==> v == Proceed(parseJson(Trim(answer.text.value)).value, designTypeId))
  {
    if answer.text.Some? {
      TrimEmptyIff(answer.text.value);
    }
    assert EmptyAnswerMessage != MalformedAnswerMessage by {
      assert |EmptyAnswerMessage| != |MalformedAnswerMessage|;
    }
  }

  /** A text model that is unavailable on every call: three calls, then the "overloaded" 500. */
  lemma OverloadedTextModel(event: Event, s: Services)
    requires Accepted(event, s)
    requires forall q, n :: s.textBackend(q, n) == Rejected(Error(Some("UNAVAILABLE"), None))
    ensures Decide(event, s) == Decision(Reject(500, OverloadedMessage), 3)
  {
    var body := ReadBody(event, s).value;
    var entry := CatalogEntry(Get(body, "designTypeId")).value;
    var script := TextScript(s.textBackend, RequestOf(body, entry, s));
    AlwaysUnavailable(script, TextAttempts, TextDelay);
  }

  /** Any other failure of the first text call is rethrown at once: one call, its message in a 500. */
  lemma FatalTextError(event: Event, s: Services, e: Error)
    requires Accepted(event, s) && !IsRetryable(e)
    requires forall q :: s.textBackend(q, 0) == Rejected(e)
    ensures Decide(event, s) == Decision(Reject(500, ServerMessage(e.message)), 1)
  {
    var body := ReadBody(event, s).value;
    var entry := CatalogEntry(Get(body, "designTypeId")).value;
    var script := TextScript(s.textBackend, RequestOf(body, entry, s));
    assert script(0) == Rejected(e);
    assert RetrySpec(script, TextAttempts, TextDelay) == Run(Thrown(e), 1, []);
  }

  /**
   * The request: the configured model and response type, the catalog entry's schema, and the user
   * text alone or followed by the inline image exactly when an `image` property is truthy.
   */
  lemma RequestContents(entry: Catalog.DesignType, prompt: Option<Json>, image: Option<Json>, numberText: real -> string)
    ensures var q := TextRequest(entry, prompt, image, numberText);
      var text := UserPromptText(Interpolate(prompt, numberText), entry.description);
      && q.model == TextModel && q.responseMimeType == JsonMimeType && q.designTypeId == entry.id
      && (q.contents.TextContents? <==> !Truthy(image))
      && (q.contents.TextContents? ==> q.contents.text == text)
      && (q.contents.Parts? ==>
            q.contents.parts == [TextPart(text), InlineData(Get(image.value, "mimeType"), Get(image.value, "b64"))])
  {
  }

  /** The user text quotes the prompt and ends with the task description. */
  lemma UserPromptFrame(prompt: string, description: string)
    ensures StartsWith(UserPromptText(prompt, description), "User Prompt: \"" + prompt + "\"")
    ensures EndsWith(UserPromptText(prompt, description), description)
  {
    var t := UserPromptText(prompt, description);
    assert t == ("User Prompt: \"" + prompt + "\"") + (".\n\nTask: " + description);
    assert t == ("User Prompt: \"" + prompt + "\".\n\nTask: ") + description;
  }

  /** For one design type, different prompts give different request texts. */
  lemma {:induction false} PromptRecoverable(p1: string, p2: string, description: string)
    requires UserPromptText(p1, description) == UserPromptText(p2, description)
    ensures p1 == p2
  {
    var t := UserPromptText(p1, description);
    assert |p1| == |p2|;
    assert t[14..14 + |p1|] == p1 by {
      assert t == "User Prompt: \"" + p1 + ("\".\n\nTask: " + description);
    }
    assert t[14..14 + |p2|] == p2 by {
      assert t == "User Prompt: \"" + p2 + ("\".\n\nTask: " + description);
    }
  }

  /** A present `prompt` string is quoted verbatim; a missing one prints as "undefined". */
  lemma PromptInterpolation(p: string, numberText: real -> string)
    ensures Interpolate(Some(Str(p)), numberText) == p
    ensures Interpolate(None, numberText) == "undefined"
  {
  }

  /** `error.message || default`: a non-empty message is kept, a missing or empty one is replaced. */
  lemma ServerMessageChoice(message: Option<string>)
    ensures message.Some? && message.value != "" ==> ServerMessage(message) == message.value
    ensures message.None? || message.value == "" ==> ServerMessage(message) == UnknownErrorMessage
  {
  }
}
