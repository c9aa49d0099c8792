/**
 * Completion post-processing (`call_openrouter_api`): choosing the model,
 * the request sent, and turning the reply text into either the generated
 * subject and content or a failure message. The HTTP call and `json.loads`
 * are inputs; the function is total, so the step never raises.
 */
module Completion {
  import opened Outcomes
  import opened Strings

  const DefaultModel: string := "openai/gpt-4o"

  /** `model_identifier if model_identifier and model_identifier.strip() else "openai/gpt-4o"`. */
  function ModelToUse(id: Option<string>): (m: string)
    ensures id.None? || IsBlank(id.value) ==> m == DefaultModel
    ensures id.Some? && !IsBlank(id.value) ==> m == id.value
    ensures !IsBlank(m)
  {
    assert !IsSpace(DefaultModel[0]);
    if id.None? then DefaultModel
    else
      StripEnds(id.value);
      if id.value != "" && Strip(id.value) != "" then id.value else DefaultModel
  }

  /** The chat-completion request the client sends. */
  datatype CompletionRequest = CompletionRequest(
    model: string,
    systemMessage: string,
    userMessage: string,
    temperature: real,
    maxTokens: nat,
    responseFormat: string)

  const SystemMessage: string :=
    "You are an AI assistant. Follow the user's instructions carefully and precisely, especially regarding output format."

  function RequestFor(prompt: string, modelId: Option<string>): CompletionRequest
  {
    CompletionRequest(ModelToUse(modelId), SystemMessage, prompt, 0.7, 2048, "json_object")
  }

  /** A JSON value as far as the client looks at it; `JOther` carries the Python type name. */
  datatype JValue = JNull | JString(s: string) | JOther(typeName: string)

  /** What `json.loads` makes of the reply text. */
  datatype Parsed = DecodeError(error: string) | NotAnObject(typeName: string) | Object(members: map<string, JValue>)

  type Parser = string -> Parsed

  /** The reply text, or the message of the exception the client raised. */
  datatype ApiReply = ApiRaised(error: string) | ApiText(text: string)

  datatype Completion = Completed(subject: JValue, content: JValue) | Failed(message: string)

  /** `content_json.get(k)`: a missing key and a JSON null both read as None. */
  function Member(m: map<string, JValue>, k: string): JValue
  {
    if k in m then m[k] else JNull
  }

  /** The names of the missing required fields, in the order subject, content. */
  function MissingFields(m: map<string, JValue>): (missing: seq<string>)
    ensures "subject" in missing <==> Member(m, "subject") == JNull
    ensures "content" in missing <==> Member(m, "content") == JNull
    ensures forall i :: 0 <= i < |missing| ==> missing[i] in ["subject", "content"]
    ensures |missing| == 2 ==> missing == ["subject", "content"]
  {
    (if Member(m, "subject") == JNull then ["subject"] else [])
    + (if Member(m, "content") == JNull then ["content"] else [])
  }

  /**
   * The exception `subject[:50]` raises in the success log line, if any. The
   * text for a dict depends on the interpreter (a `TypeError` about an
   * unhashable slice up to Python 3.11, a `KeyError` naming the slice from
   * 3.12), so it is an input.
   */
  function SliceError(v: JValue, dictSliceError: string): Option<string>
  {
    match v
    case JNull => Some("'NoneType' object is not subscriptable")
    case JString(_) => None
    case JOther(t) =>
      if t == "list" then None
      else if t == "dict" then Some(dictSliceError)
      else Some("'" + t + "' object is not subscriptable")
  }

  function ApiErrorMessage(model: string, error: string): string
  {
    "Error during OpenRouter API call (" + model + "): " + error
  }

  function MalformedMessage(text: string, error: string): string
  {
    "AI returned malformed JSON. Response from AI was: '" + text[..if |text| < 200 then |text| else 200]
    + "...'. Error: " + error
  }

  function MissingMessage(missing: seq<string>): string
  {
    "AI response was valid JSON but missing required fields: " + Join(missing, ", ")
    + ". Check AI's adherence to output format instructions."
  }

  /**
   * What the client returns for a reply. A reply that is JSON but not an
   * object fails on `content_json.keys()` in the log line, and a subject that
   * cannot be sliced fails on `subject[:50]`; both land in the outer handler.
   */
  function ValidateCompletion(reply: ApiReply, parse: Parser, model: string, dictSliceError: string): (c: Completion)
    ensures c.Completed? <==>
              && reply.ApiText?
              && parse(reply.text).Object?
              && Member(parse(reply.text).members, "subject") != JNull
              && Member(parse(reply.text).members, "content") != JNull
              && SliceError(Member(parse(reply.text).members, "subject"), dictSliceError).None?
    ensures c.Completed? ==>
              c.subject == Member(parse(reply.text).members, "subject") && c.content == Member(parse(reply.text).members, "content")
    ensures reply.ApiText? && parse(reply.text).DecodeError? ==>
              c.Failed? && StartsWith(c.message, "AI returned malformed JSON.")
    ensures reply.ApiText? && parse(reply.text).Object? && MissingFields(parse(reply.text).members) != [] ==>
              c.Failed? && Contains(c.message, Join(MissingFields(parse(reply.text).members), ", "))
    ensures reply.ApiText? && parse(reply.text).Object? && MissingFields(parse(reply.text).members) == []
            && Member(parse(reply.text).members, "subject") == JOther("dict") ==>
              c == Failed(ApiErrorMessage(model, dictSliceError))
  {
    match reply
    case ApiRaised(e) => Failed(ApiErrorMessage(model, e))
    case ApiText(text) =>
      match parse(text)
      case DecodeError(e) =>
        assert MalformedMessage(text, e)[..|"AI returned malformed JSON."|] == "AI returned malformed JSON.";
        Failed(MalformedMessage(text, e))
      case NotAnObject(t) => Failed(ApiErrorMessage(model, "'" + t + "' object has no attribute 'keys'"))
      case Object(m) =>
        var missing := MissingFields(m);
        if missing != [] then
          var prefix := "AI response was valid JSON but missing required fields: ";
          var suffix := ". Check AI's adherence to output format instructions.";
          assert MissingMessage(missing) == prefix + Join(missing, ", ") + suffix;
          ContainsSuffix(prefix, Join(missing, ", "));
          ContainsPrefix(prefix + Join(missing, ", "), suffix, Join(missing, ", "));
          Failed(MissingMessage(missing))
        else
          match SliceError(Member(m, "subject"), dictSliceError)
          case Some(e) => Failed(ApiErrorMessage(model, e))
          case None => Completed(Member(m, "subject"), Member(m, "content"))
  }

  /** `call_openrouter_api`: the request goes to `complete` and its reply is validated. */
  function CallOpenRouter(prompt: string, modelId: Option<string>,
                          complete: CompletionRequest -> ApiReply, parse: Parser, dictSliceError: string): (c: Completion)
    ensures complete(RequestFor(prompt, modelId)).ApiRaised? ==>
              c == Failed(ApiErrorMessage(ModelToUse(modelId), complete(RequestFor(prompt, modelId)).error))
  {
    ValidateCompletion(complete(RequestFor(prompt, modelId)), parse, ModelToUse(modelId), dictSliceError)
  }

  /** Only `subject` missing, only `content` missing, or both: each failure names exactly those fields. */
  lemma MissingFieldsNamed(m: map<string, JValue>)
    ensures Member(m, "subject") == JNull && Member(m, "content") != JNull ==> MissingFields(m) == ["subject"]
    ensures Member(m, "subject") != JNull && Member(m, "content") == JNull ==> MissingFields(m) == ["content"]
    ensures Member(m, "subject") == JNull && Member(m, "content") == JNull ==> Join(MissingFields(m), ", ") == "subject, content"
  {
  }
}
