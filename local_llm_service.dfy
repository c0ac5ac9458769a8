/**
 * The client for an OpenAI-compatible chat endpoint
 * (services/localLlmService.ts). The HTTP exchange and `JSON.parse` are
 * oracles: the model is handed what the server and the parser produced.
 */
module LocalLlmService {
  import opened JsValues
  import opened JsStrings
  import opened Types
  import opened Template
  import opened Payload

  const CONFIG_REQUIRED: string := "Konfiguracja lokalnego LLM (URL i nazwa modelu) jest wymagana."
  const SYSTEM_PROMPT: string := "You are a helpful assistant."
  const NO_CONTENT: string := "Odpowiedź z lokalnego LLM nie zawierała oczekiwanej treści."
  const UNKNOWN_LOCAL_ERROR: string := "Wystąpił nieznany błąd podczas komunikacji z lokalnym LLM."
  const NOT_AN_ARRAY: string := "Odpowiedź AI (po parsowaniu) nie jest prawidłową tablicą JSON."
  const PARSE_FAILED: string := "Nie udało się sparsować odpowiedzi JSON z lokalnego LLM."

  /** The TypeError a property read on `null` raises, as V8 words it. */
  const NULL_CHOICES_READ: string := "Cannot read properties of null (reading 'choices')"

  function StatusError(status: nat, errorText: string): string {
    "Lokalne API LLM zwróciło błąd (" + NatToString(status) + "): " + errorText
  }

  function NetworkError(url: string): string {
    "Błąd sieciowy podczas łączenia z lokalnym LLM. Upewnij się, że adres URL ("
      + url + ") jest poprawny, serwer działa i nie ma problemów z CORS."
  }

  datatype Role = System | User
  datatype Message = Message(role: Role, content: string)
  datatype ResponseFormat = JsonObject

  /** The JSON body posted to the server (`temperature` left out). */
  datatype RequestBody = RequestBody(model: string, messages: seq<Message>, responseFormat: Option<ResponseFormat>)

  /**
   * What `response.json()` yields, as far as the client reads it: `null`,
   * or a value whose `choices`, when it is an array, holds for each
   * choice the string at `message.content`, if there is one.
   */
  datatype ReplyJson = NullJson | ReplyObject(choices: Option<seq<Option<string>>>)

  /**
   * How the request ends: `fetch` rejects (a network failure rejects with
   * a TypeError), or a response arrives with its status and what reading
   * its body as text or as JSON would give.
   */
  datatype HttpOutcome =
    | FetchRejected(reason: Thrown)
    | Responded(ok: bool, status: nat, text: Completion<string>, json: Completion<ReplyJson>)

  /** `!config || !config.url || !config.model`. */
  predicate ConfigMissing(config: Option<LocalLlmConfig>) {
    config.None? || config.value.url == "" || config.value.model == ""
  }

  /** `data.choices?.[0]?.message?.content`, or a TypeError when `data` is `null`. */
  function ContentOf(data: ReplyJson): Completion<Option<string>> {
    match data
    case NullJson => Throw(ErrorObject(true, NULL_CHOICES_READ))
    case ReplyObject(choices) =>
      if choices.Some? && |choices.value| > 0 then Normal(choices.value[0]) else Normal(None)
  }

  /** What the `try` block completes with. */
  function Exchange(http: HttpOutcome): Completion<string> {
    match http
    case FetchRejected(reason) => Throw(reason)
    case Responded(ok, status, text, json) =>
      if !ok then
        (match text
         case Throw(e) => Throw(e)
         case Normal(t) => Throw(NewError(StatusError(status, t))))
      else
        match json
        case Throw(e) => Throw(e)
        case Normal(data) =>
          match ContentOf(data)
          case Throw(e) => Throw(e)
          case Normal(content) =>
            if content.None? || content.value == "" then Throw(NewError(NO_CONTENT))
            else Normal(content.value)
  }

  /** The `catch` block: what it throws for what it caught. */
  function Classify(caught: Thrown, url: string): Thrown {
    match caught
    case ErrorObject(isTypeError, _) => if isTypeError then NewError(NetworkError(url)) else caught
    case _ => NewError(UNKNOWN_LOCAL_ERROR)
  }

  /** The completion of `callLocalLlm` once a request has been sent. */
  function Reply(url: string, http: HttpOutcome): Completion<string> {
    match Exchange(http)
    case Normal(content) => Normal(content)
    case Throw(e) => Throw(Classify(e, url))
  }

  /**
   * `callLocalLlm`: checks the configuration, builds the body, adds the
   * JSON response format in JSON mode, and posts it. `sent` is the body
   * the server received, if any.
   */
  method CallLocalLlm(prompt: string, config: Option<LocalLlmConfig>, expectJson: bool, http: HttpOutcome)
    returns (sent: Option<RequestBody>, result: Completion<string>)
    ensures ConfigMissing(config) ==> sent == None && result == Throw(NewError(CONFIG_REQUIRED))
    ensures !ConfigMissing(config) ==> sent.Some? && result == Reply(config.value.url, http)
    ensures sent.Some? ==>
      && sent.value.model == config.value.model
      && sent.value.messages == [Message(System, SYSTEM_PROMPT), Message(User, prompt)]
      && (sent.value.responseFormat == Some(JsonObject) <==> expectJson)
      && (expectJson || sent.value.responseFormat == None)
  {
    if ConfigMissing(config) {
      return None, Throw(NewError(CONFIG_REQUIRED));
    }
    var body := RequestBody(config.value.model, [Message(System, SYSTEM_PROMPT), Message(User, prompt)], None);
    if expectJson {
      body := body.(responseFormat := Some(JsonObject));
    }
    sent := Some(body);
    var attempt := Attempt(http);
    if attempt.Throw? {
      var rethrown := Catch(attempt.thrown, config.value.url);
      return sent, Throw(rethrown);
    }
    result := attempt;
  }

  /**
   * The `catch` block of `callLocalLlm`. Its reference definition is
   * `Classify`, which `ReplyErrors` and `BodyReadFailuresPassThrough`
   * characterise through `Reply`.
   */
  method Catch(caught: Thrown, url: string) returns (rethrown: Thrown)
    ensures rethrown == Classify(caught, url)
  {
    if caught.ErrorObject? && caught.isTypeError {
      rethrown := NewError(NetworkError(url));
    } else if caught.ErrorObject? {
      rethrown := caught;
    } else {
      rethrown := NewError(UNKNOWN_LOCAL_ERROR);
    }
  }

  /**
   * The `try` block of `callLocalLlm`, from the `fetch` to the `return`.
   * Its reference definition is `Exchange`, which
   * `ReplySucceedsOnlyWithContent` and `ReplyErrors` characterise through
   * `Reply`.
   */
  method Attempt(http: HttpOutcome) returns (outcome: Completion<string>)
    ensures outcome == Exchange(http)
  {
    match http {
      case FetchRejected(reason) =>
        return Throw(reason);
      case Responded(ok, status, text, json) =>
        if !ok {
          match text {
            case Throw(e) => return Throw(e);
            case Normal(t) => return Throw(NewError(StatusError(status, t)));
          }
        }
        match json {
          case Throw(e) => return Throw(e);
          case Normal(data) =>
            var content := ContentOf(data);
            if content.Throw? {
              return Throw(content.thrown);
            }
            if content.value.None? || content.value.value == "" {
              return Throw(NewError(NO_CONTENT));
            }
            return Normal(content.value.value);
        }
    }
  }

  /**
   * A call succeeds exactly when the server answers ok with a non-empty
   * string at `choices[0].message.content`, and it returns that string.
   */
  lemma ReplySucceedsOnlyWithContent(url: string, http: HttpOutcome)
    ensures Reply(url, http).Normal? <==>
      && http.Responded? && http.ok && http.json.Normal? && http.json.value.ReplyObject?
      && http.json.value.choices.Some? && |http.json.value.choices.value| > 0
      && http.json.value.choices.value[0].Some? && http.json.value.choices.value[0].value != ""
    ensures Reply(url, http).Normal? ==> Reply(url, http).value == http.json.value.choices.value[0].value
  {
  }

  /**
   * The error cases: a status error quotes the status and the body text;
   * a reply object without a non-empty first content (no `choices`, an
   * empty array, a first choice without content, or empty content) gives
   * the "no expected content" error; a TypeError (a network failure, or a
   * `null` body) becomes the network error naming the URL; any other Error
   * from `fetch` passes unchanged; anything else thrown becomes the
   * unknown-error message.
   */
  lemma ReplyErrors(url: string, http: HttpOutcome)
    ensures http.Responded? && !http.ok && http.text.Normal? ==>
      Reply(url, http) == Throw(NewError(StatusError(http.status, http.text.value)))
    ensures http.Responded? && http.ok && http.json.Normal? && http.json.value.ReplyObject? &&
            !(var choices := http.json.value.choices;
              choices.Some? && |choices.value| > 0 && choices.value[0].Some? && choices.value[0].value != "") ==>
      Reply(url, http) == Throw(NewError(NO_CONTENT))
    ensures http.Responded? && http.ok && http.json == Normal(NullJson) ==>
      Reply(url, http) == Throw(NewError(NetworkError(url)))
    ensures http.FetchRejected? && http.reason.ErrorObject? ==>
      Reply(url, http) == Throw(if http.reason.isTypeError then NewError(NetworkError(url)) else http.reason)
    ensures http.FetchRejected? && !http.reason.ErrorObject? ==>
      Reply(url, http) == Throw(NewError(UNKNOWN_LOCAL_ERROR))
  {
  }

  /**
   * A failure to read the body, as text after an error status or as JSON
   * after an ok one, reaches the caller as a failure of `fetch` would: a
   * TypeError as the network error, another Error (such as the SyntaxError
   * of a body that is not JSON) unchanged, anything else as the
   * unknown-error message.
   */
  lemma BodyReadFailuresPassThrough(url: string, http: HttpOutcome)
    requires http.Responded?
    ensures !http.ok && http.text.Throw? ==>
      Reply(url, http) == Throw(
        if !http.text.thrown.ErrorObject? then NewError(UNKNOWN_LOCAL_ERROR)
        else if http.text.thrown.isTypeError then NewError(NetworkError(url))
        else http.text.thrown)
    ensures http.ok && http.json.Throw? ==>
      Reply(url, http) == Throw(
        if !http.json.thrown.ErrorObject? then NewError(UNKNOWN_LOCAL_ERROR)
        else if http.json.thrown.isTypeError then NewError(NetworkError(url))
        else http.json.thrown)
  {
  }

  /**
   * The status error quotes the status in decimal right after the opening
   * parenthesis, and ends with the body text.
   */
  lemma StatusErrorShowsStatus(status: nat, errorText: string)
    ensures var m := StatusError(status, errorText);
      var opening := "Lokalne API LLM zwróciło błąd (";
      && StartsWith(m, opening)
      && StartsWith(m[|opening|..], NatToString(status) + "): ")
      && DigitsValue(NatToString(status)) == status
      && m[|m| - |errorText|..] == errorText
  {
  }

  /**
   * The `try` around parsing: an array is returned; the non-array error
   * it throws itself and the parser's own errors are both caught and
   * replaced by one generic message.
   */
  function ParseAssignments(parsed: JsonParse): Completion<seq<AssignmentResult>> {
    var attempt: Completion<seq<AssignmentResult>> :=
      match parsed
      case ParsedArray(items) => Normal(items)
      case ParsedNonArray => Throw(NewError(NOT_AN_ARRAY))
      case ParseThrew(reason) => Throw(reason);
    if attempt.Normal? then attempt else Throw(NewError(PARSE_FAILED))
  }

  /** Parsing fails with the generic message for every result but an array. */
  lemma ParseFailuresLookAlike(parsed: JsonParse)
    ensures ParseAssignments(parsed).Normal? <==> parsed.ParsedArray?
    ensures parsed.ParsedArray? ==> ParseAssignments(parsed).value == parsed.items
    ensures !parsed.ParsedArray? ==> ParseAssignments(parsed) == Throw(NewError(PARSE_FAILED))
  {
  }

  /**
   * `assignAndSummarizeTasks`: fills the template with the numbered goals
   * and the projected tasks (serialised by `stringify`), asks in JSON
   * mode, and parses the reply. A failed call propagates as it is.
   */
  method AssignAndSummarizeTasks(
    goals: seq<string>, tasks: seq<JiraTask>, promptTemplate: string, config: Option<LocalLlmConfig>,
    http: HttpOutcome, parse: string -> JsonParse, stringify: seq<TaskPayload> -> string)
    returns (sent: Option<RequestBody>, result: Completion<seq<AssignmentResult>>)
    ensures ConfigMissing(config) ==> sent == None && result == Throw(NewError(CONFIG_REQUIRED))
    ensures !ConfigMissing(config) ==>
      && sent.Some? && sent.value.responseFormat == Some(JsonObject)
      && sent.value.messages
         == [Message(System, SYSTEM_PROMPT), Message(User, Fill(promptTemplate, AssignmentData(goals, tasks, stringify)))]
      && result == (match Reply(config.value.url, http)
                    case Throw(e) => Throw(e)
                    case Normal(content) => ParseAssignments(parse(content)))
  {
    AssignmentDataIsRecord(goals, tasks, stringify);
    var prompt := FillPromptTemplate(promptTemplate, AssignmentData(goals, tasks, stringify));
    var reply;
    sent, reply := CallLocalLlm(prompt, config, true, http);
    if reply.Throw? {
      return sent, Throw(reply.thrown);
    }
    result := ParseAssignments(parse(reply.value));
  }

  /**
   * `generateAnnualSummary`: fills the template with the goal and the
   * bullet list, asks in text mode, and returns the reply trimmed.
   */
  method GenerateAnnualSummary(
    goal: string, taskSummaries: seq<string>, promptTemplate: string, config: Option<LocalLlmConfig>, http: HttpOutcome)
    returns (sent: Option<RequestBody>, result: Completion<string>)
    ensures ConfigMissing(config) ==> sent == None && result == Throw(NewError(CONFIG_REQUIRED))
    ensures !ConfigMissing(config) ==>
      && sent.Some? && sent.value.responseFormat == None
      && sent.value.messages == [Message(System, SYSTEM_PROMPT), Message(User, Fill(promptTemplate, SummaryData(goal, taskSummaries)))]
      && result == (match Reply(config.value.url, http)
                    case Throw(e) => Throw(e)
                    case Normal(content) => Normal(Trim(content)))
  {
    SummaryDataIsRecord(goal, taskSummaries);
    var prompt := FillPromptTemplate(promptTemplate, SummaryData(goal, taskSummaries));
    var reply;
    sent, reply := CallLocalLlm(prompt, config, false, http);
    if reply.Throw? {
      return sent, Throw(reply.thrown);
    }
    result := Normal(Trim(reply.value));
  }
}
