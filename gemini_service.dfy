/**
 * The Gemini client (services/geminiService.ts): the same two prompts as
 * the local client, sent through the Google GenAI SDK. The SDK is an
 * oracle: `gemini` is what the service answers to a request, and `parse`
 * what `JSON.parse` makes of a text.
 */
module GeminiService {
  import opened JsValues
  import opened JsStrings
  import opened Types
  import opened Template
  import opened Payload

  const MODEL: string := "gemini-2.5-flash"
  const UNKNOWN_ERROR: string := "An unknown error occurred."
  const ASSIGN_FAILED: string := "Failed to assign tasks using AI: "
  const SUMMARY_FAILED: string := "Failed to generate annual summary using AI: "
  const NOT_A_JSON_ARRAY: string := "AI response is not a valid JSON array."

  /** The TypeError `.trim()` on an undefined `response.text` raises, as V8 words it. */
  const UNDEFINED_TEXT_READ: string := "Cannot read properties of undefined (reading 'trim')"

  /**
   * A `generateContent` request. `jsonArraySchema` is the JSON response
   * configuration: the MIME type `application/json` and the schema of an
   * array of objects with a string `taskId`, a number `assignedGoalId` and
   * a string `contextualSummary`, all three required.
   */
  datatype GenerateRequest = GenerateRequest(model: string, contents: string, jsonArraySchema: bool)

  /** The awaited `generateContent`: a response whose `text` may be undefined, or a rejection. */
  datatype SdkOutcome = SdkResponse(text: Option<string>) | SdkRejected(reason: Thrown)

  function AssignRequest(goals: seq<string>, tasks: seq<JiraTask>, promptTemplate: string, stringify: seq<TaskPayload> -> string): GenerateRequest {
    GenerateRequest(MODEL, Fill(promptTemplate, AssignmentData(goals, tasks, stringify)), true)
  }

  function SummaryRequest(goal: string, taskSummaries: seq<string>, promptTemplate: string): GenerateRequest {
    GenerateRequest(MODEL, Fill(promptTemplate, SummaryData(goal, taskSummaries)), false)
  }

  /** `response.text.trim()`, after the awaited call. */
  function ResponseText(outcome: SdkOutcome): Completion<string> {
    match outcome
    case SdkRejected(reason) => Throw(reason)
    case SdkResponse(text) =>
      if text.None? then Throw(ErrorObject(true, UNDEFINED_TEXT_READ)) else Normal(Trim(text.value))
  }

  /** The message the `catch` blocks extract: an Error's message, a thrown string, or a fallback. */
  function MessageOf(e: Thrown): string {
    match e
    case ErrorObject(_, message) => message
    case ThrownString(text) => text
    case ThrownOther => UNKNOWN_ERROR
  }

  /** The error a `catch` block throws: the message after the operation's prefix. */
  function Rethrow(prefix: string, e: Thrown): Thrown {
    NewError(prefix + MessageOf(e))
  }

  /** What the `try` block of `assignAndSummarizeTasks` completes with. */
  function AssignAttempt(outcome: SdkOutcome, parse: string -> JsonParse): Completion<seq<AssignmentResult>> {
    match ResponseText(outcome)
    case Throw(e) => Throw(e)
    case Normal(jsonText) =>
      match parse(jsonText)
      case ParsedArray(items) => Normal(items)
      case ParsedNonArray => Throw(NewError(NOT_A_JSON_ARRAY))
      case ParseThrew(reason) => Throw(reason)
  }

  /** The completion of `assignAndSummarizeTasks` for the SDK's answer. */
  function AssignReply(outcome: SdkOutcome, parse: string -> JsonParse): Completion<seq<AssignmentResult>> {
    match AssignAttempt(outcome, parse)
    case Normal(items) => Normal(items)
    case Throw(e) => Throw(Rethrow(ASSIGN_FAILED, e))
  }

  /** The completion of `generateAnnualSummary` for the SDK's answer. */
  function SummaryReply(outcome: SdkOutcome): Completion<string> {
    match ResponseText(outcome)
    case Normal(text) => Normal(text)
    case Throw(e) => Throw(Rethrow(SUMMARY_FAILED, e))
  }

  /** `assignAndSummarizeTasks` of the Gemini client. */
  function Assign(
    goals: seq<string>, tasks: seq<JiraTask>, promptTemplate: string,
    gemini: GenerateRequest -> SdkOutcome, parse: string -> JsonParse, stringify: seq<TaskPayload> -> string)
    : Completion<seq<AssignmentResult>>
  {
    AssignReply(gemini(AssignRequest(goals, tasks, promptTemplate, stringify)), parse)
  }

  /** `generateAnnualSummary` of the Gemini client. */
  function Summarize(goal: string, taskSummaries: seq<string>, promptTemplate: string, gemini: GenerateRequest -> SdkOutcome)
    : Completion<string>
  {
    SummaryReply(gemini(SummaryRequest(goal, taskSummaries, promptTemplate)))
  }

  /**
   * A `catch` block: picks the message out of what was caught and throws it
   * after `prefix`. Its reference definition is `Rethrow`, which
   * `FailuresCarryThePrefix`, `AssignFailureMessages` and
   * `SummaryFailureMessages` characterise.
   */
  method CatchAs(prefix: string, error: Thrown) returns (rethrown: Thrown)
    ensures rethrown == Rethrow(prefix, error)
  {
    var message := UNKNOWN_ERROR;
    if error.ErrorObject? {
      message := error.message;
    } else if error.ThrownString? {
      message := error.text;
    }
    rethrown := NewError(prefix + message);
  }

  /**
   * `assignAndSummarizeTasks`: fills the template, asks for a JSON array
   * under the response schema, and parses the trimmed text; every failure
   * is rethrown under the assignment prefix. Its reference definition is
   * `Assign`; `AssignSucceedsOnlyWithArray`, `FailuresCarryThePrefix` and
   * `AssignFailureMessages` characterise the reply.
   */
  method AssignAndSummarizeTasks(
    goals: seq<string>, tasks: seq<JiraTask>, promptTemplate: string,
    gemini: GenerateRequest -> SdkOutcome, parse: string -> JsonParse, stringify: seq<TaskPayload> -> string)
    returns (request: GenerateRequest, result: Completion<seq<AssignmentResult>>)
    ensures request == AssignRequest(goals, tasks, promptTemplate, stringify)
    ensures result == Assign(goals, tasks, promptTemplate, gemini, parse, stringify)
  {
    AssignmentDataIsRecord(goals, tasks, stringify);
    var prompt := FillPromptTemplate(promptTemplate, AssignmentData(goals, tasks, stringify));
    request := GenerateRequest(MODEL, prompt, true);
    var outcome := gemini(request);
    var attempt: Completion<seq<AssignmentResult>>;
    if outcome.SdkRejected? {
      attempt := Throw(outcome.reason);
    } else if outcome.text.None? {
      attempt := Throw(ErrorObject(true, UNDEFINED_TEXT_READ));
    } else {
      var jsonText := Trim(outcome.text.value);
      var parsed := parse(jsonText);
      match parsed {
        case ParsedArray(items) => attempt := Normal(items);
        case ParsedNonArray => attempt := Throw(NewError(NOT_A_JSON_ARRAY));
        case ParseThrew(reason) => attempt := Throw(reason);
      }
    }
    if attempt.Throw? {
      var rethrown := CatchAs(ASSIGN_FAILED, attempt.thrown);
      return request, Throw(rethrown);
    }
    result := attempt;
  }

  /**
   * `generateAnnualSummary`: fills the template, asks in plain text mode,
   * and returns the trimmed text; every failure is rethrown under the
   * summary prefix. Its reference definition is `Summarize`;
   * `SummarySucceedsOnlyWithText`, `FailuresCarryThePrefix` and
   * `SummaryFailureMessages` characterise the reply.
   */
  method GenerateAnnualSummary(goal: string, taskSummaries: seq<string>, promptTemplate: string, gemini: GenerateRequest -> SdkOutcome)
    returns (request: GenerateRequest, result: Completion<string>)
    ensures request == SummaryRequest(goal, taskSummaries, promptTemplate)
    ensures result == Summarize(goal, taskSummaries, promptTemplate, gemini)
  {
    SummaryDataIsRecord(goal, taskSummaries);
    var prompt := FillPromptTemplate(promptTemplate, SummaryData(goal, taskSummaries));
    request := GenerateRequest(MODEL, prompt, false);
    var outcome := gemini(request);
    var caught: Thrown;
    if outcome.SdkRejected? {
      caught := outcome.reason;
    } else if outcome.text.None? {
      caught := ErrorObject(true, UNDEFINED_TEXT_READ);
    } else {
      return request, Normal(Trim(outcome.text.value));
    }
    var rethrown := CatchAs(SUMMARY_FAILED, caught);
    result := Throw(rethrown);
  }

  /**
   * Assignment succeeds exactly when the SDK answers with a text whose
   * trimmed form parses to an array, and it returns that array as it is.
   */
  lemma AssignSucceedsOnlyWithArray(outcome: SdkOutcome, parse: string -> JsonParse)
    ensures AssignReply(outcome, parse).Normal? <==>
      outcome.SdkResponse? && outcome.text.Some? && parse(Trim(outcome.text.value)).ParsedArray?
    ensures AssignReply(outcome, parse).Normal? ==>
      AssignReply(outcome, parse).value == parse(Trim(outcome.text.value)).items
  {
  }

  /**
   * Every failure of either operation is a plain `Error` (never a
   * TypeError) whose message begins with the operation's prefix.
   */
  lemma FailuresCarryThePrefix(outcome: SdkOutcome, parse: string -> JsonParse)
    ensures var r := AssignReply(outcome, parse);
      r.Throw? ==> r.thrown.ErrorObject? && !r.thrown.isTypeError && StartsWith(r.thrown.message, ASSIGN_FAILED)
    ensures var r := SummaryReply(outcome);
      r.Throw? ==> r.thrown.ErrorObject? && !r.thrown.isTypeError && StartsWith(r.thrown.message, SUMMARY_FAILED)
  {
  }

  /**
   * What follows the assignment prefix, case by case: the message of a
   * rejected Error, a rejected string itself, the fallback for anything
   * else rejected, the TypeError of a missing text, the non-array
   * message, and the parser's own error message.
   */
  lemma AssignFailureMessages(outcome: SdkOutcome, parse: string -> JsonParse)
    ensures outcome.SdkRejected? && outcome.reason.ErrorObject? ==>
      AssignReply(outcome, parse) == Throw(NewError(ASSIGN_FAILED + outcome.reason.message))
    ensures outcome.SdkRejected? && outcome.reason.ThrownString? ==>
      AssignReply(outcome, parse) == Throw(NewError(ASSIGN_FAILED + outcome.reason.text))
    ensures outcome == SdkRejected(ThrownOther) ==>
      AssignReply(outcome, parse) == Throw(NewError(ASSIGN_FAILED + UNKNOWN_ERROR))
    ensures outcome == SdkResponse(None) ==>
      AssignReply(outcome, parse) == Throw(NewError(ASSIGN_FAILED + UNDEFINED_TEXT_READ))
    ensures outcome.SdkResponse? && outcome.text.Some? && parse(Trim(outcome.text.value)) == ParsedNonArray ==>
      AssignReply(outcome, parse) == Throw(NewError(ASSIGN_FAILED + NOT_A_JSON_ARRAY))
    ensures outcome.SdkResponse? && outcome.text.Some? && parse(Trim(outcome.text.value)).ParseThrew?
            && parse(Trim(outcome.text.value)).reason.ErrorObject? ==>
      AssignReply(outcome, parse) == Throw(NewError(ASSIGN_FAILED + parse(Trim(outcome.text.value)).reason.message))
  {
  }

  /**
   * What follows the summary prefix, case by case: the message of a
   * rejected Error, a rejected string itself, the fallback for anything
   * else rejected, and the TypeError of a missing text.
   */
  lemma SummaryFailureMessages(outcome: SdkOutcome)
    ensures outcome.SdkRejected? && outcome.reason.ErrorObject? ==>
      SummaryReply(outcome) == Throw(NewError(SUMMARY_FAILED + outcome.reason.message))
    ensures outcome.SdkRejected? && outcome.reason.ThrownString? ==>
      SummaryReply(outcome) == Throw(NewError(SUMMARY_FAILED + outcome.reason.text))
    ensures outcome == SdkRejected(ThrownOther) ==>
      SummaryReply(outcome) == Throw(NewError(SUMMARY_FAILED + UNKNOWN_ERROR))
    ensures outcome == SdkResponse(None) ==>
      SummaryReply(outcome) == Throw(NewError(SUMMARY_FAILED + UNDEFINED_TEXT_READ))
  {
  }

  /**
   * A summary succeeds exactly when the SDK answers with a text; it is
   * that text trimmed, so it neither begins nor ends with whitespace, and
   * it is empty only when the text was all whitespace.
   */
  lemma SummarySucceedsOnlyWithText(outcome: SdkOutcome)
    ensures SummaryReply(outcome).Normal? <==> outcome.SdkResponse? && outcome.text.Some?
    ensures SummaryReply(outcome).Normal? ==>
      var r := SummaryReply(outcome).value;
      && r == Trim(outcome.text.value)
      && (r == [] <==> AllWhitespace(outcome.text.value))
      && (r != [] ==> !IsWhitespace(r[0]) && !IsWhitespace(r[|r| - 1]))
  {
    if outcome.SdkResponse? && outcome.text.Some? {
      TrimDropsOuterWhitespace(outcome.text.value);
    }
  }
}
