# CorporateGoals prompt layer in Dafny

CorporateGoals is a dashboard. It matches completed Jira tasks to annual
goals with a language model and writes a yearly summary for each goal. This
project models the part of it that builds prompts and assembles results:

- **Placeholder substitution.** `fillPromptTemplate` is modelled as a loop
  that rewrites one string key by key (`Template.FillPromptTemplate`). It is
  proved against the fold `Template.Fill`. The global regular-expression
  replace is a leftmost, non-overlapping literal scan (`JsStrings.ReplaceAll`).
- **The two default prompts** from `prompts.ts`, written out verbatim.
  - Each is stored as brace-free prose pieces around its placeholders
    (module `PromptText`).
  - The lemmas in module `Prompts` count their placeholders, show which of
    them each template holds, and give the exact filled text.
- **The payloads put into the prompts** (module `Payload`): the numbered goal
  lines, the projection of each task without its completion date, and the bullet
  list of task summaries.
- **The local client** (`services/localLlmService.ts`, module
  `LocalLlmService`): the configuration check, the request body, content
  extraction, error classification, and the JSON-array check. The HTTP
  exchange is a value of type `HttpOutcome`.
- **The Gemini client** (`services/geminiService.ts`, module
  `GeminiService`): prompt construction, trimming, the array check, and the
  wrapping of error messages. The SDK is a function from request to answer.
- **The page logic** (`App.tsx`, module `App`):
  - the goal list taken from the text area;
  - grouping of the model's assignments by goal index;
  - the merge with the loaded tasks, the fixed notice for a goal without
    tasks, and the per-goal summaries;
  - all-or-nothing publication of the results;
  - the state the two handlers leave behind, in class `App.AppState`.

JavaScript semantics are written out where they matter:

- `trim` removes the ECMAScript whitespace and line-terminator set.
- `split` and `join` use a literal separator.
- `${n}` renders a natural number in decimal.
- A thrown value is an `Error` (a `TypeError` is told apart), a string, or
  anything else (`JsValues.Thrown`).
- An awaited call either completes normally or throws (`JsValues.Completion`).

`JSON.parse` and `JSON.stringify` are oracle parameters. `JSON.parse`
yields an array, a non-array value, or a throw (`Types.JsonParse`).

Filling runs key by key over the running text. So a goal line that contains
the literal `{{tasks}}` has that token filled with the serialised tasks too
(`Prompts.AssignmentPromptFill`). The same holds for `{{summaries}}` inside a
goal (`Prompts.SummaryPromptFill`).

`App.tsx` imports the Gemini client, so the page model calls
`GeminiService`. The fourth argument it passes (the local URL) is one that
function does not take, and it has no effect.

## Model

| member | source | states |
|---|---|---|
| JsStrings.TrimDropsOuterWhitespace | App.tsx:50 | trimming cuts a whitespace prefix and a whitespace suffix off the text and keeps the rest in place; the rest neither begins nor ends with whitespace, and it is empty exactly when the text is all whitespace |
| JsStrings.Split | App.tsx:59 | there is one piece per separator match plus one, and joining the pieces with the separator gives back the text |
| JsStrings.SplitPiecesAreFree | App.tsx:59 | no piece of a split holds the separator |
| JsStrings.SplitJoinRoundTrip | services/localLlmService.ts:79 | lines free of a one-character separator, joined with it and split on it, come back unchanged |
| JsStrings.SplitKeepsCharacters | App.tsx:59 | every character other than the separator lands in some piece |
| JsStrings.ReplaceAllReplacesEveryMatch | services/localLlmService.ts:9 | a global replace cuts the text into match-free pieces joined by the pattern and rejoins them with the value: no match found by the scan survives |
| JsStrings.ReplaceAllWithoutMatch | services/localLlmService.ts:9 | a text with no match comes back unchanged |
| JsStrings.NatToString | services/localLlmService.ts:79 | the rendering of an index is non-empty decimal digits denoting it, with no leading zero |
| Template.FillPromptTemplate | services/localLlmService.ts:6-12 | the loop leaves the text the fold produces: each key in insertion order replaces every match of its placeholder in the running text |
| Template.FillWithoutPlaceholders | services/localLlmService.ts:7-11 | a template holding no placeholder of the data's keys is returned unchanged |
| Template.ReplaceAroundPlaceholder | services/localLlmService.ts:9 | one key's global replace leaves a `{{k}}` of another plain key in place, and treats the text before it and the text after it on their own: no match starts inside `{{k}}` or runs into it |
| Template.FillKeepsUnnamedPlaceholder | services/localLlmService.ts:7-11 | a placeholder whose key the data does not name survives the fill verbatim wherever it stands in an edited template, and the text on either side of it is filled as if on its own |
| Template.PlaceholderHoldsNoOtherPlaceholder | services/localLlmService.ts:9 | the placeholder of one plain key has no match in another key's placeholder, so filling `goal` never touches `{{goals}}` |
| Template.PlaceholderCount | services/localLlmService.ts:9 | a plain key's placeholder matches once in its own placeholder and never in another's |
| Template.FillTwoSlots | services/localLlmService.ts:8-9 | in a two-slot template, the second value lands verbatim, the first lands with any second-key placeholder inside it filled, and the text around them is unchanged |
| Prompts.AssignmentTemplatePlaceholders | prompts.ts:1-19 | the assignment template holds `{{goals}}` once, `{{tasks}}` once, and no other placeholder, so none of `{{goal}}` or `{{summaries}}` |
| Prompts.AssignmentPromptFill | prompts.ts:4-7 | the filled assignment prompt is the template text with the goal lines and the serialised tasks in the two slots, and nothing else changed |
| Prompts.AssignmentPromptLeavesNoPlaceholder | prompts.ts:4-7 | values free of both tokens land verbatim, and the filled prompt holds neither token |
| Prompts.SummaryTemplatePlaceholders | prompts.ts:21-33 | the summary template holds `{{goal}}` once, `{{summaries}}` once, and no other placeholder, so none of `{{goals}}` or `{{tasks}}` |
| Prompts.SummaryPromptFill | prompts.ts:23-26 | the filled summary prompt is the template text with the goal and the bullet list in the two slots, and nothing else changed |
| Prompts.SummaryPromptLeavesNoPlaceholder | prompts.ts:23-26 | values free of both tokens land verbatim, and the filled prompt holds neither token |
| Payload.GoalsStringLines | services/localLlmService.ts:79 | the goals text has one line per goal, and line `i` is `i` in decimal, `": "`, then goal `i` |
| Payload.ProjectionDropsOnlyCompletionDate | services/localLlmService.ts:80-84 | the projection keeps every task in order with its id, summary and description; putting the dates back gives the loaded tasks |
| Payload.ProjectionIgnoresCompletionDate | services/geminiService.ts:29-33 | task lists that differ only in completion dates give the same payload |
| Payload.SummariesStringLines | services/localLlmService.ts:112 | the bullet text has one line per summary, each `"- "` then the summary |
| Payload.AssignmentDataIsRecord | services/localLlmService.ts:86 | the assignment record has two distinct plain keys, `goals` then `tasks` |
| Payload.SummaryDataIsRecord | services/localLlmService.ts:113 | the summary record has two distinct plain keys, `goal` then `summaries` |
| LocalLlmService.CallLocalLlm | services/localLlmService.ts:14-66 | a missing config, URL or model throws the configuration error and sends nothing; otherwise the body names the model, holds exactly the system and user messages, and has the JSON response format iff JSON was asked for, and the result is the classified reply |
| LocalLlmService.Attempt | services/localLlmService.ts:33-55 | the try block completes as the exchange does: status error, no-content error, a thrown value passed on, or the content |
| LocalLlmService.Catch | services/localLlmService.ts:56-65 | the catch block turns a TypeError into the network error naming the URL, rethrows other Errors, and replaces anything else with the unknown-error message |
| LocalLlmService.ReplySucceedsOnlyWithContent | services/localLlmService.ts:47-54 | a call succeeds iff the server answers ok with a non-empty `choices[0].message.content`, and then returns it |
| LocalLlmService.ReplyErrors | services/localLlmService.ts:42-64 | the error for a non-ok status; the no-content error for every reply object without a non-empty first content (no `choices`, an empty array, a first choice without content, empty content); the network error for a `null` body; and, for a rejected `fetch`, the network error for a TypeError, the Error itself otherwise, the unknown-error message for a non-Error |
| LocalLlmService.BodyReadFailuresPassThrough | services/localLlmService.ts:43-64 | a rejection of `response.text()` or `response.json()` is classified like a rejected `fetch`: a TypeError becomes the network error, another Error such as a JSON SyntaxError passes unchanged, anything else becomes the unknown-error message |
| LocalLlmService.StatusErrorShowsStatus | services/localLlmService.ts:44 | the status error holds the status in decimal after the opening parenthesis and ends with the body text |
| LocalLlmService.ParseFailuresLookAlike | services/localLlmService.ts:90-99 | parsing succeeds iff the result is an array, which is returned; a non-array and a parser error both give the one generic parse error |
| LocalLlmService.AssignAndSummarizeTasks | services/localLlmService.ts:72-100 | the prompt is the template filled with the goal lines and the serialised tasks, sent in JSON mode; a failed call propagates, otherwise the content is parsed |
| LocalLlmService.GenerateAnnualSummary | services/localLlmService.ts:105-118 | the prompt is the template filled with the goal and the bullet list, sent in text mode; the result is the trimmed content |
| GeminiService.CatchAs | services/geminiService.ts:69-78 | the rethrown message is the prefix followed by the Error's message, the thrown string, or the unknown-error text |
| GeminiService.AssignAndSummarizeTasks | services/geminiService.ts:22-79 | the request carries the filled assignment prompt with the JSON array schema, and the result is the wrapped reply |
| GeminiService.GenerateAnnualSummary | services/geminiService.ts:84-111 | the request carries the filled summary prompt with no schema, and the result is the wrapped reply |
| GeminiService.AssignSucceedsOnlyWithArray | services/geminiService.ts:59-67 | assignment succeeds iff the answer has a text whose trimmed form parses to an array, and then returns that array |
| GeminiService.FailuresCarryThePrefix | services/geminiService.ts:71-77 | every failure of either operation is a plain Error whose message begins with that operation's prefix |
| GeminiService.AssignFailureMessages | services/geminiService.ts:61-77 | what follows the assignment prefix in each failure case, including the non-array message |
| GeminiService.SummaryFailureMessages | services/geminiService.ts:101-109 | what follows the summary prefix in each failure case |
| GeminiService.SummarySucceedsOnlyWithText | services/geminiService.ts:100 | a summary succeeds iff the answer has a text; it is that text trimmed, empty only for an all-whitespace text |
| App.GuardIsNotCanProcess | App.tsx:101 | the guard of `handleProcess` (line 50) refuses exactly the inputs for which `canProcess` is false |
| App.ProcessableTextHasGoals | App.tsx:59 | goal text that is not all whitespace yields at least one goal |
| App.NonBlankKeepsNonBlankLines | App.tsx:59 | the filter keeps exactly the lines whose trim is non-empty |
| App.NonBlankKeepsOrder | App.tsx:59 | filtering a concatenation filters each part, so the kept lines stay in input order |
| App.GoalsAreTheNonBlankLines | App.tsx:59 | the goals are exactly the non-blank lines of the text, none holding a line break |
| App.AssignmentsGoWhereTheirIdPoints | App.tsx:66 | an assignment is listed under goal `i` iff its goal id equals `i`, so an out-of-range id is listed under no goal |
| App.AssignmentsForKeepsOrder | App.tsx:66 | a goal's assignments keep their order in the model's array |
| App.FindTask | App.tsx:68 | the lookup finds nothing iff no task has the id, and otherwise the first task that has it |
| App.TasksForMergesEachAssignment | App.tsx:67-72 | a goal gets one processed task per assignment naming it, carrying that assignment's justification and a loaded task with its id, or no task fields exactly when no loaded task has that id |
| App.SummaryLinesFollowAssignments | App.tsx:67-77 | goal `index`'s summary request gets one line per assignment naming it, in order: the first loaded task's summary with that id, or `undefined` when none has it, then `: ` and the justification |
| App.GoalOutcomeShape | App.tsx:65-86 | a processed goal has its index, its text and its tasks; a goal without tasks gets the fixed notice with no summary call; otherwise it gets the summary or that summary's failure |
| App.AllInOrderListsEveryValue | App.tsx:89 | when every goal settles, the results are every goal's value in index order |
| App.AllInOrderSucceedsWhenEveryPromiseDoes | App.tsx:89 | if every goal succeeds, so does the whole |
| App.AllInOrderKeepsFailure | App.tsx:89 | once an earlier prefix of the goals has failed, the whole fails with the same error |
| App.AllInOrderFailsAtFirstFailure | App.tsx:89 | when some goal fails, the whole fails with the first failing goal's error |
| App.RunListsTheGoalsInOrder | App.tsx:58-90 | a failed assignment call fails the run; a successful run has one goal per non-blank line, goal `i` holding line `i` and the tasks assigned to `i` |
| App.ProcessGoal | App.tsx:65-87 | the per-goal callback settles as that goal's outcome |
| App.SettleGoals | App.tsx:65-89 | awaiting the goals one by one gives every result in order, or the first failure |
| App.Run | App.tsx:58-89 | the try block of `handleProcess` completes as the modelled run |
| App.AppState.constructor | App.tsx:14-29 | the initial state has no goals, no tasks, no results, no error, not loading, and the default templates |
| App.AppState.EditGoals | App.tsx:115-117 | editing the goal text changes that field only |
| App.AppState.EditPrompts | App.tsx:129-135 | editing the templates changes those fields only |
| App.AppState.HandleFetchJiraTasks | App.tsx:32-47 | fetched tasks replace the list; a failed fetch leaves the list cleared and the error prefixed, with the fallback text for non-Errors; loading ends |
| App.AppState.Settle | App.tsx:89-97 | after a run, the page shows every result with no error, or no results with the run's error after the processing prefix |
| App.AppState.HandleProcess | App.tsx:49-99 | without goal text or tasks, only the error changes; otherwise the page shows the outcome of the run on the state as it was |

## Left out

- Network, SDK and parser calls are oracle inputs: `fetch`, `response.text()`, `response.json()`, the GenAI SDK, `JSON.parse` and `JSON.stringify`. The exact indented text that `JSON.stringify(…, null, 2)` produces is not modelled.
- `console.error` logging, the `temperature: 0.5` setting, the HTTP method and headers, and the SDK's response schema beyond a flag.
- Replacement patterns such as `$&`, `$1` and `$$` in substituted values are left out: the model inserts values literally. The keys are assumed to be plain identifiers that do not begin with a digit (`Template.IsRecord`). `{` and `}` are ECMAScript syntax characters; `{{key}}` is read as literal text only because, under Annex B of ECMAScript, a `{` that does not open a `{n}`, `{n,}` or `{n,m}` quantifier is a literal brace. Keys with other characters, or with a leading digit, are not modelled.
- `Promise.all` concurrency is left out. Goals are settled one after the other, and a run fails with the error of the lowest-indexed failing goal. In JavaScript every summary call is started and the earliest rejection in time wins.
- `App.AppState.HandleProcess`, `App.AppState.HandleFetchJiraTasks`: the loading flag set at the start and the cleared error and results are intermediate render states. Only the state after the handler finishes is modelled.
- The Gemini SDK is modelled as a pure function of the request, so two goals that send the same summary request (duplicate goal lines with the same assigned tasks) always get the same answer; the real model need not. No lemma relies on this.
- `App.AppState.HandleProcess`: it does not state that the guard path makes no model call. The oracle is a pure function, so a call that is not made cannot be observed.
- Which fetcher runs (mock or real) and the Jira credentials are left out: the outcome of the fetch is an input. `services/jiraService.ts` is not part of this model.
- Non-string `message.content` values are left out: the content is an optional string. A `choices` value that is not an array is treated like a missing one.
- `assignedGoalId` is an integer; a non-integer number behaves like an out-of-range id.
- Every element of a parsed array is taken to be a well-formed assignment record (`Types.JsonParse`), because the source only casts the array and relies on the Gemini response schema to shape it. A `null` element, which makes the `filter` in `App.tsx:66` throw a TypeError and fails the run with the processing prefix, and a missing `taskId` or `contextualSummary`, which shows up as `undefined` in the summary line, are not modelled. A well-formed `taskId` that names no loaded task is modelled: its summary line begins with `undefined` (`App.SummaryLinesFollowAssignments`).
- The React components, `hooks/usePersistentState.ts` and rendering are left out.
- The local client is modelled but `App.tsx` does not call it. The page's local URL, and the URL props that the configuration component no longer declares, are left out.
- V8's wording of the TypeError for a property read on `null` or `undefined` is a fixed constant.
