/**
 * The dashboard's processing logic (App.tsx): the goal list read from the
 * text area, the grouping of the model's assignments by goal, the merge
 * with the loaded tasks, the per-goal summaries, and the state the two
 * handlers leave behind. The page uses the Gemini client.
 */
module App {
  import opened JsValues
  import opened JsStrings
  import opened Types
  import opened Payload
  import opened GeminiService
  import opened Prompts

  const UNKNOWN_ERROR: string := "Wystąpił nieznany błąd."
  const FETCH_FAILED: string := "Nie udało się pobrać zadań z JIRA: "
  const INPUTS_REQUIRED: string := "Wprowadź cele roczne i pobierz zadania z JIRA przed przetworzeniem."
  const PROCESS_FAILED: string := "Błąd podczas przetwarzania danych przez AI: "
  const NO_TASKS_SUMMARY: string := "Nie wygenerowano podsumowania, ponieważ do tego celu nie przypisano żadnych zadań."

  /** `e instanceof Error ? e.message : 'Wystąpił nieznany błąd.'`. */
  function ErrorMessage(e: Thrown): string {
    if e.ErrorObject? then e.message else UNKNOWN_ERROR
  }

  /** `filter(g => g.trim() !== '')`. */
  function NonBlank(lines: seq<string>): seq<string> {
    if lines == [] then []
    else (if Trim(lines[0]) != [] then [lines[0]] else []) + NonBlank(lines[1..])
  }

  /** `annualGoalsRaw.split('\n').filter(g => g.trim() !== '')`. */
  function GoalsList(raw: string): seq<string> {
    NonBlank(Split(raw, "\n"))
  }

  /** The filter keeps exactly the non-blank lines, in their order. */
  lemma {:induction false} NonBlankKeepsNonBlankLines(lines: seq<string>)
    ensures |NonBlank(lines)| <= |lines|
    ensures forall g :: g in NonBlank(lines) <==> g in lines && Trim(g) != []
  {
    if lines != [] {
      NonBlankKeepsNonBlankLines(lines[1..]);
      assert lines == [lines[0]] + lines[1..];
    }
  }

  /** Filtering a concatenation filters each part: the kept lines stay in their order. */
  lemma {:induction false} NonBlankKeepsOrder(front: seq<string>, back: seq<string>)
    ensures NonBlank(front + back) == NonBlank(front) + NonBlank(back)
  {
    if front != [] {
      var whole := front + back;
      var kept: seq<string> := if Trim(front[0]) != [] then [front[0]] else [];
      assert whole[0] == front[0] && whole[1..] == front[1..] + back;
      assert NonBlank(whole) == kept + NonBlank(front[1..] + back);
      NonBlankKeepsOrder(front[1..], back);
      assert NonBlank(front) == kept + NonBlank(front[1..]);
    } else {
      assert front + back == back;
    }
  }

  /**
   * Every goal is a non-blank line of the text area without its line
   * break, and every non-blank line is a goal.
   */
  lemma GoalsAreTheNonBlankLines(raw: string)
    ensures forall g :: g in GoalsList(raw) <==> g in Split(raw, "\n") && Trim(g) != []
    ensures forall i | 0 <= i < |GoalsList(raw)| :: '\n' !in GoalsList(raw)[i] && Trim(GoalsList(raw)[i]) != []
  {
    var lines := Split(raw, "\n");
    NonBlankKeepsNonBlankLines(lines);
    SplitPiecesAreFree(raw, "\n");
    forall i | 0 <= i < |GoalsList(raw)| ensures '\n' !in GoalsList(raw)[i] {
      var g := GoalsList(raw)[i];
      assert g in lines;
      var j :| 0 <= j < |lines| && lines[j] == g;
      NoMatchMeansAbsent(g, '\n');
    }
  }

  /** `annualGoalsRaw.trim().length > 0 && jiraTasks.length > 0`. */
  predicate CanProcess(raw: string, tasks: seq<JiraTask>) {
    |Trim(raw)| > 0 && |tasks| > 0
  }

  /** The guard of `handleProcess` refuses exactly the inputs `canProcess` rejects. */
  lemma GuardIsNotCanProcess(raw: string, tasks: seq<JiraTask>)
    ensures (Trim(raw) == [] || |tasks| == 0) <==> !CanProcess(raw, tasks)
  {
  }

  /** Text that the button accepts yields at least one goal. */
  lemma ProcessableTextHasGoals(raw: string)
    requires Trim(raw) != []
    ensures GoalsList(raw) != []
  {
    TrimDropsOuterWhitespace(raw);
    var k :| 0 <= k < |raw| && !IsWhitespace(raw[k]);
    SplitKeepsCharacters(raw, '\n', k);
    var lines := Split(raw, "\n");
    var i :| 0 <= i < |lines| && raw[k] in lines[i];
    var j :| 0 <= j < |lines[i]| && lines[i][j] == raw[k];
    assert !AllWhitespace(lines[i]);
    TrimDropsOuterWhitespace(lines[i]);
    assert Trim(lines[i]) != [] && lines[i] in lines;
    NonBlankKeepsNonBlankLines(lines);
  }

  /** `assignments.filter(a => a.assignedGoalId === index)`. */
  function AssignmentsFor(assignments: seq<AssignmentResult>, index: int): seq<AssignmentResult> {
    if assignments == [] then []
    else (if assignments[0].assignedGoalId == index then [assignments[0]] else []) + AssignmentsFor(assignments[1..], index)
  }

  /**
   * An assignment is listed under a goal exactly when its goal id is that
   * goal's index: so under exactly one goal when the id is in range, and
   * under none otherwise.
   */
  lemma {:induction false} AssignmentsGoWhereTheirIdPoints(assignments: seq<AssignmentResult>, index: int)
    ensures forall a :: a in AssignmentsFor(assignments, index) <==> a in assignments && a.assignedGoalId == index
  {
    if assignments != [] {
      AssignmentsGoWhereTheirIdPoints(assignments[1..], index);
      assert assignments == [assignments[0]] + assignments[1..];
    }
  }

  /** Grouping a concatenation groups each part: a goal's tasks keep the assignments' order. */
  lemma {:induction false} AssignmentsForKeepsOrder(front: seq<AssignmentResult>, back: seq<AssignmentResult>, index: int)
    ensures AssignmentsFor(front + back, index) == AssignmentsFor(front, index) + AssignmentsFor(back, index)
  {
    if front != [] {
      assert (front + back)[1..] == front[1..] + back;
      AssignmentsForKeepsOrder(front[1..], back, index);
    } else {
      assert front + back == back;
    }
  }

  /** `jiraTasks.find(t => t.id === id)`: the first task with the id, if any. */
  function FindTask(tasks: seq<JiraTask>, id: string): (r: Option<JiraTask>)
    ensures r.None? <==> forall t | t in tasks :: t.id != id
    ensures r.Some? ==> exists k | 0 <= k < |tasks| :: tasks[k] == r.value && r.value.id == id
                          && forall j | 0 <= j < k :: tasks[j].id != id
  {
    if tasks == [] then None
    else if tasks[0].id == id then Some(tasks[0])
    else
      var r := FindTask(tasks[1..], id);
      assert r.Some? ==> exists k | 1 <= k < |tasks| :: tasks[k] == r.value && r.value.id == id
                          && forall j | 0 <= j < k :: tasks[j].id != id by {
        if r.Some? {
          var k :| 0 <= k < |tasks[1..]| && tasks[1..][k] == r.value && r.value.id == id
                   && forall j | 0 <= j < k :: tasks[1..][j].id != id;
          assert tasks[k + 1] == r.value;
        }
      }
      r
  }

  /** `{ ...originalTask!, goalContextSummary: a.contextualSummary }`. */
  function MergeAssignment(a: AssignmentResult, tasks: seq<JiraTask>): ProcessedTask {
    ProcessedTask(FindTask(tasks, a.taskId), a.contextualSummary)
  }

  function TasksFor(index: int, assignments: seq<AssignmentResult>, tasks: seq<JiraTask>): seq<ProcessedTask> {
    var mine := AssignmentsFor(assignments, index);
    seq(|mine|, i requires 0 <= i < |mine| => MergeAssignment(mine[i], tasks))
  }

  /**
   * Goal `index` gets one processed task per assignment naming it, in
   * order: the assignment's justification, and the first loaded task with
   * its id when there is one.
   */
  lemma TasksForMergesEachAssignment(index: int, assignments: seq<AssignmentResult>, tasks: seq<JiraTask>)
    ensures var mine := AssignmentsFor(assignments, index);
      var ts := TasksFor(index, assignments, tasks);
      && |ts| == |mine|
      && forall i | 0 <= i < |ts| ::
           && ts[i].goalContextSummary == mine[i].contextualSummary
           && (ts[i].original.Some? ==> ts[i].original.value in tasks && ts[i].original.value.id == mine[i].taskId)
           && (ts[i].original.None? <==> forall t | t in tasks :: t.id != mine[i].taskId)
  {
  }

  /** `${t.summary}: ${t.goalContextSummary}`; a task that was not found has no summary. */
  function TaskSummaryLine(t: ProcessedTask): string {
    (if t.original.Some? then t.original.value.summary else "undefined") + ": " + t.goalContextSummary
  }

  function TaskSummaries(ts: seq<ProcessedTask>): seq<string> {
    seq(|ts|, i requires 0 <= i < |ts| => TaskSummaryLine(ts[i]))
  }

  /**
   * The summary request of goal `index` gets one line per assignment naming
   * it, in order: the loaded task's summary, or `undefined` when no loaded
   * task has the assignment's id, then the assignment's justification.
   */
  lemma SummaryLinesFollowAssignments(index: int, assignments: seq<AssignmentResult>, tasks: seq<JiraTask>)
    ensures var mine := AssignmentsFor(assignments, index);
      var lines := TaskSummaries(TasksFor(index, assignments, tasks));
      && |lines| == |mine|
      && forall i | 0 <= i < |lines| ::
           lines[i] == (match FindTask(tasks, mine[i].taskId)
                        case Some(t) => t.summary
                        case None => "undefined") + ": " + mine[i].contextualSummary
  {
  }

  /** What the callback of `goalsList.map` settles with for one goal. */
  function GoalOutcome(
    goalText: string, index: nat, assignments: seq<AssignmentResult>, tasks: seq<JiraTask>,
    summaryPrompt: string, gemini: GenerateRequest -> SdkOutcome)
    : Completion<ProcessedGoal>
  {
    var ts := TasksFor(index, assignments, tasks);
    if ts == [] then Normal(ProcessedGoal(index, goalText, ts, NO_TASKS_SUMMARY))
    else
      match Summarize(goalText, TaskSummaries(ts), summaryPrompt, gemini)
      case Throw(e) => Throw(e)
      case Normal(s) => Normal(ProcessedGoal(index, goalText, ts, s))
  }

  /** The promises `goalsList.map` creates, as what each settles with, in goal order. */
  function GoalOutcomes(
    goals: seq<string>, assignments: seq<AssignmentResult>, tasks: seq<JiraTask>,
    summaryPrompt: string, gemini: GenerateRequest -> SdkOutcome)
    : seq<Completion<ProcessedGoal>>
  {
    seq(|goals|, i requires 0 <= i < |goals| => GoalOutcome(goals[i], i, assignments, tasks, summaryPrompt, gemini))
  }

  /**
   * `Promise.all`, settled one promise after the other: every value in
   * order, or the failure of the first promise that fails.
   */
  function AllInOrder<T>(outcomes: seq<Completion<T>>): Completion<seq<T>>
    decreases |outcomes|
  {
    if outcomes == [] then Normal([])
    else
      match AllInOrder(outcomes[..|outcomes| - 1])
      case Throw(e) => Throw(e)
      case Normal(done) =>
        match outcomes[|outcomes| - 1]
        case Throw(e) => Throw(e)
        case Normal(v) => Normal(done + [v])
  }

  /** A successful `AllInOrder` holds every promise's value, in order. */
  lemma {:induction false} AllInOrderListsEveryValue<T>(outcomes: seq<Completion<T>>)
    ensures var r := AllInOrder(outcomes);
      r.Normal? ==>
        && |r.value| == |outcomes|
        && forall i | 0 <= i < |outcomes| :: outcomes[i].Normal? && r.value[i] == outcomes[i].value
    decreases |outcomes|
  {
    if outcomes != [] {
      var front := outcomes[..|outcomes| - 1];
      AllInOrderListsEveryValue(front);
      assert forall i | 0 <= i < |front| :: front[i] == outcomes[i];
    }
  }

  /** When every promise succeeds, so does `AllInOrder`. */
  lemma {:induction false} AllInOrderSucceedsWhenEveryPromiseDoes<T>(outcomes: seq<Completion<T>>)
    requires forall i | 0 <= i < |outcomes| :: outcomes[i].Normal?
    ensures AllInOrder(outcomes).Normal?
    decreases |outcomes|
  {
    if outcomes != [] {
      var front := outcomes[..|outcomes| - 1];
      assert forall i | 0 <= i < |front| :: front[i] == outcomes[i];
      AllInOrderSucceedsWhenEveryPromiseDoes(front);
    }
  }

  /** Once a prefix has failed, the whole fails with the same error. */
  lemma {:induction false} AllInOrderKeepsFailure<T>(outcomes: seq<Completion<T>>, m: nat)
    requires m <= |outcomes| && AllInOrder(outcomes[..m]).Throw?
    ensures AllInOrder(outcomes) == AllInOrder(outcomes[..m])
    decreases |outcomes| - m
  {
    if m < |outcomes| {
      var front := outcomes[..|outcomes| - 1];
      assert front[..m] == outcomes[..m];
      AllInOrderKeepsFailure(front, m);
    } else {
      assert outcomes[..m] == outcomes;
    }
  }

  /**
   * `AllInOrder` fails exactly when some promise fails, and then with the
   * error of the first one that does.
   */
  lemma AllInOrderFailsAtFirstFailure<T>(outcomes: seq<Completion<T>>, first: nat)
    requires first < |outcomes| && outcomes[first].Throw?
    requires forall j | 0 <= j < first :: outcomes[j].Normal?
    ensures AllInOrder(outcomes) == Throw(outcomes[first].thrown)
  {
    var front := outcomes[..first];
    assert forall j | 0 <= j < |front| :: front[j] == outcomes[j];
    AllInOrderSucceedsWhenEveryPromiseDoes(front);
    assert outcomes[..first + 1][..first] == front;
    AllInOrderKeepsFailure(outcomes, first + 1);
  }

  /** The `try` block of `handleProcess`: the assignment call, then every goal. */
  function ProcessRun(
    raw: string, tasks: seq<JiraTask>, assignmentPrompt: string, summaryPrompt: string,
    gemini: GenerateRequest -> SdkOutcome, parse: string -> JsonParse, stringify: seq<TaskPayload> -> string)
    : Completion<seq<ProcessedGoal>>
  {
    var goals := GoalsList(raw);
    match Assign(goals, tasks, assignmentPrompt, gemini, parse, stringify)
    case Throw(e) => Throw(e)
    case Normal(assignments) => AllInOrder(GoalOutcomes(goals, assignments, tasks, summaryPrompt, gemini))
  }

  /**
   * One processed goal: its index, its text and the tasks assigned to it.
   * A goal without tasks gets the fixed notice and asks the model nothing;
   * a goal with tasks gets the trimmed summary, or the summary's failure.
   */
  lemma GoalOutcomeShape(
    goalText: string, index: nat, assignments: seq<AssignmentResult>, tasks: seq<JiraTask>,
    summaryPrompt: string, gemini: GenerateRequest -> SdkOutcome)
    ensures var r := GoalOutcome(goalText, index, assignments, tasks, summaryPrompt, gemini);
      var ts := TasksFor(index, assignments, tasks);
      && (r.Normal? ==> r.value.id == index && r.value.text == goalText && r.value.tasks == ts)
      && (ts == [] ==> r == Normal(ProcessedGoal(index, goalText, [], NO_TASKS_SUMMARY)))
      && (ts != [] ==>
            var s := Summarize(goalText, TaskSummaries(ts), summaryPrompt, gemini);
            (r.Normal? <==> s.Normal?) && (r.Normal? ==> r.value.annualSummary == s.value)
                                       && (r.Throw? ==> r.thrown == s.thrown))
  {
  }

  /**
   * A run whose assignment call fails fails with that error; otherwise it
   * lists one goal per non-blank line, goal `i` holding line `i` and the
   * tasks whose assignment names `i`.
   */
  lemma RunListsTheGoalsInOrder(
    raw: string, tasks: seq<JiraTask>, assignmentPrompt: string, summaryPrompt: string,
    gemini: GenerateRequest -> SdkOutcome, parse: string -> JsonParse, stringify: seq<TaskPayload> -> string)
    ensures var goals := GoalsList(raw);
      var assignReply := Assign(goals, tasks, assignmentPrompt, gemini, parse, stringify);
      var r := ProcessRun(raw, tasks, assignmentPrompt, summaryPrompt, gemini, parse, stringify);
      && (assignReply.Throw? ==> r == Throw(assignReply.thrown))
      && (r.Normal? ==>
            && |r.value| == |goals|
            && forall i | 0 <= i < |goals| ::
                 r.value[i].id == i && r.value[i].text == goals[i]
                 && r.value[i].tasks == TasksFor(i, assignReply.value, tasks))
  {
    var goals := GoalsList(raw);
    var assignReply := Assign(goals, tasks, assignmentPrompt, gemini, parse, stringify);
    if assignReply.Normal? {
      AllInOrderListsEveryValue(GoalOutcomes(goals, assignReply.value, tasks, summaryPrompt, gemini));
      forall i | 0 <= i < |goals| {
        GoalOutcomeShape(goals[i], i, assignReply.value, tasks, summaryPrompt, gemini);
      }
    }
  }

  /**
   * The callback of `goalsList.map` for one goal: group and merge its
   * tasks, and ask for a summary only when there is at least one. Its
   * reference definition is `GoalOutcome`, which `GoalOutcomeShape`
   * characterises.
   */
  method ProcessGoal(
    goalText: string, index: nat, assignments: seq<AssignmentResult>, tasks: seq<JiraTask>,
    summaryPrompt: string, gemini: GenerateRequest -> SdkOutcome)
    returns (result: Completion<ProcessedGoal>)
    ensures result == GoalOutcome(goalText, index, assignments, tasks, summaryPrompt, gemini)
  {
    var tasksForThisGoal := TasksFor(index, assignments, tasks);
    var annualSummary := NO_TASKS_SUMMARY;
    if |tasksForThisGoal| > 0 {
      var request, reply := GeminiService.GenerateAnnualSummary(goalText, TaskSummaries(tasksForThisGoal), summaryPrompt, gemini);
      if reply.Throw? {
        return Throw(reply.thrown);
      }
      annualSummary := reply.value;
    }
    result := Normal(ProcessedGoal(index, goalText, tasksForThisGoal, annualSummary));
  }

  /**
   * `Promise.all(goalPromises)`, awaited one goal after the other: each
   * goal in order, stopping at the first that fails. Its reference
   * definition is `AllInOrder`, which `AllInOrderListsEveryValue`,
   * `AllInOrderSucceedsWhenEveryPromiseDoes` and
   * `AllInOrderFailsAtFirstFailure` characterise.
   */
  method SettleGoals(
    goalsList: seq<string>, assignments: seq<AssignmentResult>, tasks: seq<JiraTask>,
    summaryPrompt: string, gemini: GenerateRequest -> SdkOutcome)
    returns (result: Completion<seq<ProcessedGoal>>)
    ensures result == AllInOrder(GoalOutcomes(goalsList, assignments, tasks, summaryPrompt, gemini))
  {
    ghost var outcomes := GoalOutcomes(goalsList, assignments, tasks, summaryPrompt, gemini);
    var results: seq<ProcessedGoal> := [];
    var index := 0;
    while index < |goalsList|
      invariant 0 <= index <= |goalsList|
      invariant AllInOrder(outcomes[..index]) == Normal(results)
    {
      var goal := ProcessGoal(goalsList[index], index, assignments, tasks, summaryPrompt, gemini);
      assert outcomes[..index + 1][..index] == outcomes[..index];
      if goal.Throw? {
        AllInOrderKeepsFailure(outcomes, index + 1);
        return Throw(goal.thrown);
      }
      results := results + [goal.value];
      index := index + 1;
    }
    assert outcomes[..index] == outcomes;
    result := Normal(results);
  }

  /**
   * The `try` block of `handleProcess`: split the goals, assign the tasks,
   * settle every goal. Its reference definition is `ProcessRun`, which
   * `RunListsTheGoalsInOrder` characterises.
   */
  method Run(
    raw: string, tasks: seq<JiraTask>, assignmentPrompt: string, summaryPrompt: string,
    gemini: GenerateRequest -> SdkOutcome, parse: string -> JsonParse, stringify: seq<TaskPayload> -> string)
    returns (result: Completion<seq<ProcessedGoal>>)
    ensures result == ProcessRun(raw, tasks, assignmentPrompt, summaryPrompt, gemini, parse, stringify)
  {
    var goalsList := GoalsList(raw);
    var request, assignReply := GeminiService.AssignAndSummarizeTasks(goalsList, tasks, assignmentPrompt, gemini, parse, stringify);
    if assignReply.Throw? {
      return Throw(assignReply.thrown);
    }
    result := SettleGoals(goalsList, assignReply.value, tasks, summaryPrompt, gemini);
  }

  /** The page's state. The Jira credentials and the data-source switch are left to the fetch. */
  class AppState {
    var annualGoalsRaw: string
    var jiraTasks: seq<JiraTask>
    var processedGoals: Option<seq<ProcessedGoal>>
    var isLoading: bool
    var error: Option<string>
    var assignmentPrompt: string
    var summaryPrompt: string

    /** The initial `useState` values. */
    constructor ()
      ensures annualGoalsRaw == "" && jiraTasks == [] && processedGoals == None
      ensures !isLoading && error == None
      ensures assignmentPrompt == ASSIGNMENT_PROMPT_TEMPLATE && summaryPrompt == SUMMARY_PROMPT_TEMPLATE
    {
      annualGoalsRaw := "";
      jiraTasks := [];
      processedGoals := None;
      isLoading := false;
      error := None;
      assignmentPrompt := ASSIGNMENT_PROMPT_TEMPLATE;
      summaryPrompt := SUMMARY_PROMPT_TEMPLATE;
    }

    /** `canProcess`, which also enables the button. */
    predicate Ready()
      reads this
    {
      CanProcess(annualGoalsRaw, jiraTasks)
    }

    /** The goal text area's `onChange`. */
    method EditGoals(text: string)
      modifies this
      ensures annualGoalsRaw == text
      ensures jiraTasks == old(jiraTasks) && processedGoals == old(processedGoals) && isLoading == old(isLoading)
      ensures error == old(error) && assignmentPrompt == old(assignmentPrompt) && summaryPrompt == old(summaryPrompt)
    {
      annualGoalsRaw := text;
    }

    /** The prompt editors' `onChange`s. */
    method EditPrompts(assignment: string, summary: string)
      modifies this
      ensures assignmentPrompt == assignment && summaryPrompt == summary
      ensures annualGoalsRaw == old(annualGoalsRaw) && jiraTasks == old(jiraTasks)
      ensures processedGoals == old(processedGoals) && isLoading == old(isLoading) && error == old(error)
    {
      assignmentPrompt := assignment;
      summaryPrompt := summary;
    }

    /**
     * `handleFetchJiraTasks`, for what the fetcher settles with: the tasks
     * replace the list, or the list stays cleared and the error names the
     * failure.
     */
    method HandleFetchJiraTasks(fetched: Completion<seq<JiraTask>>)
      modifies this
      ensures !isLoading
      ensures fetched.Normal? ==> jiraTasks == fetched.value && error == None
      ensures fetched.Throw? ==> jiraTasks == [] && error == Some(FETCH_FAILED + ErrorMessage(fetched.thrown))
      ensures annualGoalsRaw == old(annualGoalsRaw) && processedGoals == old(processedGoals)
      ensures assignmentPrompt == old(assignmentPrompt) && summaryPrompt == old(summaryPrompt)
    {
      isLoading := true;
      error := None;
      jiraTasks := [];
      if fetched.Normal? {
        jiraTasks := fetched.value;
      } else {
        error := Some(FETCH_FAILED + ErrorMessage(fetched.thrown));
      }
      isLoading := false;
    }

    /**
     * What the page shows once a run has settled: no loading indicator,
     * and either every processed goal and no error, or no results and the
     * run's error after the processing prefix.
     */
    predicate Shows(run: Completion<seq<ProcessedGoal>>)
      reads this
    {
      && !isLoading
      && (run.Normal? ==> processedGoals == Some(run.value) && error == None)
      && (run.Throw? ==> processedGoals == None && error == Some(PROCESS_FAILED + ErrorMessage(run.thrown)))
    }

    /** The `setProcessedGoals`, `setError` and `setIsLoading` calls after the run. */
    method Settle(run: Completion<seq<ProcessedGoal>>)
      modifies this
      ensures Shows(run)
      ensures annualGoalsRaw == old(annualGoalsRaw) && jiraTasks == old(jiraTasks)
      ensures assignmentPrompt == old(assignmentPrompt) && summaryPrompt == old(summaryPrompt)
    {
      if run.Throw? {
        isLoading, error, processedGoals := false, Some(PROCESS_FAILED + ErrorMessage(run.thrown)), None;
      } else {
        isLoading, error, processedGoals := false, None, Some(run.value);
      }
    }

    /**
     * `handleProcess`. Without goal text or tasks only the error changes.
     * Otherwise the run is made and the page shows its outcome.
     */
    method HandleProcess(gemini: GenerateRequest -> SdkOutcome, parse: string -> JsonParse, stringify: seq<TaskPayload> -> string)
      modifies this
      ensures annualGoalsRaw == old(annualGoalsRaw) && jiraTasks == old(jiraTasks)
      ensures assignmentPrompt == old(assignmentPrompt) && summaryPrompt == old(summaryPrompt)
      ensures !old(Ready()) ==>
        error == Some(INPUTS_REQUIRED) && processedGoals == old(processedGoals) && isLoading == old(isLoading)
      ensures old(Ready()) ==>
        Shows(ProcessRun(old(annualGoalsRaw), old(jiraTasks), old(assignmentPrompt), old(summaryPrompt), gemini, parse, stringify))
    {
      if Trim(annualGoalsRaw) == [] || |jiraTasks| == 0 {
        error := Some(INPUTS_REQUIRED);
        return;
      }
      // The loading flag, the cleared error and the cleared results are
      // intermediate render states; only the state after the run is kept.
      var run := Run(annualGoalsRaw, jiraTasks, assignmentPrompt, summaryPrompt, gemini, parse, stringify);
      Settle(run);
    }
  }
}
