/**
 * The values the two services put into the prompts: the numbered goal
 * list, the list of tasks projected for the model, and the bullet list of
 * task summaries (services/localLlmService.ts:79-84 and 112, repeated in
 * services/geminiService.ts:28-33 and 90).
 */
module Payload {
  import opened JsStrings
  import opened Types
  import opened Template

  /** `${index}: ${goal}`. */
  function GoalLine(index: nat, goal: string): string {
    NatToString(index) + ": " + goal
  }

  function GoalLines(goals: seq<string>): seq<string> {
    seq(|goals|, i requires 0 <= i < |goals| => GoalLine(i, goals[i]))
  }

  /** `goals.map((goal, index) => `${index}: ${goal}`).join('\n')`. */
  function GoalsString(goals: seq<string>): string {
    Join(GoalLines(goals), "\n")
  }

  /**
   * Read back line by line, the goal list has one line per goal, and line
   * `i` is `i` in decimal, a colon and a space, and goal `i`. Goals never
   * hold a line break here: they are lines of the goal text.
   */
  lemma GoalsStringLines(goals: seq<string>)
    requires goals != []
    requires forall i | 0 <= i < |goals| :: '\n' !in goals[i]
    ensures var lines := Split(GoalsString(goals), "\n");
      && |lines| == |goals|
      && (forall i | 0 <= i < |goals| :: lines[i] == NatToString(i) + ": " + goals[i])
  {
    var lines := GoalLines(goals);
    forall i | 0 <= i < |lines| ensures '\n' !in lines[i] {
      var digits := NatToString(i);
      assert lines[i] == digits + (": " + goals[i]);
      assert forall j | 0 <= j < |digits| :: IsDigit(digits[j]);
    }
    SplitJoinRoundTrip(lines, '\n');
  }

  /** The object each task is mapped to before serialisation. */
  datatype TaskPayload = TaskPayload(id: string, summary: string, description: string)

  function Project(task: JiraTask): TaskPayload {
    TaskPayload(task.id, task.summary, task.description)
  }

  function ProjectTasks(tasks: seq<JiraTask>): seq<TaskPayload> {
    seq(|tasks|, i requires 0 <= i < |tasks| => Project(tasks[i]))
  }

  /** Putting the completion dates back onto a projection. */
  function Restore(payload: seq<TaskPayload>, dates: seq<string>): seq<JiraTask>
    requires |payload| == |dates|
  {
    seq(|payload|, i requires 0 <= i < |payload| =>
      JiraTask(payload[i].id, payload[i].summary, payload[i].description, dates[i]))
  }

  /**
   * The projection keeps every task, in order, with its id, summary and
   * description: only the completion dates are missing, and restoring
   * them gives back the loaded tasks.
   */
  lemma ProjectionDropsOnlyCompletionDate(tasks: seq<JiraTask>)
    ensures |ProjectTasks(tasks)| == |tasks|
    ensures Restore(ProjectTasks(tasks), seq(|tasks|, i requires 0 <= i < |tasks| => tasks[i].completionDate)) == tasks
  {
  }

  /**
   * The projection does not depend on completion dates: two task lists
   * that differ only there give the same payload, hence the same prompt.
   */
  lemma ProjectionIgnoresCompletionDate(tasks: seq<JiraTask>, other: seq<JiraTask>)
    requires |tasks| == |other|
    requires forall i | 0 <= i < |tasks| ::
      tasks[i].id == other[i].id && tasks[i].summary == other[i].summary && tasks[i].description == other[i].description
    ensures ProjectTasks(tasks) == ProjectTasks(other)
  {
  }

  /** `- ${s}`. */
  function Bullet(s: string): string {
    "- " + s
  }

  function Bullets(summaries: seq<string>): seq<string> {
    seq(|summaries|, i requires 0 <= i < |summaries| => Bullet(summaries[i]))
  }

  /** `taskSummaries.map(s => `- ${s}`).join('\n')`. */
  function SummariesString(summaries: seq<string>): string {
    Join(Bullets(summaries), "\n")
  }

  /**
   * Read back line by line, the bullet list has one line per summary
   * without a line break, each the summary after a dash and a space.
   */
  lemma SummariesStringLines(summaries: seq<string>)
    requires summaries != []
    requires forall i | 0 <= i < |summaries| :: '\n' !in summaries[i]
    ensures var lines := Split(SummariesString(summaries), "\n");
      && |lines| == |summaries|
      && (forall i | 0 <= i < |summaries| :: lines[i] == "- " + summaries[i])
  {
    var lines := Bullets(summaries);
    forall i | 0 <= i < |lines| ensures '\n' !in lines[i] {
      assert lines[i] == "- " + summaries[i];
    }
    SplitJoinRoundTrip(lines, '\n');
  }

  /** The data record of the assignment prompt. */
  function AssignmentData(goals: seq<string>, tasks: seq<JiraTask>, stringify: seq<TaskPayload> -> string): seq<Entry> {
    [Entry("goals", GoalsString(goals)), Entry("tasks", stringify(ProjectTasks(tasks)))]
  }

  /** The data record of the summary prompt. */
  function SummaryData(goal: string, taskSummaries: seq<string>): seq<Entry> {
    [Entry("goal", goal), Entry("summaries", SummariesString(taskSummaries))]
  }

  lemma AssignmentDataIsRecord(goals: seq<string>, tasks: seq<JiraTask>, stringify: seq<TaskPayload> -> string)
    ensures IsRecord(AssignmentData(goals, tasks, stringify))
  {
    assert IsPlainKey("goals") && IsPlainKey("tasks");
  }

  lemma SummaryDataIsRecord(goal: string, taskSummaries: seq<string>)
    ensures IsRecord(SummaryData(goal, taskSummaries))
  {
    assert IsPlainKey("goal") && IsPlainKey("summaries");
  }
}
