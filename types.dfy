/** The records the prompt layer and the goal reconciliation exchange. */
module Types {
  import opened JsValues

  /** A completed ticket; loaded once and read-only during a run. */
  datatype JiraTask = JiraTask(id: string, summary: string, description: string, completionDate: string)

  /**
   * One element of the array the model returns. `assignedGoalId` is the
   * index of a goal line; it is compared with `===`, so only an integer
   * equal to the index matches.
   */
  datatype AssignmentResult = AssignmentResult(taskId: string, assignedGoalId: int, contextualSummary: string)

  /**
   * A task merged with its goal-specific justification. `original` is the
   * task whose fields the spread copies: `None` when no loaded task has the
   * id, in which case the spread contributes no field at all.
   */
  datatype ProcessedTask = ProcessedTask(original: Option<JiraTask>, goalContextSummary: string)

  datatype ProcessedGoal = ProcessedGoal(id: nat, text: string, tasks: seq<ProcessedTask>, annualSummary: string)

  datatype LocalLlmConfig = LocalLlmConfig(url: string, model: string)

  /**
   * What `JSON.parse` does with a reply text: an array, another value, or a
   * throw. The elements of an array are taken to be assignment records, as
   * the response schema asks; the source only casts them.
   */
  datatype JsonParse =
    | ParsedArray(items: seq<AssignmentResult>)
    | ParsedNonArray
    | ParseThrew(reason: Thrown)
}
