/**
 * The record handed to the code-execution pipeline
 * (pandasai/pipelines/chat/code_execution_pipeline_input.py).
 */
module CodeExecutionInput {
  import opened PyValues

  /**
   * `instance` is declared on the dataclass but the hand-written constructor
   * never assigns it: `None` here stands for "attribute not set".
   */
  datatype CodeExecutionPipelineInput = CodeExecutionPipelineInput(
    code: string,
    outputType: string,
    instance: Option<string>,
    conversationId: Uuid,
    promptId: Uuid,
    query: string)

  /** The constructor: stores its four arguments and clears the query. */
  function NewInput(code: string, outputType: string, conversationId: Uuid, promptId: Uuid)
    : (r: CodeExecutionPipelineInput)
    ensures r.query == ""
    ensures r.code == code && r.outputType == outputType
    ensures r.conversationId == conversationId && r.promptId == promptId
    ensures r.instance.None?
  {
    CodeExecutionPipelineInput(code, outputType, None, conversationId, promptId, "")
  }
}
