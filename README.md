# pandas-ai-server chat core in Dafny

This project models the core of a natural-language data-analysis server. A user asks a question about a
workspace's datasets. The chat controller loads a connector for every dataset and hands them to a
pandas-ai agent, whose **chat pipeline orchestrator** (`GenerateChatPipeline`) does the work:

- it resets its scratch values, starts a tracker trace, records the query in memory and seeds the output
  type and prompt id;
- it runs the code-generation pipeline and, with a judge, regenerates until the judge accepts or
  `max_retries` regenerations have been made;
- it runs the code-execution pipeline on the chosen code;
- it converts any exception into a canned fallback text, records `last_error` and publishes the trace with
  `success = False`.

The controller stores the answer in the conversation, or replaces a fallback by its own canned message.
The workspace controller registers datasets in a workspace, builds their "head", and looks workspaces and
their datasets up.

Modules:

| file | module | models |
|---|---|---|
| `python_values.dfy` | `PyValues` | the Python values, exceptions and operations (`v[key]`, `key in v`, `len`) the code raises through |
| `code_execution_input.dfy` | `CodeExecutionInput` | the `CodeExecutionPipelineInput` record |
| `chat_pipeline_spec.dfy` | `ChatPipelineSpec` | what one call of each run mode does, as pure functions over an event trace; the step wiring; the judge loop; all properties of the orchestrator |
| `chat_pipeline.dfy` | `ChatPipeline` | the orchestrator as a class over a mutable context and tracker; each run mode is proved equal to its specification function |
| `pandas_connector.dfy` | `PandasConnectorModel` | `PandasConnector`: load dispatch, counts, column hash, SQL-enable flag |
| `chat_controller.dfy` | `ChatControllerModel` | `ChatController.chat` |
| `workspace_controller.dfy` | `WorkspaceControllerModel` | `WorkspaceController` |

How the model treats collaborators:

- Every collaborator whose code is not part of this model is a parameter:
  - the code-generation pipeline, a function of the attempt number and the scratch mapping, giving back a
    returned value or a raised exception and the new scratch mapping;
  - the code-execution pipeline, in the same form;
  - the judge, a yes/no oracle;
  - the logger's failure while dataframe rows are logged;
  - the error-correction pipeline;
  - pandas, the file importer, SHA-256 and the SQL engine;
  - the database loaders, `prepare_conv_memory` and the agent.
- The orchestrator keeps a ghost trace of everything it does. The properties are lemmas about the
  specification functions. The imperative methods are proved to produce exactly those traces, responses
  and states.
- Repositories are abstract maps:
  - conversations are keyed by id;
  - messages are kept per conversation;
  - datasets are keyed by an auto-incremented id;
  - workspace-dataset links are kept in creation order.

Three behaviours of the code that are easy to misread:

- In `run` the success publication (generate_chat_pipeline.py:382) comes before the row logging. If that
  logging raises, the except branch publishes again with `success = False`, so the publications are
  `[true, false]` (`RunPublishes`).
- `no_code` tests `context.get("last_code_generated") is None`. That holds when the key is absent, and
  also when it is stored with the value None (`NoCode`).
- `is_cached` returns the stored value itself, not a boolean. A step is skipped when that value is
  truthy (`GenerationSkipping`).

## Model

| member | source | states |
|---|---|---|
| `PyValues.Subscript` | pandasai/pipelines/chat/generate_chat_pipeline.py:384-385 | `v[key]` returns the entry exactly when `v` is a dict holding the key; a dict without it raises KeyError with the quoted key; any other value raises TypeError |
| `PyValues.Contains` | pandasai/pipelines/chat/generate_chat_pipeline.py:345 | `key in v` is key membership for a dict, substring search for a string and element membership for a list; it raises TypeError for anything else |
| `PyValues.Len` | pandasai/pipelines/chat/generate_chat_pipeline.py:386 | `len` succeeds exactly on strings, lists and dicts; on a list it is the number of items |
| `CodeExecutionInput.NewInput` | pandasai/pipelines/chat/code_execution_pipeline_input.py:18-31 | the constructor stores code, output type, conversation id and prompt id unchanged; `query` is always ""; the declared `instance` field is never assigned |
| `ChatPipelineSpec.IsCached` | pandasai/pipelines/chat/generate_chat_pipeline.py:167-168 | `is_cached` is the value stored under `found_in_cache`, or None when the key is absent |
| `ChatPipelineSpec.NoCode` | pandasai/pipelines/chat/generate_chat_pipeline.py:164-165 | `no_code` holds exactly when `last_code_generated` is absent or stored as None |
| `ChatPipelineSpec.GenerationSteps` | pandasai/pipelines/chat/generate_chat_pipeline.py:55-76 | the generation pipeline has six steps, from input validation to code cleaning, none of them twice |
| `ChatPipelineSpec.ExecutionSteps` | pandasai/pipelines/chat/generate_chat_pipeline.py:79-93 | the execution pipeline has three steps, from code execution to result parsing, none of them twice |
| `ChatPipelineSpec.GenerationSkipping` | pandasai/pipelines/chat/generate_chat_pipeline.py:59-76 | prompt generation, code generation and cache population are skipped exactly when a cache hit is recorded; cleaning is skipped exactly when there is no code; no other step ever skips |
| `ChatPipelineSpec.HookWiring` | pandasai/pipelines/chat/generate_chat_pipeline.py:71-93 | only cleaning and execution carry retry hooks; cleaning has the cleaning-failure hook and execution the execution-failure hook; the execution steps never skip |
| `ChatPipelineSpec.FallbackText` | pandasai/pipelines/chat/generate_chat_pipeline.py:404-408 | the fallback text starts with "Unfortunately, I was not able to", ends with a newline, and is the fixed head, `str(e)` and that newline in length |
| `ChatPipelineSpec.FallbackRoundTrip` | pandasai/pipelines/chat/generate_chat_pipeline.py:222-230 | the fallback text starts with the fixed apology head; `str(e)`, which is also what `last_error` records, can be recovered from it |
| `ChatPipelineSpec.JudgeFrom` | pandasai/pipelines/chat/generate_chat_pipeline.py:349-354 | with no budget left, the loop does nothing and hands on its candidate; when it raises, the exception is that of its last event, a regeneration |
| `ChatPipelineSpec.JudgeLoopBounds` | pandasai/pipelines/chat/generate_chat_pipeline.py:349-354 | the loop only regenerates and consults the judge; it consults the judge at most `max_retries` times and regenerates at most once per consultation; it never executes or publishes |
| `ChatPipelineSpec.JudgeLoopStopsAtAcceptance` | pandasai/pipelines/chat/generate_chat_pipeline.py:350-352 | every recorded verdict is the judge's own answer; only the last consultation can be an acceptance, and its candidate is the one the loop hands on |
| `ChatPipelineSpec.JudgeLoopKeepsLastCandidate` | pandasai/pipelines/chat/generate_chat_pipeline.py:349-356 | the candidate the loop hands on is the result of the most recent regeneration, or the entry candidate when there was none |
| `ChatPipelineSpec.JudgeLoopAlwaysRejecting` | pandasai/pipelines/chat/generate_chat_pipeline.py:349-354 | with an always-rejecting judge and a generator that never fails, the loop spends the whole budget: exactly one consultation and one regeneration per retry, and it hands on a candidate |
| `ChatPipelineSpec.JudgeLoopRejectingEnds` | pandasai/pipelines/chat/generate_chat_pipeline.py:349-354 | in that situation, with budget left, the loop's last event is regeneration attempt `max_retries`, and its result is the candidate handed on |
| `ChatPipelineSpec.InspectRows` | pandasai/pipelines/chat/generate_chat_pipeline.py:345-348 | the `'rows'` diagnostic (here and at lines 368-371) raises unless the output is a dict with a `value` entry; for a dict value it passes exactly when `rows` is absent or has a length |
| `ChatPipelineSpec.RowLogging` | pandasai/pipelines/chat/generate_chat_pipeline.py:384-390 | the row logging raises when the output has no readable `type`; it never raises for a non-dataframe result; for a dataframe it raises with the logger's fault when the rows can be measured, and raises anyway when they cannot |
| `ChatPipelineSpec.Seed` | pandasai/pipelines/chat/generate_chat_pipeline.py:333-338 | after the reset and `add_many`, the scratch mapping holds exactly `output_type` and `last_prompt_id`, with the input's values |
| `ChatPipelineSpec.GenerateCodeSpec` | pandasai/pipelines/chat/generate_chat_pipeline.py:173-230 | `run_generate_code` records an error exactly when generation raised, and then responds with the fallback text for it |
| `ChatPipelineSpec.ExecuteCodeSpec` | pandasai/pipelines/chat/generate_chat_pipeline.py:232-287 | `run_execute_code` records an error exactly when the execution of the input's code raised, and then responds with the fallback text for it |
| `ChatPipelineSpec.RunSpec` | pandasai/pipelines/chat/generate_chat_pipeline.py:289-408 | `run` responds with the fallback text for the error it records; when it records none, the pipelines returned the response itself |
| `ChatPipelineSpec.RunSpecSplits` | pandasai/pipelines/chat/generate_chat_pipeline.py:341-408 | `run` consists of its prelude, then the try-block's pipelines, then an ending fixed by how they ended and by the row logging; all publications happen in that ending |
| `ChatPipelineSpec.JudgedPathEvents` | pandasai/pipelines/chat/generate_chat_pipeline.py:345-356 | after the first candidate, the judge path publishes nothing, consults and regenerates at most `max_retries` times each, and, when it returns, ends with its one execution, whose result it returns |
| `ChatPipelineSpec.DirectPathEvents` | pandasai/pipelines/chat/generate_chat_pipeline.py:362-371 | after generation, the combined pipeline's path runs exactly the execution and, when it returns, returns that execution's result |
| `ChatPipelineSpec.EndingEvents` | pandasai/pipelines/chat/generate_chat_pipeline.py:380-408 | the ending publishes `[False]` after a raise, `[True]` after a clean return, `[True, False]` when the row logging raises; the error and the response follow the same three cases |
| `ChatPipelineSpec.RunPipelinesEvents` | pandasai/pipelines/chat/generate_chat_pipeline.py:341-371 | the try-block starts with generation on the seeded scratch and never publishes; without a judge it generates once and never consults; with one, the bounds hold; when it returns, it ends with the one execution, whose result it returns |
| `ChatPipelineSpec.RunPrelude` | pandasai/pipelines/chat/generate_chat_pipeline.py:306-338 | `run` resets the scratch and starts a track before anything else, then adds the query to memory and seeds the scratch; the first pipeline sees exactly the seed |
| `ChatPipelineSpec.GenerateCodePrelude` | pandasai/pipelines/chat/generate_chat_pipeline.py:186-204 | `run_generate_code` takes the same prelude with the query, then runs generation on the seed |
| `ChatPipelineSpec.ExecuteCodePrelude` | pandasai/pipelines/chat/generate_chat_pipeline.py:245-263 | `run_execute_code` adds the code, not the query, to memory, then executes that code on the seed |
| `ChatPipelineSpec.PreludeIsBookkeeping` | pandasai/pipelines/chat/generate_chat_pipeline.py:306-338 | the prelude runs no pipeline, consults no judge and publishes nothing |
| `ChatPipelineSpec.RunPublishes` | pandasai/pipelines/chat/generate_chat_pipeline.py:380-408 | no exception escapes; success publishes `[true]` and returns the pipelines' output; a pipeline failure publishes `[false]`, and the caught error is the pipelines' error; a failure in the row logging publishes `[true, false]`; the response on failure is the fallback text; the last flag tells which |
| `ChatPipelineSpec.GenerateCodePublishes` | pandasai/pipelines/chat/generate_chat_pipeline.py:207-230 | `run_generate_code` publishes once, with success exactly when generation returned; it returns the output, or the fallback for the caught exception |
| `ChatPipelineSpec.ExecuteCodePublishes` | pandasai/pipelines/chat/generate_chat_pipeline.py:264-287 | `run_execute_code` likewise, for execution of the input's code |
| `ChatPipelineSpec.RunJudgeBounds` | pandasai/pipelines/chat/generate_chat_pipeline.py:341-356 | one judged `run` generates at most `max_retries + 1` times and consults the judge at most `max_retries` times; with `max_retries <= 0` it never consults it |
| `ChatPipelineSpec.JudgedPathExecutesLast` | pandasai/pipelines/chat/generate_chat_pipeline.py:345-356 | after a generation of candidate `code`, the judge path executes at most once, last, on the most recently generated candidate |
| `ChatPipelineSpec.RunExecutesLastCandidate` | pandasai/pipelines/chat/generate_chat_pipeline.py:349-356 | on the judge path, execution happens at most once, as the last pipeline run, on the most recently generated candidate |
| `ChatPipelineSpec.RunAlwaysRejecting` | pandasai/pipelines/chat/generate_chat_pipeline.py:343-356 | with an always-rejecting judge and pipelines that never fail, generation runs exactly `max_retries + 1` times, the judge is consulted `max_retries` times, and the final candidate, never evaluated, is the one executed |
| `ChatPipeline.Tracker.StartNewTrack` | pandasai/pipelines/chat/generate_chat_pipeline.py:310 | starting a track counts one more trace and changes nothing else the model tracks |
| `ChatPipeline.Tracker.AddStep` | pandasai/pipelines/chat/generate_chat_pipeline.py:130 | appends one step record |
| `ChatPipeline.Tracker.Publish` | pandasai/pipelines/chat/generate_chat_pipeline.py:382 | records one publication carrying the current success flag |
| `ChatPipeline.PipelineContext.ResetIntermediateValues` | pandasai/pipelines/chat/generate_chat_pipeline.py:307 | empties the scratch mapping; memory unchanged |
| `ChatPipeline.PipelineContext.AddMany` | pandasai/pipelines/chat/generate_chat_pipeline.py:333-338 | merges values into the scratch mapping |
| `ChatPipeline.PipelineContext.AddToMemory` | pandasai/pipelines/chat/generate_chat_pipeline.py:331 | appends one turn to memory |
| `ChatPipeline.GenerateChatPipeline.constructor` | pandasai/pipelines/chat/generate_chat_pipeline.py:115-117 | `last_error` is None after construction; the tracker is new and empty |
| `ChatPipeline.GenerateChatPipeline.OnCodeExecutionFailure` | pandasai/pipelines/chat/generate_chat_pipeline.py:119-142 | appends exactly one step (CodeExecution, success False, "Failed to execute code", execution time None, the given code and exception) and changes nothing else |
| `ChatPipeline.GenerateChatPipeline.OnCodeCleaningFailure` | pandasai/pipelines/chat/generate_chat_pipeline.py:144-158 | the same for CodeCleaning with "Failed to clean code" |
| `ChatPipeline.GenerateChatPipeline.OnCodeRetry` | pandasai/pipelines/chat/generate_chat_pipeline.py:160-162 | returns the error-correction pipeline's result for the input `(code, exception)` |
| `ChatPipeline.GenerateChatPipeline.Prepare` | pandasai/pipelines/chat/generate_chat_pipeline.py:306-338 | reset, track start, memory turn and seeding; afterwards the scratch mapping is exactly the seed; `last_error`, the steps and the publications are unchanged |
| `ChatPipeline.GenerateChatPipeline.InvokeGeneration` | pandasai/pipelines/chat/generate_chat_pipeline.py:343 | one generation run on the current scratch; the scratch becomes what the run leaves |
| `ChatPipeline.GenerateChatPipeline.InvokeExecution` | pandasai/pipelines/chat/generate_chat_pipeline.py:356 | one execution run of the given code on the current scratch |
| `ChatPipeline.GenerateChatPipeline.Fail` | pandasai/pipelines/chat/generate_chat_pipeline.py:394-408 | sets `last_error = str(e)`, publishes with success False and returns the fallback text |
| `ChatPipeline.GenerateChatPipeline.Succeed` | pandasai/pipelines/chat/generate_chat_pipeline.py:380-382 | publishes with success True; `last_error` unchanged |
| `ChatPipeline.GenerateChatPipeline.RunGenerateCode` | pandasai/pipelines/chat/generate_chat_pipeline.py:173-230 | response, trace, scratch, memory, publications, success flag and `last_error` are those of `GenerateCodeSpec`; `last_error` changes only when an exception was caught |
| `ChatPipeline.GenerateChatPipeline.RunExecuteCode` | pandasai/pipelines/chat/generate_chat_pipeline.py:232-287 | the same against `ExecuteCodeSpec`; memory gains the code |
| `ChatPipeline.GenerateChatPipeline.JudgeLoop` | pandasai/pipelines/chat/generate_chat_pipeline.py:349-354 | the `while` loop's outcome, trace and final scratch are those of `JudgeFrom` from retry 0 |
| `ChatPipeline.GenerateChatPipeline.JudgedBody` | pandasai/pipelines/chat/generate_chat_pipeline.py:345-356 | the judge path's `'rows'` diagnostic, loop and execution, with the outcome, trace and scratch of `JudgedPath` |
| `ChatPipeline.GenerateChatPipeline.DirectBody` | pandasai/pipelines/chat/generate_chat_pipeline.py:362-371 | the combined pipeline's execution half and its `'rows'` diagnostic, with the outcome, trace and scratch of `DirectPath` |
| `ChatPipeline.GenerateChatPipeline.RunPipelinesBody` | pandasai/pipelines/chat/generate_chat_pipeline.py:341-371 | the try-block's pipelines, judge path and combined path, including the `'rows'` diagnostics, equal `RunPipelines` |
| `ChatPipeline.GenerateChatPipeline.Conclude` | pandasai/pipelines/chat/generate_chat_pipeline.py:380-408 | the ending of `run`: publication, the row logging of a dataframe result, and the fallback, as `Finish` prescribes |
| `ChatPipeline.GenerateChatPipeline.Run` | pandasai/pipelines/chat/generate_chat_pipeline.py:289-408 | response, trace, scratch, memory, publications, success flag and `last_error` are those of `RunSpec` |
| `PandasConnectorModel.ToFrame` | pandasai/connectors/pandas.py:65-66 | a series becomes a one-column frame named after it, with one row per value |
| `PandasConnectorModel.Load` | pandasai/connectors/pandas.py:58-79 | a series is converted, a dataframe kept, a list or dict built (its failure becomes the ValueError), a string imported as a path, and anything else rejected with the ValueError |
| `PandasConnectorModel.LoadFailures` | pandasai/connectors/pandas.py:69-79 | loading fails only with that ValueError or an importer exception, and the ValueError is raised exactly for a failed conversion or an unsupported type |
| `PandasConnectorModel.LoadIdempotent` | pandasai/connectors/pandas.py:67-68 | loading the loaded frame again gives the same frame |
| `PandasConnectorModel.RowsCount` | pandasai/connectors/pandas.py:115-121 | `rows_count` is the number of rows of the frame |
| `PandasConnectorModel.ColumnsCount` | pandasai/connectors/pandas.py:123-129 | `columns_count` is the number of column labels |
| `PandasConnectorModel.ColumnHash` | pandasai/connectors/pandas.py:131-139 | the digest of the column labels joined with no separator |
| `PandasConnectorModel.SeriesCounts` | pandasai/connectors/pandas.py:115-129 | a loaded series has one column and as many rows as values |
| `PandasConnectorModel.ColumnHashOnlyColumns` | pandasai/connectors/pandas.py:131-139 | the hash depends only on the concatenated column names, not on rows |
| `PandasConnectorModel.ColumnHashIgnoresSplit` | pandasai/connectors/pandas.py:137-139 | with no separator, columns `x, y` and the single column `xy` hash alike |
| `PandasConnectorModel.ColumnHashCollision` | pandasai/connectors/pandas.py:137-139 | `["ab","c"]` and `["a","bc"]` collide, whatever the rows |
| `PandasConnectorModel.ChooseTable` | pandasai/connectors/pandas.py:169-172 | raises "Table name not found!" exactly when both the argument and the name are falsy; otherwise the argument when truthy, else the name |
| `PandasConnectorModel.PandasConnector.Empty` | pandasai/connectors/pandas.py:42-56 | a placeholder for the half-built object inside `__init__`, before `_load_df` and the `sql_enabled` assignment; its field values are unobservable, since `Create` overwrites both or never returns the object |
| `PandasConnectorModel.PandasConnector.LoadDf` | pandasai/connectors/pandas.py:58-79 | `pandas_df` becomes what `Load` gives, or stays unchanged when it raises |
| `PandasConnectorModel.PandasConnector.Create` | pandasai/connectors/pandas.py:42-56 | construction succeeds exactly when loading does, and gives a connector with SQL off |
| `PandasConnectorModel.PandasConnector.CsTableName` | pandasai/connectors/pandas.py:186-188 | `cs_table_name` is the name |
| `PandasConnectorModel.PandasConnector.EnableSqlQuery` | pandasai/connectors/pandas.py:166-177 | on success, SQL is on and the name (and `cs_table_name`) is the chosen table; on the missing-name error or a failed registration, the flag and name stay unchanged |
| `PandasConnectorModel.PandasConnector.ExecuteDirectSqlQuery` | pandasai/connectors/pandas.py:179-184 | SQL is enabled, with the connector's own name, only when it is off; an already enabled connector never enables again |
| `ChatControllerModel.TableQuery` | app/controllers/chat.py:90 | the query is "SELECT * FROM " followed by the table name |
| `ChatControllerModel.TryConnector` | app/controllers/chat.py:92-110 | a dataset yields a connector exactly when its rows load and, if it has a head, the head loads; the connector carries the dataset's fields |
| `ChatControllerModel.Connectors` | app/controllers/chat.py:87-110 | the connector list has at most one entry per dataset |
| `ChatControllerModel.ConnectorsAreSuccessfulLoads` | app/controllers/chat.py:87-110 | the list has at most one entry per dataset, in dataset order; a dataset has an entry exactly when its loads succeeded |
| `ChatControllerModel.ConnectorsWhenAllLoad` | app/controllers/chat.py:87-110 | when every load succeeds, the list has one connector per dataset, in order |
| `ChatControllerModel.BuildConnectors` | app/controllers/chat.py:87-110 | the loop, skipping failed loads, builds exactly `Connectors` |
| `ChatControllerModel.PlotDirectory` | app/controllers/chat.py:112 | the plot path is the project root, then "/exports/", then the conversation id, which can be read back from it |
| `ChatControllerModel.AgentConfigFor` | app/controllers/chat.py:114-123 | the cache is always off; charts are saved to the plot path; the llm is set exactly when an API key is present |
| `ChatControllerModel.IsFallbackResponse` | app/controllers/chat.py:134-136 | a response is a fallback exactly when it is a string whose first characters are "Unfortunately, I was not able to" |
| `ChatControllerModel.OrchestratorFallbackRecognised` | app/controllers/chat.py:134-136 | every fallback text of the orchestrator starts with "Unfortunately, I was not able to" |
| `ChatControllerModel.FailedRunRecognised` | app/controllers/chat.py:134-143 | whenever `run` caught an exception, the controller classifies its response as a fallback |
| `ChatControllerModel.FallbackItem` | app/controllers/chat.py:137-143 | the replacement item is `{type: "string", message: M, value: M}` |
| `ChatControllerModel.ConversationIdFor` | app/controllers/chat.py:56-62 | the request's id when it has one, otherwise the id of the newly created conversation |
| `ChatControllerModel.MemoryFor` | app/controllers/chat.py:57-70 | memory is built only for an existing conversation, and handed to the agent only when truthy |
| `ChatControllerModel.ChatController.constructor` | app/controllers/chat.py:31-40 | the injected conversation and message repositories are kept as given; no agent has been called yet |
| `ChatControllerModel.ChatController.StartNewConversation` | app/controllers/chat.py:42-49 | creates one conversation for the request's workspace and the user |
| `ChatControllerModel.ChatController.Chat` | app/controllers/chat.py:51-158 | a conversation is created exactly when the request has no id; the agent gets the connector list, configuration and memory above; a fallback answer returns the one fallback item and stores no message; any other answer stores one message and returns it |
| `WorkspaceControllerModel.Keys` | app/controllers/workspace.py:50 | the keys of a record, in order |
| `WorkspaceControllerModel.Values` | app/controllers/workspace.py:51 | the values of a record, in order |
| `WorkspaceControllerModel.HeadRows` | app/controllers/workspace.py:51 | the rows are the value lists of the first `min(5, n)` records, in order |
| `WorkspaceControllerModel.Head` | app/controllers/workspace.py:50-56 | the head holds exactly `headers`, the first record's keys, and `rows` |
| `WorkspaceControllerModel.HeadOnlyFirstFive` | app/controllers/workspace.py:51 | the head depends only on the first five records |
| `WorkspaceControllerModel.HeadRowShape` | app/controllers/workspace.py:51 | each head row has its record's values, one per field, in order |
| `WorkspaceControllerModel.OrganizationOf` | app/controllers/workspace.py:33 | `user.memberships[0]` raises IndexError exactly when the user has no membership |
| `WorkspaceControllerModel.DbDataset` | app/controllers/workspace.py:57-69 | the one POSTGRES dataset: named loan_payments_data, with the same table name, the fixed description and query, and the head |
| `WorkspaceControllerModel.CsvDataset` | app/controllers/workspace.py:31-41 | a CSV dataset whose config holds exactly `file_path` and `file_name`, or the first exception in Python's evaluation order: IndexError without a membership, then KeyError for `file_name`, `file_path`, `head` |
| `WorkspaceControllerModel.DatasetsInLink` | app/controllers/workspace.py:42-44 | linking a dataset appends it to that workspace's list and leaves every other list alone |
| `WorkspaceControllerModel.WorkspaceController.constructor` | app/controllers/workspace.py:12-19 | the injected workspace, dataset and link repositories are kept as given, with what they already hold |
| `WorkspaceControllerModel.WorkspaceController.CreateAndLink` | app/controllers/workspace.py:42-44 | creates the dataset under a fresh id and links it to the workspace |
| `WorkspaceControllerModel.WorkspaceController.AddCsvDatasets` | app/controllers/workspace.py:26-44 | creates and links one dataset per input, in order, up to the first input that raises; the workspace's list grows by exactly those records; other workspaces are unchanged |
| `WorkspaceControllerModel.WorkspaceController.AddDatasetsFromDb` | app/controllers/workspace.py:46-72 | nothing for an empty list; otherwise exactly one POSTGRES dataset, linked to the workspace, or IndexError with nothing created |
| `WorkspaceControllerModel.WorkspaceController.GetWorkspaceById` | app/controllers/workspace.py:76-83 | the workspace, or 404 "Workspace with id: {id} was not found" exactly when it is missing |
| `WorkspaceControllerModel.WorkspaceController.GetWorkspaceDatasets` | app/controllers/workspace.py:93-101 | first the workspace's 404; then 404 "No dataset found. Please restart the server and try again" for an empty list; otherwise the workspace's datasets |
| `WorkspaceControllerModel.FirstFailure` | app/controllers/workspace.py:30-41 | the position of the first input that does not convert: every input before it converts |
| `WorkspaceControllerModel.CsvRecordsShape` | app/controllers/workspace.py:30-44 | when every input converts, there is one CSV record per input, in order, each with a config holding exactly the file path and the file name |

## Left out

- Staged-pipeline internals are not part of this model. That covers the `Pipeline` engine, the
  cache-lookup, prompt, code-generator, cleaning, execution, validation and parsing steps, and the
  error-correction pipeline. A pipeline run is an outcome supplied by the caller. The `|` composition in
  `run` is modelled as generation followed by execution of its output.
- `QueryExecTracker`, `PipelineContext` and `Memory` are not part of this model. Only the fields the
  orchestrator writes are modelled. What `start_new_track`, `add_skills` and `add_dataframes` do to the
  tracker's own state is not captured: the model only counts the tracks.
- `ChatPipeline.GenerateChatPipeline.RunGenerateCode`, `ChatPipeline.GenerateChatPipeline.RunExecuteCode`,
  `ChatPipeline.GenerateChatPipeline.Run`: the steps that the cleaning and execution failure hooks
  (`on_code_cleaning_failure`, `on_code_execution_failure`) append while a pipeline run is in progress are
  not modelled, because a pipeline run is an outcome supplied by the caller. Their contracts keep the
  tracker's step list unchanged, which holds for what the orchestrator does itself.
  `OnCodeCleaningFailure` and `OnCodeExecutionFailure` state what the hooks append when they are called.
- `ChatPipelineSpec.Get`: `PipelineContext.get` is taken to return None for an absent key.
- The judge is a yes/no oracle that never raises. An exception from `judge.evaluate` would be caught like
  any other, and is not modelled.
- The third branch of `run`, for a falsy code-execution pipeline, is left out: the constructor always sets
  that pipeline, so the branch is unreachable.
- The logger calls and the per-dataframe `print` loop before the try-block are treated as not raising.
  Inside the try, only the row logging after the success publication may raise (the `rowLogFault`
  collaborator). Console output and tracebacks are left out.
- The texts of CPython's `TypeError` messages are approximations. Their kinds, and the KeyError texts,
  follow Python.
- `head`, `execute`, `equals`, `path`, `fallback_name`, `type` and `_load_connector_config` of the
  connector are left out: they delegate to libraries (DataSampler, pydantic) or do nothing.
- Pandas, duckdb, sqlglot and the file importer are collaborators.
- `PandasConnectorModel.ToFrame`: an unnamed series (pandas names its column 0) is not modelled.
- Column labels are strings, so the TypeError that `"".join` raises on a non-string label is not modelled.
- `ChatControllerModel.ChatController.Chat`: the connector objects are represented by their constructor
  arguments, because a connector built from a dataframe cannot fail to load (`Load`).
- `ChatControllerModel.ChatController.Chat`: `jsonable_encoder([response])` is taken to be the one-element
  list.
- `ChatControllerModel.ChatController.Chat`: removing the plot directory is left out.
- Ids the database assigns (new conversations, messages) are inputs; ids are not proved unique.
- `@Transactional` rollback is left out: an exception in `add_csv_datasets` leaves the datasets created
  before it in place, as the loop itself does. Async scheduling is left out.
- `WorkspaceController.get_workspace_users` and `reset_space_datasets` are left out: they only delegate
  to the repository.
- `start_new_conversation`'s repository record and `get_space_datasets` are abstract maps. A workspace
  without datasets has the empty list.
- `WorkspaceControllerModel.Keys`, `WorkspaceControllerModel.Values`: a record is a sequence of (column,
  value) pairs. The uniqueness of dict keys is not imposed.
