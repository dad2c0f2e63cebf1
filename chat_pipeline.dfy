/**
 * The chat pipeline orchestrator as an object whose methods update state in
 * place (pandasai/pipelines/chat/generate_chat_pipeline.py): the pipeline
 * context, the query tracker, `last_error`, and a ghost log of everything the
 * orchestrator did, each run proved equal to its specification in ChatPipelineSpec.
 */
module ChatPipeline {
  import opened PyValues
  import opened CodeExecutionInput
  import opened ChatPipelineSpec

  /** One conversation turn in memory. */
  datatype Turn = Turn(text: string, isUser: bool)

  /** The payload of a tracker step recorded by a failure hook. */
  datatype StepData = StepData(contentType: string, value: string, exception: Exc)

  /** A step record of the query tracker; `executionTime` None stands for Python None. */
  datatype TrackStep = TrackStep(stepType: string, success: bool, message: string, executionTime: Option<int>, data: StepData)

  /**
   * `ErrorCorrectionPipelineInput(code, exception)`. The error-correction
   * pipeline itself is not part of this model.
   */
  datatype ErrorCorrectionInput = ErrorCorrectionInput(code: string, exception: Exc)

  /**
   * The query tracker (QueryExecTracker is not part of this model): the fields
   * the orchestrator writes, and the success flag of each publication.
   */
  class Tracker {
    var steps: seq<TrackStep>
    var success: bool
    var published: seq<bool>
    var tracks: nat

    constructor ()
      ensures steps == [] && !success && published == [] && tracks == 0
    {
      steps, success, published, tracks := [], false, [], 0;
    }

    method StartNewTrack()
      modifies this
      ensures tracks == old(tracks) + 1
      ensures steps == old(steps) && success == old(success) && published == old(published)
    {
      tracks := tracks + 1;
    }

    method AddStep(step: TrackStep)
      modifies this
      ensures steps == old(steps) + [step]
      ensures success == old(success) && published == old(published) && tracks == old(tracks)
    {
      steps := steps + [step];
    }

    /** Sends the trace, with the current success flag. */
    method Publish()
      modifies this
      ensures published == old(published) + [success]
      ensures steps == old(steps) && success == old(success) && tracks == old(tracks)
    {
      published := published + [success];
    }
  }

  /** The pipeline context (PipelineContext is not part of this model): scratch values, memory, retry bound. */
  class PipelineContext {
    var scratch: Scratch
    var memory: seq<Turn>
    const maxRetries: int

    constructor (maxRetries: int, memory: seq<Turn>)
      ensures this.maxRetries == maxRetries && this.memory == memory && scratch == map[]
    {
      this.maxRetries := maxRetries;
      this.memory := memory;
      scratch := map[];
    }

    method ResetIntermediateValues()
      modifies this
      ensures scratch == map[] && memory == old(memory)
    {
      scratch := map[];
    }

    method AddMany(values: Scratch)
      modifies this
      ensures scratch == old(scratch) + values && memory == old(memory)
    {
      scratch := scratch + values;
    }

    method AddToMemory(text: string, isUser: bool)
      modifies this
      ensures memory == old(memory) + [Turn(text, isUser)] && scratch == old(scratch)
    {
      memory := memory + [Turn(text, isUser)];
    }
  }

  class GenerateChatPipeline {
    const context: PipelineContext
    const tracker: Tracker
    const judge: Option<Judge>
    var lastError: Option<string>
    /** Everything this orchestrator has done, in order. */
    ghost var events: seq<Event>

    constructor (context: PipelineContext, judge: Option<Judge>)
      ensures this.context == context && this.judge == judge && fresh(tracker)
      ensures tracker.steps == [] && tracker.published == [] && tracker.tracks == 0
      ensures lastError.None? && events == []
    {
      this.context := context;
      this.judge := judge;
      tracker := new Tracker();
      lastError := None;
      events := [];
    }

    /** `on_code_execution_failure`: records one failed CodeExecution step and changes nothing else. */
    method OnCodeExecutionFailure(code: string, errors: Exc)
      modifies tracker
      ensures tracker.steps == old(tracker.steps) +
        [TrackStep("CodeExecution", false, "Failed to execute code", None, StepData("code", code, errors))]
      ensures tracker.success == old(tracker.success) && tracker.published == old(tracker.published)
      ensures tracker.tracks == old(tracker.tracks)
    {
      tracker.AddStep(TrackStep("CodeExecution", false, "Failed to execute code", None, StepData("code", code, errors)));
    }

    /** `on_code_cleaning_failure`: records one failed CodeCleaning step and changes nothing else. */
    method OnCodeCleaningFailure(code: string, errors: Exc)
      modifies tracker
      ensures tracker.steps == old(tracker.steps) +
        [TrackStep("CodeCleaning", false, "Failed to clean code", None, StepData("code", code, errors))]
      ensures tracker.success == old(tracker.success) && tracker.published == old(tracker.published)
      ensures tracker.tracks == old(tracker.tracks)
    {
      tracker.AddStep(TrackStep("CodeCleaning", false, "Failed to clean code", None, StepData("code", code, errors)));
    }

    /**
     * `on_code_retry`: hands the faulty code and its exception to the
     * error-correction pipeline (a collaborator) and returns what it gives back.
     */
    method OnCodeRetry(code: string, exception: Exc, correction: ErrorCorrectionInput -> Outcome) returns (r: Outcome)
      ensures r == correction(ErrorCorrectionInput(code, exception))
    {
      var correctionInput := ErrorCorrectionInput(code, exception);
      r := correction(correctionInput);
    }

    /** The steps every mode takes before its try-block. */
    method Prepare(memoryText: string, outputType: Value, promptId: Value)
      modifies this, context, tracker
      ensures events == old(events) + Prelude(memoryText, Seed(outputType, promptId))
      ensures context.scratch == Seed(outputType, promptId)
      ensures context.memory == old(context.memory) + [Turn(memoryText, true)]
      ensures tracker.tracks == old(tracker.tracks) + 1
      ensures tracker.steps == old(tracker.steps) && tracker.published == old(tracker.published)
      ensures tracker.success == old(tracker.success) && lastError == old(lastError)
    {
      context.ResetIntermediateValues();
      events := events + [ResetScratch];
      tracker.StartNewTrack();
      events := events + [StartTrack, AddSkills, AddDataframes];
      context.AddToMemory(memoryText, true);
      events := events + [MemoryAdd(memoryText, true)];
      var seed := map["output_type" := outputType, "last_prompt_id" := promptId];
      assert seed == Seed(outputType, promptId);
      context.AddMany(seed);
      events := events + [AddMany(seed)];
      assert events == old(events) + Prelude(memoryText, seed);
    }

    /** One run of the code-generation pipeline on the current context. */
    method InvokeGeneration(attempt: nat, env: Collaborators) returns (o: Outcome)
      modifies this, context
      ensures var g := env.generate(attempt, old(context.scratch));
        o == g.outcome && context.scratch == g.scratch
        && events == old(events) + [Generate(attempt, old(context.scratch), g.outcome)]
      ensures context.memory == old(context.memory) && lastError == old(lastError)
    {
      var g := env.generate(attempt, context.scratch);
      events := events + [Generate(attempt, context.scratch, g.outcome)];
      context.scratch := g.scratch;
      o := g.outcome;
    }

    /** One run of the code-execution pipeline on `code` and the current context. */
    method InvokeExecution(code: Value, env: Collaborators) returns (o: Outcome)
      modifies this, context
      ensures var x := env.execute(code, old(context.scratch));
        o == x.outcome && context.scratch == x.scratch
        && events == old(events) + [Execute(code, old(context.scratch), x.outcome)]
      ensures context.memory == old(context.memory) && lastError == old(lastError)
    {
      var x := env.execute(code, context.scratch);
      events := events + [Execute(code, context.scratch, x.outcome)];
      context.scratch := x.scratch;
      o := x.outcome;
    }

    /** The except branch shared by every mode. */
    method Fail(e: Exc) returns (response: Value)
      modifies this, tracker
      ensures response == Str(FallbackText(e))
      ensures lastError == Some(e.text)
      ensures events == old(events) + [Publish(false)]
      ensures !tracker.success && tracker.published == old(tracker.published) + [false]
      ensures tracker.steps == old(tracker.steps) && tracker.tracks == old(tracker.tracks)
    {
      lastError := Some(e.text);
      tracker.success := false;
      tracker.Publish();
      events := events + [Publish(false)];
      response := Str(FallbackText(e));
    }

    /** The success publication shared by every mode. */
    method Succeed()
      modifies this, tracker
      ensures events == old(events) + [Publish(true)] && lastError == old(lastError)
      ensures tracker.success && tracker.published == old(tracker.published) + [true]
      ensures tracker.steps == old(tracker.steps) && tracker.tracks == old(tracker.tracks)
    {
      tracker.success := true;
      tracker.Publish();
      events := events + [Publish(true)];
    }

    /** `run_generate_code`. */
    method RunGenerateCode(input: ChatPipelineInput, env: Collaborators) returns (response: Value)
      modifies this, context, tracker
      ensures var e := GenerateCodeSpec(input, env);
        && response == e.response
        && events == old(events) + e.events
        && context.scratch == e.scratch
        && context.memory == old(context.memory) + [Turn(input.query, true)]
        && tracker.published == old(tracker.published) + Publishes(e.events)
        && tracker.success == e.error.None?
        && tracker.tracks == old(tracker.tracks) + 1 && tracker.steps == old(tracker.steps)
        && lastError == (if e.error.Some? then Some(e.error.value.text) else old(lastError))
    {
      ghost var e := GenerateCodeSpec(input, env);
      GenerateCodePublishes(input, env);
      Prepare(input.query, input.outputType, input.promptId);
      var output := InvokeGeneration(0, env);
      if output.Raised? {
        response := Fail(output.error);
      } else {
        Succeed();
        response := output.value;
      }
    }

    /** `run_execute_code`. */
    method RunExecuteCode(input: CodeExecutionPipelineInput, env: Collaborators) returns (response: Value)
      modifies this, context, tracker
      ensures var e := ExecuteCodeSpec(input, env);
        && response == e.response
        && events == old(events) + e.events
        && context.scratch == e.scratch
        && context.memory == old(context.memory) + [Turn(input.code, true)]
        && tracker.published == old(tracker.published) + Publishes(e.events)
        && tracker.success == e.error.None?
        && tracker.tracks == old(tracker.tracks) + 1 && tracker.steps == old(tracker.steps)
        && lastError == (if e.error.Some? then Some(e.error.value.text) else old(lastError))
    {
      ghost var e := ExecuteCodeSpec(input, env);
      ExecuteCodePublishes(input, env);
      Prepare(input.code, Str(input.outputType), UuidObject(input.promptId));
      var output := InvokeExecution(Str(input.code), env);
      if output.Raised? {
        response := Fail(output.error);
      } else {
        Succeed();
        response := output.value;
      }
    }

    /**
     * The judge loop of `run` (lines 349-354), entered with the first candidate:
     * its events, outcome and final scratch are those of JudgeFrom.
     */
    method JudgeLoop(query: string, j: Judge, first: Value, env: Collaborators) returns (outcome: Outcome)
      modifies this, context
      ensures var l := JudgeFrom(query, context.maxRetries, j, env.generate, first, 0, old(context.scratch));
        outcome == l.outcome && events == old(events) + l.events && context.scratch == l.scratch
      ensures context.memory == old(context.memory) && lastError == old(lastError)
    {
      ghost var whole := JudgeFrom(query, context.maxRetries, j, env.generate, first, 0, context.scratch);
      ghost var before := events;
      var code := first;
      var retryCount: nat := 0;
      var stopped := false;
      outcome := Returned(code);
      while !stopped && retryCount < context.maxRetries
        invariant context.memory == old(context.memory) && lastError == old(lastError)
        invariant stopped ==> events == before + whole.events && outcome == whole.outcome && context.scratch == whole.scratch
        invariant !stopped ==> outcome == Returned(code)
        invariant !stopped ==>
          var rest := JudgeFrom(query, context.maxRetries, j, env.generate, code, retryCount, context.scratch);
          events + rest.events == before + whole.events && rest.outcome == whole.outcome && rest.scratch == whole.scratch
        decreases !stopped, Budget(context.maxRetries, retryCount)
      {
        ghost var s0 := context.scratch;
        ghost var e0 := events;
        ghost var rest := JudgeFrom(query, context.maxRetries, j, env.generate, code, retryCount, s0);
        var accepted := j(query, code);
        events := events + [Evaluate(code, accepted)];
        if accepted {
          assert rest.events == [Evaluate(code, true)];
          stopped := true;
        } else {
          ghost var g := env.generate(retryCount + 1, s0);
          ghost var head := [Evaluate(code, false), Generate(retryCount + 1, s0, g.outcome)];
          var next := InvokeGeneration(retryCount + 1, env);
          assert events == e0 + head;
          retryCount := retryCount + 1;
          if next.Raised? {
            assert rest == Segment(next, head, g.scratch);
            outcome := next;
            stopped := true;
          } else {
            code := next.value;
            ghost var tail := JudgeFrom(query, context.maxRetries, j, env.generate, code, retryCount, context.scratch);
            assert rest == Segment(tail.outcome, head + tail.events, tail.scratch);
            assert e0 + (head + tail.events) == events + tail.events;
            outcome := Returned(code);
          }
        }
      }
    }

    /** The judge path of the try-block, after the first generation returned `code`. */
    method JudgedBody(query: string, j: Judge, code: Value, env: Collaborators) returns (outcome: Outcome)
      modifies this, context
      ensures var b := JudgedPath(query, context.maxRetries, j, env, code, old(context.scratch));
        outcome == b.outcome && events == old(events) + b.events && context.scratch == b.scratch
      ensures context.memory == old(context.memory) && lastError == old(lastError)
    {
      var problem := InspectRows(code);
      if problem.Some? {
        return Raised(problem.value);
      }
      ghost var loop := JudgeFrom(query, context.maxRetries, j, env.generate, code, 0, context.scratch);
      var chosen := JudgeLoop(query, j, code, env);
      if chosen.Raised? {
        return chosen;
      }
      ghost var x := ExecutionSegment(env.execute, chosen.value, context.scratch);
      outcome := InvokeExecution(chosen.value, env);
      assert events == old(events) + (loop.events + x.events);
    }

    /** The combined pipeline's path of the try-block, after the first generation returned `code`. */
    method DirectBody(code: Value, env: Collaborators) returns (outcome: Outcome)
      modifies this, context
      ensures var b := DirectPath(env, code, old(context.scratch));
        outcome == b.outcome && events == old(events) + b.events && context.scratch == b.scratch
      ensures context.memory == old(context.memory) && lastError == old(lastError)
    {
      outcome := InvokeExecution(code, env);
      if outcome.Returned? {
        var problem := InspectRows(outcome.value);
        if problem.Some? {
          outcome := Raised(problem.value);
        }
      }
    }

    /** The try-block of `run` up to the success publication. */
    method RunPipelinesBody(input: ChatPipelineInput, env: Collaborators) returns (outcome: Outcome)
      modifies this, context
      ensures var b := RunPipelines(input, context.maxRetries, judge, env, old(context.scratch));
        outcome == b.outcome && events == old(events) + b.events && context.scratch == b.scratch
      ensures context.memory == old(context.memory) && lastError == old(lastError)
    {
      ghost var first := GenerationSegment(env.generate, 0, context.scratch);
      var code := InvokeGeneration(0, env);
      if code.Raised? {
        return code;
      }
      ghost var mid := events;
      if judge.Some? {
        outcome := JudgedBody(input.query, judge.value, code.value, env);
      } else {
        outcome := DirectBody(code.value, env);
      }
      assert events == old(events) + (first.events + events[|mid|..]);
    }

    /**
     * The end of `run` after the try-block's pipelines: publish, log the rows of
     * a dataframe result, and fall back when anything raised.
     */
    method Conclude(output: Outcome, rowLogFault: Option<Exc>) returns (response: Value)
      modifies this, tracker
      ensures var late := if output.Returned? then RowLogging(output.value, rowLogFault) else None;
        var f := Finish([], Segment(output, [], map[]), late);
        && response == f.response
        && events == old(events) + f.events
        && tracker.published == old(tracker.published) + Publishes(f.events)
        && tracker.success == f.error.None?
        && tracker.tracks == old(tracker.tracks) && tracker.steps == old(tracker.steps)
        && lastError == (if f.error.Some? then Some(f.error.value.text) else old(lastError))
    {
      ghost var ending := if output.Returned? then RowLogging(output.value, rowLogFault) else None;
      EndingEvents(output, ending);
      if output.Raised? {
        response := Fail(output.error);
        return;
      }
      Succeed();
      var late := RowLogging(output.value, rowLogFault);
      assert late == ending;
      if late.Some? {
        response := Fail(late.value);
      } else {
        response := output.value;
      }
    }

    /** `run`. */
    method Run(input: ChatPipelineInput, env: Collaborators) returns (response: Value)
      modifies this, context, tracker
      ensures var e := RunSpec(input, context.maxRetries, judge, env);
        && response == e.response
        && events == old(events) + e.events
        && context.scratch == e.scratch
        && context.memory == old(context.memory) + [Turn(input.query, true)]
        && tracker.published == old(tracker.published) + Publishes(e.events)
        && tracker.success == e.error.None?
        && tracker.tracks == old(tracker.tracks) + 1 && tracker.steps == old(tracker.steps)
        && lastError == (if e.error.Some? then Some(e.error.value.text) else old(lastError))
    {
      ghost var seed := Seed(input.outputType, input.promptId);
      ghost var body := RunPipelines(input, context.maxRetries, judge, env, seed);
      ghost var late := if body.outcome.Returned? then RowLogging(body.outcome.value, env.rowLogFault) else None;
      ghost var f := Finish([], Segment(body.outcome, [], map[]), late);
      RunSpecSplits(input, context.maxRetries, judge, env);
      AppendAssoc(events, Prelude(input.query, seed) + body.events, f.events);
      AppendAssoc(events, Prelude(input.query, seed), body.events);
      Prepare(input.query, input.outputType, input.promptId);
      var output := RunPipelinesBody(input, env);
      response := Conclude(output, env.rowLogFault);
    }
  }
}
