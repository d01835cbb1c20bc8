/** Running one workflow (src/core/workflow/workflow-runner.ts): start it,
    wait for its result and hand the result back, with progress lines on
    standard error unless quiet. */
module WorkflowRunner {

  import opened Wrappers
  import Json
  import opened Process
  import ConfigStore
  import opened LinkedApi
  import BaseCommand

  /** What one run of `runWorkflow` does: the calls it makes, the progress lines
      it writes and what it returns or throws. */
  datatype Run = Run(calls: seq<Call>, progress: seq<Write>, result: Result<Response, Thrown>)

  /** The run of `runWorkflow(operation, params)` when its first call is the
      service's call number `start`. */
  function WorkflowRun(s: Service, start: nat, tokens: ConfigStore.Tokens, operation: string, params: Json.Value,
                       isQuiet: bool): Run
  {
    var exec := Call(tokens, Request.Execute(operation, params));
    var started := s.executeReply(start, exec);
    var executing := if isQuiet then [] else [Str("Executing...\n")];
    if started.Err? then Run([exec], executing, Err(started.error))
    else
      var fetch := Call(tokens, Request.FetchResult(operation, started.value));
      var result := s.resultReply(start + 1, fetch);
      var waiting :=
        if isQuiet then [] else [Str("Workflow started: " + started.value + "\n"), Str("Waiting for result...\n")];
      var done := if isQuiet || result.Err? then [] else [Str("Done.\n")];
      Run([exec, fetch], executing + waiting + done, result)
  }

  /** `execute` is called once with the given parameters; `result` is called
      once afterwards with the id `execute` returned, and only if it returned;
      the outcome is `result`'s answer unchanged, or the error `execute` threw. */
  lemma WorkflowCalls(s: Service, start: nat, tokens: ConfigStore.Tokens, operation: string, params: Json.Value,
                      isQuiet: bool)
    ensures var run := WorkflowRun(s, start, tokens, operation, params, isQuiet);
            var exec := Call(tokens, Request.Execute(operation, params));
            var started := s.executeReply(start, exec);
            1 <= |run.calls| <= 2 && run.calls[0] == exec &&
            (|run.calls| == 2 <==> started.Ok?) &&
            (started.Err? ==> run.result == Err(started.error)) &&
            (started.Ok? ==>
               run.calls[1] == Call(tokens, Request.FetchResult(operation, started.value)) &&
               run.result == s.resultReply(start + 1, run.calls[1]))
  {
  }

  /** Quiet mode writes nothing and changes nothing else. */
  lemma QuietRunIsSilent(s: Service, start: nat, tokens: ConfigStore.Tokens, operation: string, params: Json.Value)
    ensures WorkflowRun(s, start, tokens, operation, params, true).progress == []
    ensures WorkflowRun(s, start, tokens, operation, params, true).calls ==
            WorkflowRun(s, start, tokens, operation, params, false).calls
    ensures WorkflowRun(s, start, tokens, operation, params, true).result ==
            WorkflowRun(s, start, tokens, operation, params, false).result
  {
  }

  /** Without quiet, the four progress lines appear in order, each only once
      the step before it has completed. */
  lemma ProgressLines(s: Service, start: nat, tokens: ConfigStore.Tokens, operation: string, params: Json.Value)
    ensures var run := WorkflowRun(s, start, tokens, operation, params, false);
            var started := s.executeReply(start, Call(tokens, Request.Execute(operation, params)));
            |run.progress| == (if started.Err? then 1 else if run.result.Err? then 3 else 4) &&
            run.progress[0] == Str("Executing...\n") &&
            (started.Ok? ==>
               run.progress[1] == Str("Workflow started: " + started.value + "\n") &&
               run.progress[2] == Str("Waiting for result...\n")) &&
            (Str("Done.\n") in run.progress <==> run.result.Ok?)
  {
  }

  /** `runWorkflow(operation, params, { isQuiet })`. */
  method RunWorkflow(service: Service, console: Console, tokens: ConfigStore.Tokens, operation: string,
                     params: Json.Value, isQuiet: bool) returns (r: Result<Response, Thrown>)
    requires service.Valid() && console.Open()
    modifies service, console
    ensures service.Valid()
    ensures var run := WorkflowRun(service, old(service.clock), tokens, operation, params, isQuiet);
            service.trace == old(service.trace) + run.calls &&
            console.stderr == old(console.stderr) + run.progress &&
            r == run.result
    ensures console.stdout == old(console.stdout) && console.exitCode == old(console.exitCode)
  {
    if !isQuiet {
      console.Err(Str("Executing...\n"));
    }
    var workflowId := service.Execute(tokens, operation, params);
    if workflowId.Err? {
      return Err(workflowId.error);
    }
    if !isQuiet {
      console.Err(Str("Workflow started: " + workflowId.value + "\n"));
      console.Err(Str("Waiting for result...\n"));
    }
    var result := service.FetchResult(tokens, operation, workflowId.value);
    if result.Err? {
      return Err(result.error);
    }
    if !isQuiet {
      console.Err(Str("Done.\n"));
    }
    return result;
  }

  /** `runVoidWorkflow`: the same run. */
  method RunVoidWorkflow(service: Service, console: Console, tokens: ConfigStore.Tokens, operation: string,
                         params: Json.Value, isQuiet: bool) returns (r: Result<Response, Thrown>)
    requires service.Valid() && console.Open()
    modifies service, console
    ensures service.Valid()
    ensures var run := WorkflowRun(service, old(service.clock), tokens, operation, params, isQuiet);
            service.trace == old(service.trace) + run.calls &&
            console.stderr == old(console.stderr) + run.progress &&
            r == run.result
    ensures console.stdout == old(console.stdout) && console.exitCode == old(console.exitCode)
  {
    r := RunWorkflow(service, console, tokens, operation, params, isQuiet);
  }

  /** The outcome of a command whose body is `runWorkflow` followed by
      `formatOutput` of the result's data and errors. */
  function WorkflowOutcome(run: Run): (o: BaseCommand.Outcome)
    ensures o.calls == run.calls && o.progress == run.progress
    ensures run.result.Err? ==> o.ending == BaseCommand.Failed(run.result.error)
    ensures run.result.Ok? ==> o.ending == BaseCommand.Formatted(run.result.value.data, run.result.value.errors)
  {
    BaseCommand.Outcome(
      run.calls, run.progress,
      if run.result.Ok? then BaseCommand.Formatted(run.result.value.data, run.result.value.errors)
      else BaseCommand.Failed(run.result.error))
  }

  /** The `try` block the fetch, search and create commands share: run the
      workflow, output its result, route anything thrown to `handleError`. */
  method RunAndFormat(service: Service, console: Console, tokens: ConfigStore.Tokens, operation: string,
                      params: Json.Value, flags: BaseCommand.BaseFlags)
    requires service.Valid() && console.Open()
    modifies service, console
    ensures service.Valid()
    ensures RanWorkflow(service, console, tokens, operation, params, flags)
  {
    var result := RunWorkflow(service, console, tokens, operation, params, flags.quiet);
    var ending :=
      if result.Ok? then BaseCommand.Formatted(result.value.data, result.value.errors)
      else BaseCommand.Failed(result.error);
    BaseCommand.Finish(console, ending, flags);
  }

  /** Between the two states, the command ran `operation` with `params` and
      output its result. */
  twostate predicate RanWorkflow(service: Service, console: Console, tokens: ConfigStore.Tokens, operation: string,
                                 params: Json.Value, flags: BaseCommand.BaseFlags)
    reads service, console
  {
    BaseCommand.Performed(service, console,
      WorkflowOutcome(WorkflowRun(service, old(service.clock), tokens, operation, params, flags.quiet)), flags)
  }
}
