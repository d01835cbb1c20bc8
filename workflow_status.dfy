/** `workflow status <id> [--wait]` (src/commands/workflow/status.ts): wait for
    a custom workflow's result, or ask once for its status. */
module WorkflowStatusCommand {

  import opened Wrappers
  import opened Json
  import opened Process
  import ConfigStore
  import AuthManager
  import opened LinkedApi
  import opened BaseCommand

  /** The workflow operation the client exposes for custom workflows. */
  const CustomWorkflow := "customWorkflow"

  /** The data shown for a workflow that is still running. */
  function RunningData(workflowId: string): (v: Value)
    ensures v.JObj?
    ensures Lookup(v.members, "workflowId") == Some(JStr(workflowId))
    ensures Lookup(v.members, "status") == Some(JStr("running"))
    ensures forall k :: Lookup(v.members, k).Some? ==> k == "workflowId" || k == "status"
  {
    JObj([Member("workflowId", JStr(workflowId)), Member("status", JStr("running"))])
  }

  /** The outcome of the command's body when its call is the service's call
      number `start`. */
  function StatusOutcome(s: Service, start: nat, tokens: ConfigStore.Tokens, workflowId: string, wait: bool,
                         isQuiet: bool): Outcome
  {
    if wait then
      var call := Call(tokens, Request.FetchResult(CustomWorkflow, workflowId));
      var waiting := if isQuiet then [] else [Str("Waiting for workflow " + workflowId + "...\n")];
      var result := s.resultReply(start, call);
      Outcome([call], waiting,
              if result.Err? then Failed(result.error) else Formatted(result.value.data, result.value.errors))
    else
      var call := Call(tokens, Request.Status(workflowId));
      var status := s.statusReply(start, call);
      Outcome([call], [],
              match status
              case Err(e) => Failed(e)
              case Ok(Running) => Formatted(Some(RunningData(workflowId)), [])
              case Ok(Finished(response)) => Formatted(response.data, response.errors))
  }

  /** With `--wait` the one call is `result` on the id, never `status`, and its
      data and errors are the output; without it the one call is `status`. */
  lemma WaitCallsResult(s: Service, start: nat, tokens: ConfigStore.Tokens, workflowId: string, wait: bool,
                        isQuiet: bool)
    ensures var o := StatusOutcome(s, start, tokens, workflowId, wait, isQuiet);
            |o.calls| == 1 &&
            (wait <==> o.calls[0].request == Request.FetchResult(CustomWorkflow, workflowId)) &&
            (!wait <==> o.calls[0].request == Request.Status(workflowId))
    ensures var o := StatusOutcome(s, start, tokens, workflowId, wait, isQuiet);
            var result := s.resultReply(start, Call(tokens, Request.FetchResult(CustomWorkflow, workflowId)));
            wait && result.Ok? ==> o.ending == Formatted(result.value.data, result.value.errors)
  {
  }

  /** Without `--wait`, a running workflow is shown as its id and status
      `running` with no errors; a finished one as its data and errors. */
  lemma StatusOutput(s: Service, start: nat, tokens: ConfigStore.Tokens, workflowId: string, isQuiet: bool)
    ensures var o := StatusOutcome(s, start, tokens, workflowId, false, isQuiet);
            var status := s.statusReply(start, Call(tokens, Request.Status(workflowId)));
            (status == Ok(Running) ==>
               o.ending.Formatted? && o.ending.errors == [] && o.ending.data.Some? &&
               Lookup(o.ending.data.value.members, "workflowId") == Some(JStr(workflowId)) &&
               Lookup(o.ending.data.value.members, "status") == Some(JStr("running"))) &&
            (status.Ok? && status.value.Finished? ==>
               o.ending == Formatted(status.value.response.data, status.value.response.errors))
  {
  }

  /** The waiting line is written only with `--wait` and without `--quiet`. */
  lemma WaitingLine(s: Service, start: nat, tokens: ConfigStore.Tokens, workflowId: string, wait: bool,
                    isQuiet: bool)
    ensures var o := StatusOutcome(s, start, tokens, workflowId, wait, isQuiet);
            (o.progress != [] <==> wait && !isQuiet) &&
            (o.progress != [] ==> o.progress == [Str("Waiting for workflow " + workflowId + "...\n")])
  {
  }

  /** The body of `run` after the client is built. */
  method Status(service: Service, console: Console, tokens: ConfigStore.Tokens, flags: BaseFlags,
                workflowId: string, wait: bool)
    requires service.Valid() && console.Open()
    modifies service, console
    ensures service.Valid()
    ensures Performed(service, console, StatusOutcome(service, old(service.clock), tokens, workflowId, wait,
                                                      flags.quiet), flags)
  {
    var ending := Query(service, console, tokens, flags.quiet, workflowId, wait);
    Finish(console, ending, flags);
  }

  /** The body up to its output: the one call and the waiting line. */
  method Query(service: Service, console: Console, tokens: ConfigStore.Tokens, isQuiet: bool, workflowId: string,
               wait: bool) returns (ending: Ending)
    requires service.Valid() && console.Open()
    modifies service, console
    ensures service.Valid() && console.Open()
    ensures var o := StatusOutcome(service, old(service.clock), tokens, workflowId, wait, isQuiet);
            service.trace == old(service.trace) + o.calls &&
            console.stderr == old(console.stderr) + o.progress &&
            ending == o.ending
    ensures console.stdout == old(console.stdout)
  {
    if wait {
      if !isQuiet {
        console.Err(Str("Waiting for workflow " + workflowId + "...\n"));
      }
      var result := service.FetchResult(tokens, CustomWorkflow, workflowId);
      ending := if result.Err? then Failed(result.error) else Formatted(result.value.data, result.value.errors);
    } else {
      var status := service.Status(tokens, workflowId);
      if status.Err? {
        ending := Failed(status.error);
      } else if status.value == Running {
        ending := Formatted(Some(RunningData(workflowId)), []);
      } else {
        ending := Formatted(status.value.response.data, status.value.response.errors);
      }
    }
  }

  /** `workflow status <id> [--wait]`. */
  method Run(store: ConfigStore.Store, service: Service, console: Console, flags: BaseFlags, workflowId: string,
             wait: bool)
    requires service.Valid() && console.Open()
    modifies store, service, console
    ensures service.Valid()
    ensures store.disk == ConfigStore.Rewritten(old(store.disk))
    ensures var auth := AuthManager.Resolve(ConfigStore.Load(old(store.disk)), flags.account);
            auth.Err? ==> Unauthenticated(service, console, auth.error)
    ensures var auth := AuthManager.Resolve(ConfigStore.Load(old(store.disk)), flags.account);
            auth.Ok? ==>
              Performed(service, console,
                        StatusOutcome(service, old(service.clock), auth.value, workflowId, wait, flags.quiet), flags)
  {
    var client := BuildAuthenticatedClient(store, console, flags);
    if client.None? {
      return;
    }
    Status(service, console, client.value, flags, workflowId, wait);
  }
}
