/** The remote Linked API service as the command-line client sees it through
    its client library: workflow operations (`execute` returns a workflow id,
    `result` waits for the workflow's response), the custom-workflow `status`
    query, conversation polling and the account-information query.

    The service itself is not modelled. Its answers are arbitrary functions of
    the call and of how many calls came before it, so two identical calls may be
    answered differently; every call is recorded in a ghost trace. */
module LinkedApi {

  import opened Wrappers
  import Json
  import ConfigStore

  /** An error a workflow reports inside its response (`TLinkedApiActionError`). */
  datatype ActionError = ActionError(errorType: string, message: string)

  /** A workflow response (`TMappedResponse`): data when present, and errors. */
  datatype Response = Response(data: Option<Json.Value>, errors: seq<ActionError>)

  /** The errors the client library throws (`LinkedApiError` and its subclass
      `LinkedApiWorkflowTimeoutError`). */
  datatype LinkedApiError =
    | ApiError(errorType: string, message: string)
    | WorkflowTimeoutError(errorType: string, message: string, workflowId: string)

  /** What a command's `catch` receives: a library error, any other `Error`
      (with its message), or a thrown value that is not an `Error` at all. */
  datatype Thrown = Raised(error: LinkedApiError) | OtherError(message: string) | NonError

  /** The answer of `customWorkflow.status`: still running, or finished. */
  datatype WorkflowStatus = Running | Finished(response: Response)

  /** One entry of a `pollConversations` batch. */
  datatype ConversationTarget = ConversationTarget(personUrl: string, conversationType: string, since: Option<string>)

  datatype Request =
    | Execute(operation: string, params: Json.Value)
    | FetchResult(operation: string, workflowId: string)
    | Status(workflowId: string)
    | Poll(targets: seq<ConversationTarget>)
    | AccountInfo

  /** A request made by a client built from the given tokens. */
  datatype Call = Call(tokens: ConfigStore.Tokens, request: Request)

  class Service {
    const executeReply: (nat, Call) -> Result<string, Thrown>
    const resultReply: (nat, Call) -> Result<Response, Thrown>
    const statusReply: (nat, Call) -> Result<WorkflowStatus, Thrown>
    const pollReply: (nat, Call) -> Result<Response, Thrown>
    const accountInfoReply: (nat, Call) -> Result<Response, Thrown>

    /** The number of calls answered so far. */
    var clock: nat
    ghost var trace: seq<Call>

    ghost predicate Valid()
      reads this
    {
      clock == |trace|
    }

    constructor (
      executeReply: (nat, Call) -> Result<string, Thrown>,
      resultReply: (nat, Call) -> Result<Response, Thrown>,
      statusReply: (nat, Call) -> Result<WorkflowStatus, Thrown>,
      pollReply: (nat, Call) -> Result<Response, Thrown>,
      accountInfoReply: (nat, Call) -> Result<Response, Thrown>)
      ensures Valid() && trace == []
      ensures this.executeReply == executeReply && this.resultReply == resultReply
      ensures this.statusReply == statusReply && this.pollReply == pollReply
      ensures this.accountInfoReply == accountInfoReply
    {
      this.executeReply := executeReply;
      this.resultReply := resultReply;
      this.statusReply := statusReply;
      this.pollReply := pollReply;
      this.accountInfoReply := accountInfoReply;
      clock := 0;
      trace := [];
    }

    /** `operation.execute(params)`: starts a workflow and returns its id. */
    method Execute(tokens: ConfigStore.Tokens, operation: string, params: Json.Value) returns (r: Result<string, Thrown>)
      requires Valid()
      modifies this
      ensures Valid()
      ensures trace == old(trace) + [Call(tokens, Request.Execute(operation, params))]
      ensures r == executeReply(old(clock), Call(tokens, Request.Execute(operation, params)))
    {
      r := executeReply(clock, Call(tokens, Request.Execute(operation, params)));
      clock := clock + 1;
      trace := trace + [Call(tokens, Request.Execute(operation, params))];
    }

    /** `operation.result(workflowId)`: waits for the workflow's response. */
    method FetchResult(tokens: ConfigStore.Tokens, operation: string, workflowId: string) returns (r: Result<Response, Thrown>)
      requires Valid()
      modifies this
      ensures Valid()
      ensures trace == old(trace) + [Call(tokens, Request.FetchResult(operation, workflowId))]
      ensures r == resultReply(old(clock), Call(tokens, Request.FetchResult(operation, workflowId)))
    {
      r := resultReply(clock, Call(tokens, Request.FetchResult(operation, workflowId)));
      clock := clock + 1;
      trace := trace + [Call(tokens, Request.FetchResult(operation, workflowId))];
    }

    /** `customWorkflow.status(workflowId)`. */
    method Status(tokens: ConfigStore.Tokens, workflowId: string) returns (r: Result<WorkflowStatus, Thrown>)
      requires Valid()
      modifies this
      ensures Valid()
      ensures trace == old(trace) + [Call(tokens, Request.Status(workflowId))]
      ensures r == statusReply(old(clock), Call(tokens, Request.Status(workflowId)))
    {
      r := statusReply(clock, Call(tokens, Request.Status(workflowId)));
      clock := clock + 1;
      trace := trace + [Call(tokens, Request.Status(workflowId))];
    }

    /** `pollConversations(targets)`. */
    method Poll(tokens: ConfigStore.Tokens, targets: seq<ConversationTarget>) returns (r: Result<Response, Thrown>)
      requires Valid()
      modifies this
      ensures Valid()
      ensures trace == old(trace) + [Call(tokens, Request.Poll(targets))]
      ensures r == pollReply(old(clock), Call(tokens, Request.Poll(targets)))
    {
      r := pollReply(clock, Call(tokens, Request.Poll(targets)));
      clock := clock + 1;
      trace := trace + [Call(tokens, Request.Poll(targets))];
    }

    /** `getAccountInfo()`. */
    method GetAccountInfo(tokens: ConfigStore.Tokens) returns (r: Result<Response, Thrown>)
      requires Valid()
      modifies this
      ensures Valid()
      ensures trace == old(trace) + [Call(tokens, Request.AccountInfo)]
      ensures r == accountInfoReply(old(clock), Call(tokens, Request.AccountInfo))
    {
      r := accountInfoReply(clock, Call(tokens, Request.AccountInfo));
      clock := clock + 1;
      trace := trace + [Call(tokens, Request.AccountInfo)];
    }
  }
}
