/** Classification of the client library's errors into exit codes and the
    error record written to standard error (src/core/errors/error-handler.ts). */
module ErrorHandler {

  import opened Wrappers
  import Text
  import Json
  import Process
  import opened ExitCodes
  import opened LinkedApi

  /** `TCliError`: the exit code, the error type, the message and, for a
      workflow timeout, the workflow id. */
  datatype CliError = CliError(exitCode: ExitCodes.Name, error: string, message: string, workflowId: Option<string>)

  const AuthTypes: set<string> :=
    {"linkedApiTokenRequired", "invalidLinkedApiToken", "identificationTokenRequired", "invalidIdentificationToken"}
  const SubscriptionTypes: set<string> := {"subscriptionRequired", "plusPlanRequired"}
  const AccountTypes: set<string> := {"linkedinAccountSignedOut", "languageNotSupported"}
  const ValidationTypes: set<string> := {"invalidRequestPayload", "invalidWorkflow"}
  const NetworkTypes: set<string> := {"httpError"}

  /** The message of a timed-out workflow, telling how to keep waiting for it. */
  function TimeoutMessage(workflowId: string): (m: string)
    ensures Text.Contains(m, workflowId)
  {
    var head := "Workflow timed out. Use 'linkedin workflow status ";
    var m := head + workflowId + " --wait' to continue polling.";
    assert m[|head|..|head| + |workflowId|] == workflowId;
    Text.ContainsAt(m, workflowId, |head|);
    m
  }

  /** `mapLinkedApiErrorToCliError`: a timeout first, then by error type. */
  function MapLinkedApiErrorToCliError(e: LinkedApiError): (r: CliError)
    ensures r.exitCode != Success && r.exitCode != RateLimit
    ensures e.WorkflowTimeoutError? ==>
              r.exitCode == Timeout && r.error == "workflowTimeout" &&
              r.workflowId == Some(e.workflowId) && Text.Contains(r.message, e.workflowId)
    ensures e.ApiError? ==> r.error == e.errorType && r.message == e.message && r.workflowId == None
    ensures e.ApiError? ==> (r.exitCode == Auth <==> e.errorType in AuthTypes)
    ensures e.ApiError? ==> (r.exitCode == Subscription <==> e.errorType in SubscriptionTypes)
    ensures e.ApiError? ==> (r.exitCode == ExitCodes.Account <==> e.errorType in AccountTypes)
    ensures e.ApiError? ==> (r.exitCode == Validation <==> e.errorType in ValidationTypes)
    ensures e.ApiError? ==> (r.exitCode == Network <==> e.errorType in NetworkTypes)
    ensures e.ApiError? ==> (r.exitCode == General <==>
              e.errorType !in AuthTypes + SubscriptionTypes + AccountTypes + ValidationTypes + NetworkTypes)
  {
    match e
    case WorkflowTimeoutError(_, _, id) =>
      CliError(Timeout, "workflowTimeout", TimeoutMessage(id), Some(id))
    case ApiError(t, message) =>
      var code :=
        if t in AuthTypes then Auth
        else if t in SubscriptionTypes then Subscription
        else if t in AccountTypes then ExitCodes.Account
        else if t in ValidationTypes then Validation
        else if t in NetworkTypes then Network
        else General;
      CliError(code, t, message, None)
  }

  /** The record `writeErrorToStderr` serialises: `error` and `message`, and
      `workflowId` only when it is set and non-empty. */
  function ErrorRecord(c: CliError): (v: Json.Value)
    ensures v.JObj?
    ensures Json.Lookup(v.members, "error") == Some(Json.JStr(c.error))
    ensures Json.Lookup(v.members, "message") == Some(Json.JStr(c.message))
    ensures Json.Lookup(v.members, "workflowId").Some? <==> c.workflowId.Some? && c.workflowId.value != ""
    ensures Json.Lookup(v.members, "workflowId").Some? ==> Json.Lookup(v.members, "workflowId") == Some(Json.JStr(c.workflowId.value))
    ensures forall k :: k in Json.Keys(v.members) ==> k in ["error", "message", "workflowId"]
  {
    var base := [Json.Member("error", Json.JStr(c.error)), Json.Member("message", Json.JStr(c.message))];
    if c.workflowId.Some? && c.workflowId.value != "" then
      Json.LookupAppend(base, Json.Member("workflowId", Json.JStr(c.workflowId.value)), "workflowId");
      Json.JObj(base + [Json.Member("workflowId", Json.JStr(c.workflowId.value))])
    else
      Json.JObj(base)
  }

  /** Writes the error record as one compact JSON line on standard error. */
  method WriteErrorToStderr(console: Process.Console, cliError: CliError)
    requires console.Open()
    modifies console
    ensures console.stderr == old(console.stderr) + [Process.JsonLine(false, ErrorRecord(cliError))]
    ensures console.stdout == old(console.stdout) && console.exitCode == old(console.exitCode)
  {
    var output := [Json.Member("error", Json.JStr(cliError.error)), Json.Member("message", Json.JStr(cliError.message))];
    if cliError.workflowId.Some? && cliError.workflowId.value != "" {
      output := Json.Put(output, "workflowId", Json.JStr(cliError.workflowId.value));
    }
    console.Err(Process.JsonLine(false, Json.JObj(output)));
  }
}
