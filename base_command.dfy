/** What every authenticated command shares (src/base-command.ts): the common
    flags, building the client from resolved tokens, and the final error
    handler that classifies whatever a command's body threw. */
module BaseCommand {

  import opened Wrappers
  import Process
  import opened ExitCodes
  import ConfigStore
  import AuthManager
  import opened LinkedApi
  import opened ErrorHandler
  import Json
  import Formatter

  /** `--json`, `--fields`, `--quiet` and `--account`. */
  datatype BaseFlags = BaseFlags(json: bool, fields: Option<string>, quiet: bool, account: Option<string>)

  /** The three tiers of `handleError`: library errors are mapped, any other
      `Error` keeps its message, anything else gets a fixed message. */
  function Classify(error: Thrown): (c: CliError)
    ensures c.exitCode != Success && c.exitCode != RateLimit
    ensures error.Raised? ==> c == MapLinkedApiErrorToCliError(error.error)
    ensures !error.Raised? ==> c.exitCode == General && c.error == "unexpectedError" && c.workflowId == None
    ensures error.OtherError? ==> c.message == error.message
  {
    match error
    case Raised(e) => MapLinkedApiErrorToCliError(e)
    case OtherError(message) => CliError(General, "unexpectedError", message, None)
    case NonError => CliError(General, "unexpectedError", "An unexpected error occurred", None)
  }

  /** `handleError`: writes the classified error and exits; it never returns
      with the process still running. */
  method HandleError(console: Process.Console, error: Thrown)
    requires console.Open()
    modifies console
    ensures console.stderr == old(console.stderr) + [Process.JsonLine(false, ErrorRecord(Classify(error)))]
    ensures console.exitCode == Some(Classify(error).exitCode)
    ensures console.stdout == old(console.stdout)
  {
    match error
    case Raised(e) =>
      var cliError := MapLinkedApiErrorToCliError(e);
      WriteErrorToStderr(console, cliError);
      console.Exit(cliError.exitCode);
    case OtherError(message) =>
      WriteErrorToStderr(console, CliError(General, "unexpectedError", message, None));
      console.Exit(General);
    case NonError =>
      WriteErrorToStderr(console, CliError(General, "unexpectedError", "An unexpected error occurred", None));
      console.Exit(General);
  }

  /** `buildAuthenticatedClient`: the resolved tokens, or the resolution error's
      message on standard error and exit with AUTH. */
  method BuildAuthenticatedClient(store: ConfigStore.Store, console: Process.Console, flags: BaseFlags)
    returns (tokens: Option<ConfigStore.Tokens>)
    requires console.Open()
    modifies store, console
    ensures store.disk == ConfigStore.Rewritten(old(store.disk))
    ensures var r := AuthManager.Resolve(ConfigStore.Load(old(store.disk)), flags.account);
            if r.Ok? then
              tokens == Some(r.value) && console.Open() &&
              console.stdout == old(console.stdout) && console.stderr == old(console.stderr)
            else
              tokens == None && console.exitCode == Some(Auth) &&
              console.stdout == old(console.stdout) &&
              console.stderr == old(console.stderr) + [Process.Str(r.error + "\n")]
  {
    var resolved := AuthManager.ResolveAuthTokens(store, flags.account);
    if resolved.Err? {
      console.Err(Process.Str(resolved.error + "\n"));
      console.Exit(Auth);
      return None;
    }
    tokens := Some(resolved.value);
  }

  /** How the `try` block of a command ends: with `formatOutput` of some data
      and errors, or by throwing into `handleError`. */
  datatype Ending = Formatted(data: Option<Json.Value>, errors: seq<ActionError>) | Failed(error: Thrown)

  /** What the body of a command does with the service: the calls it makes,
      the progress lines it writes to standard error, and how it ends. */
  datatype Outcome = Outcome(calls: seq<Call>, progress: seq<Process.Write>, ending: Ending)

  /** What an ending writes to standard output. */
  function EndStdout(e: Ending, flags: BaseFlags, stdoutTty: bool): seq<Process.Write>
  {
    if e.Formatted? then Formatter.OutputWrites(e.data, e.errors, flags.json, flags.fields, flags.quiet, stdoutTty)
    else []
  }

  /** What reaches `handleError`: the error the body threw, or the `TypeError`
      that `formatOutput` threw while rendering the data; nothing otherwise. */
  function Escaped(e: Ending, flags: BaseFlags, stdoutTty: bool): (r: Option<Thrown>)
    ensures e.Failed? ==> r == Some(e.error)
    ensures e.Formatted? ==>
              var failure := Formatter.OutputFailure(e.data, e.errors, flags.json, flags.fields, flags.quiet, stdoutTty);
              (r.Some? <==> failure.Some?) && (r.Some? ==> r.value == OtherError(failure.value))
  {
    match e
    case Failed(error) => Some(error)
    case Formatted(data, errors) =>
      match Formatter.OutputFailure(data, errors, flags.json, flags.fields, flags.quiet, stdoutTty)
      case Some(message) => Some(OtherError(message))
      case None => None
  }

  /** What an ending writes to standard error: the error record of whatever
      reached `handleError`. */
  function EndStderr(e: Ending, flags: BaseFlags, stdoutTty: bool): seq<Process.Write>
  {
    match Escaped(e, flags, stdoutTty)
    case Some(error) => [Process.JsonLine(false, ErrorRecord(Classify(error)))]
    case None => []
  }

  /** The exit code an ending sets: none unless something reached `handleError`. */
  function EndExit(e: Ending, flags: BaseFlags, stdoutTty: bool): (r: Option<ExitCodes.Name>)
    ensures r.Some? <==> Escaped(e, flags, stdoutTty).Some?
    ensures r.Some? ==> r.value != Success
  {
    match Escaped(e, flags, stdoutTty)
    case Some(error) => Some(Classify(error).exitCode)
    case None => None
  }

  /** Data `formatOutput` cannot render ends the command as an unexpected error:
      the output written before the throw stays, the error record names the
      engine's message, and the exit code is GENERAL. */
  lemma RenderingFailureIsUnexpected(data: Option<Json.Value>, errors: seq<ActionError>, flags: BaseFlags,
                                     stdoutTty: bool)
    requires Formatter.OutputFailure(data, errors, flags.json, flags.fields, flags.quiet, stdoutTty).Some?
    ensures var message := Formatter.OutputFailure(data, errors, flags.json, flags.fields, flags.quiet, stdoutTty).value;
            EndStderr(Formatted(data, errors), flags, stdoutTty) ==
              [Process.JsonLine(false, ErrorRecord(CliError(General, "unexpectedError", message, None)))] &&
            EndExit(Formatted(data, errors), flags, stdoutTty) == Some(General)
  {
  }

  /** Between the two states, the command did what the outcome says: made its
      calls, wrote its progress lines, then its output or its error. */
  twostate predicate Performed(service: Service, console: Process.Console, o: Outcome, flags: BaseFlags)
    reads service, console
  {
    service.trace == old(service.trace) + o.calls &&
    console.stdout == old(console.stdout) + EndStdout(o.ending, flags, console.stdoutTty) &&
    console.stderr == old(console.stderr) + o.progress + EndStderr(o.ending, flags, console.stdoutTty) &&
    console.exitCode == EndExit(o.ending, flags, console.stdoutTty)
  }

  /** Between the two states, the client could not be built: no call was made,
      the resolution error went to standard error and the command exited AUTH. */
  twostate predicate Unauthenticated(service: Service, console: Process.Console, message: string)
    reads service, console
  {
    service.trace == old(service.trace) &&
    console.stdout == old(console.stdout) &&
    console.stderr == old(console.stderr) + [Process.Str(message + "\n")] &&
    console.exitCode == Some(Auth)
  }

  /** The end of a command's `try`/`catch`: `formatOutput` when the body
      finished, `handleError` when the body or `formatOutput` threw. */
  method Finish(console: Process.Console, ending: Ending, flags: BaseFlags)
    requires console.Open()
    modifies console
    ensures console.stdout == old(console.stdout) + EndStdout(ending, flags, console.stdoutTty)
    ensures console.stderr == old(console.stderr) + EndStderr(ending, flags, console.stdoutTty)
    ensures console.exitCode == EndExit(ending, flags, console.stdoutTty)
  {
    match ending
    case Formatted(data, errors) =>
      var failure := Formatter.FormatOutput(console, data, errors, flags.json, flags.fields, flags.quiet);
      if failure.Some? {
        HandleError(console, OtherError(failure.value));
      }
    case Failed(error) =>
      HandleError(console, error);
  }
}
