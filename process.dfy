/** The process the command-line client runs in: what it writes to standard
    output and standard error, one entry per `write` call, and the exit code
    it ends with. Exiting is terminal: nothing is written after it. */
module Process {

  import opened Wrappers
  import Json
  import ExitCodes

  /** One `write` call: a string, or a JSON serialisation followed by a newline
      (`pretty` is the two-space indented form, otherwise the compact one). */
  datatype Write = Str(text: string) | JsonLine(pretty: bool, value: Json.Value)

  lemma AppendAssoc(a: seq<Write>, b: seq<Write>, c: seq<Write>)
    ensures (a + b) + c == a + (b + c)
  {
  }

  class Console {
    /** `isStdoutTty()` and `isStdinTty()`: whether the streams are terminals. */
    const stdoutTty: bool
    const stdinTty: bool
    var stdout: seq<Write>
    var stderr: seq<Write>
    var exitCode: Option<ExitCodes.Name>

    /** The process is still running. */
    predicate Open()
      reads this
    {
      exitCode.None?
    }

    constructor (stdoutTty: bool, stdinTty: bool)
      ensures this.stdoutTty == stdoutTty && this.stdinTty == stdinTty
      ensures stdout == [] && stderr == [] && exitCode == None
    {
      this.stdoutTty, this.stdinTty := stdoutTty, stdinTty;
      stdout, stderr, exitCode := [], [], None;
    }

    method Out(w: Write)
      requires Open()
      modifies this
      ensures stdout == old(stdout) + [w]
      ensures stderr == old(stderr) && exitCode == old(exitCode)
    {
      stdout := stdout + [w];
    }

    /** Writes several entries to standard output, in order. */
    method OutAll(ws: seq<Write>)
      requires Open()
      modifies this
      ensures stdout == old(stdout) + ws
      ensures stderr == old(stderr) && exitCode == old(exitCode)
    {
      stdout := stdout + ws;
    }

    method Err(w: Write)
      requires Open()
      modifies this
      ensures stderr == old(stderr) + [w]
      ensures stdout == old(stdout) && exitCode == old(exitCode)
    {
      stderr := stderr + [w];
    }

    /** `this.exit(code)`: ends the command. */
    method Exit(code: ExitCodes.Name)
      requires Open()
      modifies this
      ensures exitCode == Some(code)
      ensures stdout == old(stdout) && stderr == old(stderr)
    {
      exitCode := Some(code);
    }
  }
}
