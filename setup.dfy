/** `setup` (src/commands/setup.ts): obtain the two tokens from the flags or
    from masked prompts, verify them with the account-information query, and
    save the account as the active one. */
module Setup {

  import opened Wrappers
  import opened Json
  import ConfigStore
  import LinkedApi
  import Process
  import ExitCodes

  const NonInteractiveMessage :=
    "Cannot run interactive setup in non-interactive mode.\nUse flags instead:\n\n"
    + "  linkedin setup --linked-api-token=xxx --identification-token=yyy\n\n"
    + "Get tokens at https://app.linkedapi.io\n"
  const IntroMessage :=
    "To get your tokens, visit: https://app.linkedapi.io\n"
    + "(If you don't have an account yet, create one and connect your LinkedIn profile first)\n\n"
  const BothRequiredMessage := "Both tokens are required.\n"
  const VerifyingMessage := "Verifying tokens... "
  const InvalidTokensMessage :=
    "\nInvalid tokens. Make sure you copied the correct tokens from https://app.linkedapi.io\n"
    + "Need help? Visit https://linkedapi.io/docs/making-requests\n"

  /** `--linked-api-token` and `--identification-token`. */
  datatype SetupFlags = SetupFlags(linkedApiToken: Option<string>, identificationToken: Option<string>)

  predicate Given(flag: Option<string>)
  {
    flag.Some? && flag.value != ""
  }

  // The masked prompt

  /** Where a masked prompt stands: still reading with the input so far,
      resolved by Enter with the input, or ended by Ctrl-C. */
  datatype Masked = Typing(input: string) | Entered(input: string) | Interrupted

  predicate IsEnter(c: char) { c == '\n' || c == '\r' }
  predicate IsErase(c: char) { c == '\U{007F}' || c == '\U{0008}' }
  const CtrlC := '\U{0003}'

  /** `visiblePrefix.startsWith(input)`, with `input` no longer than it. */
  predicate InPrefix(input: string, visiblePrefix: string)
  {
    |input| <= |visiblePrefix| && visiblePrefix[..|input|] == input
  }

  /** The handler's treatment of one character: Enter resolves, Backspace or
      DEL drops the last character of a non-empty input, Ctrl-C ends the
      process, any other character from the space up is appended, and the
      remaining control characters are ignored. */
  function Step(input: string, c: char): (m: Masked)
    ensures IsEnter(c) <==> m == Entered(input)
    ensures m.Interrupted? <==> c == CtrlC
    ensures IsErase(c) ==> m == Typing(if input == [] then [] else input[..|input| - 1])
    ensures !IsEnter(c) && !IsErase(c) && c != CtrlC && c >= ' ' ==> m == Typing(input + [c])
    ensures !IsEnter(c) && !IsErase(c) && c < ' ' && c != CtrlC ==> m == Typing(input)
  {
    if IsEnter(c) then Entered(input)
    else if IsErase(c) then Typing(if |input| > 0 then input[..|input| - 1] else input)
    else if c == CtrlC then Interrupted
    else if c >= ' ' then Typing(input + [c])
    else Typing(input)
  }

  /** What the handler writes for one character: a newline on Enter and on
      Ctrl-C, `\b \b` when a character is erased, and for an appended
      character the character itself while the input is a prefix of the
      visible prefix, `*` otherwise. */
  function Echo(input: string, c: char, visiblePrefix: string): (ws: seq<Process.Write>)
    ensures |ws| <= 1
    ensures IsEnter(c) || c == CtrlC ==> ws == [Process.Str("\n")]
    ensures IsErase(c) && input != [] ==> ws == [Process.Str("\U{0008} \U{0008}")]
    ensures IsErase(c) && input == [] ==> ws == []
    ensures !IsEnter(c) && !IsErase(c) && c != CtrlC && c >= ' ' ==>
              (ws == [Process.Str([c])] <==> InPrefix(input + [c], visiblePrefix) || c == '*')
    ensures !IsEnter(c) && !IsErase(c) && c != CtrlC && c >= ' ' && !InPrefix(input + [c], visiblePrefix) ==>
              ws == [Process.Str("*")]
    ensures c < ' ' && !IsEnter(c) && !IsErase(c) && c != CtrlC ==> ws == []
  {
    if IsEnter(c) then [Process.Str("\n")]
    else if IsErase(c) then (if |input| > 0 then [Process.Str("\U{0008} \U{0008}")] else [])
    else if c == CtrlC then [Process.Str("\n")]
    else if c >= ' ' then [Process.Str(if InPrefix(input + [c], visiblePrefix) then [c] else "*")]
    else []
  }

  /** Masking never reveals a typed character outside the visible prefix: a
      character echoed as itself is the visible prefix's character at its
      position. */
  lemma EchoMasks(input: string, c: char, visiblePrefix: string)
    requires !IsEnter(c) && !IsErase(c) && c != CtrlC && c >= ' '
    ensures Echo(input, c, visiblePrefix) == [Process.Str([c])] <==> InPrefix(input + [c], visiblePrefix) || c == '*'
    ensures Echo(input, c, visiblePrefix) == [Process.Str([c])] && c != '*' ==>
              |input| < |visiblePrefix| && visiblePrefix[|input|] == c
  {
    if InPrefix(input + [c], visiblePrefix) {
      assert visiblePrefix[..|input| + 1][|input|] == c;
    }
  }

  /** The prompt's state after the characters of a chunk from index `i` on;
      characters after Enter or Ctrl-C are not looked at. */
  function FeedFrom(input: string, chunk: string, i: nat): Masked
    decreases |chunk| - i
  {
    if i >= |chunk| then Typing(input)
    else
      var m := Step(input, chunk[i]);
      if m.Typing? then FeedFrom(m.input, chunk, i + 1) else m
  }

  /** What the handler writes for those characters. */
  function EchoFrom(input: string, chunk: string, i: nat, visiblePrefix: string): seq<Process.Write>
    decreases |chunk| - i
  {
    if i >= |chunk| then []
    else
      var m := Step(input, chunk[i]);
      Echo(input, chunk[i], visiblePrefix) + (if m.Typing? then EchoFrom(m.input, chunk, i + 1, visiblePrefix) else [])
  }

  /** Plain characters up to an Enter resolve the prompt with exactly those
      characters, whatever follows the Enter in the chunk. */
  lemma {:induction false} TypedLine(input: string, chunk: string, i: nat, j: nat)
    requires i <= j < |chunk| && IsEnter(chunk[j])
    requires forall k :: i <= k < j ==> chunk[k] >= ' ' && !IsErase(chunk[k])
    ensures FeedFrom(input, chunk, i) == Entered(input + chunk[i..j])
    decreases j - i
  {
    if i < j {
      TypedLine(input + [chunk[i]], chunk, i + 1, j);
      assert input + [chunk[i]] + chunk[i + 1..j] == input + chunk[i..j];
    }
  }

  /** Whatever follows an Enter is never looked at: two chunks that agree up
      to and including it leave the prompt in the same state. */
  lemma {:induction false} RestIgnored(input: string, typed: string, enter: char, rest1: string, rest2: string, i: nat)
    requires IsEnter(enter) && i <= |typed|
    ensures FeedFrom(input, typed + [enter] + rest1, i) == FeedFrom(input, typed + [enter] + rest2, i)
    decreases |typed| - i
  {
    var chunk1, chunk2 := typed + [enter] + rest1, typed + [enter] + rest2;
    assert chunk1[i] == chunk2[i];
    if i < |typed| {
      var m := Step(input, chunk1[i]);
      if m.Typing? {
        RestIgnored(m.input, typed, enter, rest1, rest2, i + 1);
      }
    }
  }

  /** A character followed by Backspace leaves the input as it was. */
  lemma TypeThenErase(input: string, chunk: string, i: nat)
    requires i + 1 < |chunk| && chunk[i] >= ' ' && !IsErase(chunk[i]) && IsErase(chunk[i + 1])
    ensures FeedFrom(input, chunk, i) == FeedFrom(input, chunk, i + 2)
  {
    assert (input + [chunk[i]])[..|input|] == input;
  }

  /** One character of a chunk, unfolded, after the writes `done`. */
  lemma FeedAt(input: string, chunk: string, i: nat, visiblePrefix: string, done: seq<Process.Write>)
    requires i < |chunk|
    ensures var m := Step(input, chunk[i]);
            FeedFrom(input, chunk, i) == (if m.Typing? then FeedFrom(m.input, chunk, i + 1) else m) &&
            done + EchoFrom(input, chunk, i, visiblePrefix) ==
              (done + Echo(input, chunk[i], visiblePrefix)) +
              (if m.Typing? then EchoFrom(m.input, chunk, i + 1, visiblePrefix) else [])
  {
  }

  /** The body of the `onData` loop for one character, from the input so far:
      Ctrl-C exits the process with code 0. */
  method HandleChar(console: Process.Console, input: string, c: char, visiblePrefix: string) returns (m: Masked)
    requires console.Open()
    modifies console
    ensures m == Step(input, c)
    ensures console.stdout == old(console.stdout) + Echo(input, c, visiblePrefix)
    ensures console.stderr == old(console.stderr)
    ensures console.exitCode == if m.Interrupted? then Some(ExitCodes.Success) else None
  {
    if c == '\n' || c == '\r' {
      console.Out(Process.Str("\n"));
      return Entered(input);
    } else if c == '\U{007F}' || c == '\U{0008}' {
      if |input| > 0 {
        console.Out(Process.Str("\U{0008} \U{0008}"));
        return Typing(input[..|input| - 1]);
      }
      return Typing(input);
    } else if c == '\U{0003}' {
      console.Out(Process.Str("\n"));
      console.Exit(ExitCodes.Success);
      return Interrupted;
    } else if c >= ' ' {
      var typed := input + [c];
      var isInPrefix := |typed| <= |visiblePrefix| && visiblePrefix[..|typed|] == typed;
      console.Out(Process.Str(if isInPrefix then [c] else "*"));
      return Typing(typed);
    }
    return Typing(input);
  }

  /** The `onData` handler for one chunk: the loop over its characters, from
      the prompt's input so far, stopping at Enter or Ctrl-C. */
  method OnData(console: Process.Console, input0: string, chunk: string, visiblePrefix: string) returns (r: Masked)
    requires console.Open()
    modifies console
    ensures r == FeedFrom(input0, chunk, 0)
    ensures console.stdout == old(console.stdout) + EchoFrom(input0, chunk, 0, visiblePrefix)
    ensures console.stderr == old(console.stderr)
    ensures console.exitCode == if r.Interrupted? then Some(ExitCodes.Success) else None
  {
    r := Typing(input0);
    ghost var done: seq<Process.Write> := [];
    var i := 0;
    while i < |chunk| && r.Typing?
      invariant i <= |chunk|
      invariant r.Typing? ==> console.Open()
      invariant console.stderr == old(console.stderr)
      invariant console.exitCode == if r.Interrupted? then Some(ExitCodes.Success) else None
      invariant console.stdout == old(console.stdout) + done
      invariant r.Typing? ==> FeedFrom(input0, chunk, 0) == FeedFrom(r.input, chunk, i)
      invariant r.Typing? ==> EchoFrom(input0, chunk, 0, visiblePrefix) == done + EchoFrom(r.input, chunk, i, visiblePrefix)
      invariant !r.Typing? ==> r == FeedFrom(input0, chunk, 0) && done == EchoFrom(input0, chunk, 0, visiblePrefix)
    {
      FeedAt(r.input, chunk, i, visiblePrefix, done);
      done := done + Echo(r.input, chunk[i], visiblePrefix);
      r := HandleChar(console, r.input, chunk[i], visiblePrefix);
      i := i + 1;
    }
  }

  /** What a prompt does over the chunks that arrive: the state it ends in,
      how many chunks it consumes and what it writes. */
  datatype Reading = Reading(state: Masked, used: nat, echo: seq<Process.Write>)

  /** The prompt's run over the chunks from index `j` on, from the input so far. */
  function PromptFrom(input: string, chunks: seq<string>, j: nat, visiblePrefix: string): (run: Reading)
    ensures j < |chunks| ==> 1 <= run.used <= |chunks| - j
    ensures j >= |chunks| ==> run.used == 0
    decreases |chunks| - j
  {
    if j >= |chunks| then Reading(Typing(input), 0, [])
    else
      var m := FeedFrom(input, chunks[j], 0);
      var w := EchoFrom(input, chunks[j], 0, visiblePrefix);
      if m.Typing? then
        var rest := PromptFrom(m.input, chunks, j + 1, visiblePrefix);
        Reading(rest.state, 1 + rest.used, w + rest.echo)
      else Reading(m, 1, w)
  }

  /** The run once the prompt is in state `m` with the chunks from `j` on still to come. */
  function Resumed(m: Masked, chunks: seq<string>, j: nat, visiblePrefix: string): Reading
  {
    if m.Typing? then PromptFrom(m.input, chunks, j, visiblePrefix) else Reading(m, 0, [])
  }

  /** Handling chunk `j` from a waiting state, after the writes `done`. */
  lemma ResumeAt(m: Masked, chunks: seq<string>, j: nat, visiblePrefix: string, used: nat, done: seq<Process.Write>)
    requires m.Typing? && j < |chunks|
    ensures var next := Resumed(FeedFrom(m.input, chunks[j], 0), chunks, j + 1, visiblePrefix);
            var run := Resumed(m, chunks, j, visiblePrefix);
            run.state == next.state && used + run.used == (used + 1) + next.used &&
            done + run.echo == (done + EchoFrom(m.input, chunks[j], 0, visiblePrefix)) + next.echo
  {
  }

  /** A prompt still waiting has consumed every chunk from where it started. */
  lemma {:induction false} WaitingConsumedAll(input: string, chunks: seq<string>, j: nat, visiblePrefix: string)
    requires j <= |chunks| && PromptFrom(input, chunks, j, visiblePrefix).state.Typing?
    ensures j + PromptFrom(input, chunks, j, visiblePrefix).used == |chunks|
    decreases |chunks| - j
  {
    if j < |chunks| {
      WaitingConsumedAll(FeedFrom(input, chunks[j], 0).input, chunks, j + 1, visiblePrefix);
    }
  }

  /** `readMaskedInput(prompt, visiblePrefix)`: the prompt, then each `data`
      event from position `start` of the input stream handled in turn until
      the input is resolved or the process ends; when the chunks run out
      first, the prompt is still waiting. `next` is the position after the
      last chunk it handled. */
  method ReadMaskedInput(console: Process.Console, chunks: seq<string>, start: nat, prompt: string, visiblePrefix: string)
    returns (r: Masked, next: nat)
    requires console.Open()
    modifies console
    ensures var run := PromptFrom("", chunks, start, visiblePrefix);
            r == run.state && next == start + run.used &&
            console.stdout == old(console.stdout) + ([Process.Str(prompt)] + run.echo)
    ensures console.stderr == old(console.stderr)
    ensures console.exitCode == if r.Interrupted? then Some(ExitCodes.Success) else None
  {
    console.Out(Process.Str(prompt));
    ghost var out0 := console.stdout;
    ghost var done: seq<Process.Write> := [];
    ghost var run := PromptFrom("", chunks, start, visiblePrefix);
    next := start;
    r := Typing("");
    while r.Typing? && next < |chunks|
      invariant start <= next && (start < |chunks| ==> next <= |chunks|)
      invariant r.Typing? ==> console.Open()
      invariant console.stderr == old(console.stderr)
      invariant console.exitCode == if r.Interrupted? then Some(ExitCodes.Success) else None
      invariant console.stdout == out0 + done
      invariant run.state == Resumed(r, chunks, next, visiblePrefix).state
      invariant start + run.used == next + Resumed(r, chunks, next, visiblePrefix).used
      invariant run.echo == done + Resumed(r, chunks, next, visiblePrefix).echo
      decreases |chunks| - next
    {
      ResumeAt(r, chunks, next, visiblePrefix, next, done);
      ghost var w := EchoFrom(r.input, chunks[next], 0, visiblePrefix);
      ghost var before := done;
      done := done + w;
      r := OnData(console, r.input, chunks[next], visiblePrefix);
      Process.AppendAssoc(out0, before, w);
      next := next + 1;
    }
    assert Resumed(r, chunks, next, visiblePrefix).echo == [];
    Process.AppendAssoc(old(console.stdout), [Process.Str(prompt)], done);
  }

  // Obtaining the tokens

  const LinkedApiTokenPrompt := "Linked API Token: "
  const LinkedApiTokenPrefix := "account_"
  const IdentificationTokenPrompt := "Identification Token: "
  const IdentificationTokenPrefix := "id_"

  /** The first prompt's run over the whole input stream. */
  function FirstReading(chunks: seq<string>): Reading
  {
    PromptFrom("", chunks, 0, LinkedApiTokenPrefix)
  }

  /** The second prompt's run, over the chunks after those the first consumed. */
  function SecondReading(chunks: seq<string>): Reading
  {
    PromptFrom("", chunks, FirstReading(chunks).used, IdentificationTokenPrefix)
  }

  /** How the tokens come out: from the flags or both prompts, refused because
      standard input is not a terminal, or not at all because a prompt was
      interrupted or is still waiting for input. */
  datatype Acquired = Obtained(linkedApiToken: string, identificationToken: string) | NonInteractive | Stopped

  /** Only when one of the two flags is missing or empty are the prompts used. */
  function Acquire(flags: SetupFlags, stdinTty: bool, chunks: seq<string>): (a: Acquired)
    ensures Given(flags.linkedApiToken) && Given(flags.identificationToken) ==>
              a == Obtained(flags.linkedApiToken.value, flags.identificationToken.value)
    ensures a.NonInteractive? <==>
              !(Given(flags.linkedApiToken) && Given(flags.identificationToken)) && !stdinTty
    ensures !(Given(flags.linkedApiToken) && Given(flags.identificationToken)) && stdinTty ==>
              (a.Obtained? <==> FirstReading(chunks).state.Entered? && SecondReading(chunks).state.Entered?)
    ensures !(Given(flags.linkedApiToken) && Given(flags.identificationToken)) && a.Obtained? ==>
              a == Obtained(FirstReading(chunks).state.input, SecondReading(chunks).state.input)
  {
    if Given(flags.linkedApiToken) && Given(flags.identificationToken) then
      Obtained(flags.linkedApiToken.value, flags.identificationToken.value)
    else if !stdinTty then NonInteractive
    else
      var first, second := FirstReading(chunks).state, SecondReading(chunks).state;
      if first.Entered? && second.Entered? then Obtained(first.input, second.input) else Stopped
  }

  /** The first prompt and its echo. */
  function FirstWrites(chunks: seq<string>): seq<Process.Write>
  {
    [Process.Str(LinkedApiTokenPrompt)] + FirstReading(chunks).echo
  }

  /** Once the first token is entered, the second prompt and its echo. */
  function SecondWrites(chunks: seq<string>): seq<Process.Write>
  {
    if FirstReading(chunks).state.Entered? then [Process.Str(IdentificationTokenPrompt)] + SecondReading(chunks).echo else []
  }

  /** What the interactive branch writes: the introduction and both prompts. */
  function PromptWrites(chunks: seq<string>): seq<Process.Write>
  {
    [Process.Str(IntroMessage)] + FirstWrites(chunks) + SecondWrites(chunks)
  }

  /** Ctrl-C at either prompt ends the process with code 0. */
  predicate PromptInterrupted(chunks: seq<string>)
  {
    FirstReading(chunks).state.Interrupted? ||
    (FirstReading(chunks).state.Entered? && SecondReading(chunks).state.Interrupted?)
  }

  /** Each token typed as plain characters and ended by Enter in its own
      `data` chunk is obtained exactly as typed. */
  lemma TypedTokens(linkedApiToken: string, identificationToken: string, enter: char, flags: SetupFlags)
    requires IsEnter(enter) && !(Given(flags.linkedApiToken) && Given(flags.identificationToken))
    requires forall k :: 0 <= k < |linkedApiToken| ==> linkedApiToken[k] >= ' ' && !IsErase(linkedApiToken[k])
    requires forall k :: 0 <= k < |identificationToken| ==> identificationToken[k] >= ' ' && !IsErase(identificationToken[k])
    ensures Acquire(flags, true, [linkedApiToken + [enter], identificationToken + [enter]]) ==
              Obtained(linkedApiToken, identificationToken)
  {
    var chunks := [linkedApiToken + [enter], identificationToken + [enter]];
    TypedLine("", chunks[0], 0, |linkedApiToken|);
    assert chunks[0][0..|linkedApiToken|] == linkedApiToken;
    assert FirstReading(chunks).used == 1;
    TypedLine("", chunks[1], 0, |identificationToken|);
    assert chunks[1][0..|identificationToken|] == identificationToken;
  }

  /** The interactive branch: the introduction, then the two masked prompts
      in turn on the same input stream; the second prompt is only shown once
      the first token is entered. */
  method PromptForTokens(console: Process.Console, chunks: seq<string>) returns (first: Masked, second: Masked)
    requires console.Open()
    modifies console
    ensures first == FirstReading(chunks).state
    ensures first.Entered? ==> second == SecondReading(chunks).state
    ensures console.stdout == old(console.stdout) + PromptWrites(chunks)
    ensures console.stderr == old(console.stderr)
    ensures console.exitCode == if PromptInterrupted(chunks) then Some(ExitCodes.Success) else None
  {
    ghost var intro, firstWrites, secondWrites := [Process.Str(IntroMessage)], FirstWrites(chunks), SecondWrites(chunks);
    console.Out(Process.Str(IntroMessage));
    var next;
    first, next := ReadMaskedInput(console, chunks, 0, LinkedApiTokenPrompt, LinkedApiTokenPrefix);
    Process.AppendAssoc(old(console.stdout), intro, firstWrites);
    second := Typing("");
    if first.Entered? {
      second, next := ReadMaskedInput(console, chunks, next, IdentificationTokenPrompt, IdentificationTokenPrefix);
    }
    Process.AppendAssoc(old(console.stdout), intro + firstWrites, secondWrites);
  }

  /** The first half of `run`: the tokens from both flags, the refusal when
      standard input is not a terminal, or the two masked prompts. */
  method AcquireTokens(console: Process.Console, flags: SetupFlags, chunks: seq<string>) returns (acquired: Acquired)
    requires console.Open()
    modifies console
    ensures acquired == Acquire(flags, console.stdinTty, chunks)
    ensures acquired.Obtained? ==> console.Open()
    ensures acquired.NonInteractive? ==>
              console.stdout == old(console.stdout) &&
              console.stderr == old(console.stderr) + [Process.Str(NonInteractiveMessage)] &&
              console.exitCode == Some(ExitCodes.Auth)
    ensures !acquired.NonInteractive? ==> console.stderr == old(console.stderr)
    ensures !acquired.NonInteractive? ==>
              console.stdout == old(console.stdout) +
                (if Given(flags.linkedApiToken) && Given(flags.identificationToken) then [] else PromptWrites(chunks))
    ensures acquired.Stopped? ==>
              console.exitCode == if PromptInterrupted(chunks) then Some(ExitCodes.Success) else None
  {
    if Given(flags.linkedApiToken) && Given(flags.identificationToken) {
      return Obtained(flags.linkedApiToken.value, flags.identificationToken.value);
    } else if !console.stdinTty {
      console.Err(Process.Str(NonInteractiveMessage));
      console.Exit(ExitCodes.Auth);
      return NonInteractive;
    }
    var linkedApiToken, identificationToken := PromptForTokens(console, chunks);
    if linkedApiToken.Entered? && identificationToken.Entered? {
      return Obtained(linkedApiToken.input, identificationToken.input);
    }
    return Stopped;
  }

  // Verifying and saving the account

  /** `accountInfo.data?.name ?? ''`, then `|| 'default'`: a non-empty string
      name, or `default`. */
  function DisplayName(data: Option<Value>): (name: string)
    ensures name != ""
    ensures name == "default" || (data.Some? && Property(data.value, "name") == Some(JStr(name)))
    ensures (data.Some? && Property(data.value, "name").Some? && Property(data.value, "name").value.JStr? &&
             Property(data.value, "name").value.s != "") ==> name == Property(data.value, "name").value.s
    ensures (data.None? || Property(data.value, "name").None?) ==> name == "default"
  {
    if data.Some? then
      match Property(data.value, "name")
      case Some(JStr(s)) => if s != "" then s else "default"
      case _ => "default"
    else "default"
  }

  function SavedMessage(displayName: string): string
  {
    "Account \"" + displayName + "\" saved and set as active.\n"
  }

  /** The entry `addAccount` receives once the tokens are verified. */
  function SavedEntry(linkedApiToken: string, identificationToken: string, reply: LinkedApi.Response): ConfigStore.AccountEntry
  {
    ConfigStore.AccountEntry(DisplayName(reply.data), linkedApiToken, identificationToken)
  }

  /** The account-information call that verifies the tokens. */
  function VerificationCall(linkedApiToken: string, identificationToken: string): LinkedApi.Call
  {
    LinkedApi.Call(ConfigStore.Tokens(linkedApiToken, identificationToken), LinkedApi.AccountInfo)
  }

  /** A saved account is the active one, with the tokens that were verified. */
  lemma SavedIsActive(d: ConfigStore.Disk, linkedApiToken: string, identificationToken: string, reply: LinkedApi.Response)
    ensures var saved := ConfigStore.Multi(ConfigStore.AfterAdd(ConfigStore.Load(d), SavedEntry(linkedApiToken, identificationToken, reply)));
            ConfigStore.CurrentTokens(ConfigStore.Load(saved)) == Some(ConfigStore.Tokens(linkedApiToken, identificationToken))
  {
    ConfigStore.AddThenReadConfig(ConfigStore.Load(d), SavedEntry(linkedApiToken, identificationToken, reply));
  }

  /** Between the two states, the verification went as `run` has it, after
      `shown` was written: an empty token stops with AUTH before any call; a
      failed query stops with AUTH and leaves the store alone; a successful one
      saves the account, which becomes the active one. */
  twostate predicate Verified(store: ConfigStore.Store, service: LinkedApi.Service, console: Process.Console,
                              linkedApiToken: string, identificationToken: string, shown: seq<Process.Write>)
    reads store, service, console
  {
    if linkedApiToken == "" || identificationToken == "" then
      service.trace == old(service.trace) && store.disk == old(store.disk) &&
      console.stdout == old(console.stdout) + shown &&
      console.stderr == old(console.stderr) + [Process.Str(BothRequiredMessage)] &&
      console.exitCode == Some(ExitCodes.Auth)
    else
      var call := VerificationCall(linkedApiToken, identificationToken);
      var reply := service.accountInfoReply(old(service.clock), call);
      service.trace == old(service.trace) + [call] &&
      if reply.Err? then
        store.disk == old(store.disk) &&
        console.stdout == old(console.stdout) + shown + [Process.Str(VerifyingMessage), Process.Str("FAILED\n")] &&
        console.stderr == old(console.stderr) + [Process.Str(InvalidTokensMessage)] &&
        console.exitCode == Some(ExitCodes.Auth)
      else
        store.disk == ConfigStore.Multi(ConfigStore.AfterAdd(ConfigStore.Load(old(store.disk)),
                                        SavedEntry(linkedApiToken, identificationToken, reply.value))) &&
        ConfigStore.CurrentTokens(ConfigStore.Load(store.disk)) ==
          Some(ConfigStore.Tokens(linkedApiToken, identificationToken)) &&
        console.stdout == old(console.stdout) + shown +
          [Process.Str(VerifyingMessage), Process.Str("OK\n"), Process.Str(SavedMessage(DisplayName(reply.value.data)))] &&
        console.stderr == old(console.stderr) && console.Open()
  }

  /** The second half of `run`: both tokens must be non-empty; they are then
      checked with the account-information query, and the account is saved
      under its LinkedIn name only when the query succeeds. */
  method VerifyAndSave(store: ConfigStore.Store, service: LinkedApi.Service, console: Process.Console,
                       linkedApiToken: string, identificationToken: string)
    requires console.Open() && service.Valid()
    modifies store, service, console
    ensures service.Valid()
    ensures Verified(store, service, console, linkedApiToken, identificationToken, [])
  {
    if linkedApiToken == "" || identificationToken == "" {
      console.Err(Process.Str(BothRequiredMessage));
      console.Exit(ExitCodes.Auth);
      return;
    }
    console.Out(Process.Str(VerifyingMessage));
    var accountInfo := service.GetAccountInfo(ConfigStore.Tokens(linkedApiToken, identificationToken));
    if accountInfo.Err? {
      console.Out(Process.Str("FAILED\n"));
      console.Err(Process.Str(InvalidTokensMessage));
      console.Exit(ExitCodes.Auth);
      return;
    }
    console.Out(Process.Str("OK\n"));
    var displayName := DisplayName(accountInfo.value.data);
    ghost var disk0 := store.disk;
    store.AddAccount(ConfigStore.AccountEntry(displayName, linkedApiToken, identificationToken));
    SavedIsActive(disk0, linkedApiToken, identificationToken, accountInfo.value);
    console.Out(Process.Str(SavedMessage(displayName)));
  }

  /** What obtaining the tokens writes to standard output. */
  function AcquireWrites(flags: SetupFlags, chunks: seq<string>): seq<Process.Write>
  {
    if Given(flags.linkedApiToken) && Given(flags.identificationToken) then [] else PromptWrites(chunks)
  }

  /** `setup`: obtain the tokens, then verify and save them. Nothing is called
      and the store is untouched unless both tokens are obtained. */
  method Run(store: ConfigStore.Store, service: LinkedApi.Service, console: Process.Console,
             flags: SetupFlags, chunks: seq<string>)
    requires console.Open() && service.Valid()
    modifies store, service, console
    ensures service.Valid()
    ensures var a := Acquire(flags, console.stdinTty, chunks);
            !a.Obtained? ==> service.trace == old(service.trace) && store.disk == old(store.disk)
    ensures var a := Acquire(flags, console.stdinTty, chunks);
            a.NonInteractive? ==>
              console.stdout == old(console.stdout) &&
              console.stderr == old(console.stderr) + [Process.Str(NonInteractiveMessage)] &&
              console.exitCode == Some(ExitCodes.Auth)
    ensures var a := Acquire(flags, console.stdinTty, chunks);
            a.Stopped? ==>
              console.stdout == old(console.stdout) + PromptWrites(chunks) &&
              console.stderr == old(console.stderr) &&
              console.exitCode == if PromptInterrupted(chunks) then Some(ExitCodes.Success) else None
    ensures var a := Acquire(flags, console.stdinTty, chunks);
            a.Obtained? ==>
              Verified(store, service, console, a.linkedApiToken, a.identificationToken, AcquireWrites(flags, chunks))
  {
    var acquired := AcquireTokens(console, flags, chunks);
    if !acquired.Obtained? {
      return;
    }
    ghost var shown := AcquireWrites(flags, chunks);
    assert console.stdout == old(console.stdout) + shown;
    label tokens:
    VerifyAndSave(store, service, console, acquired.linkedApiToken, acquired.identificationToken);
    assert Verified@tokens(store, service, console, acquired.linkedApiToken, acquired.identificationToken, []);
    assert old@tokens(console.stdout) + [] == old(console.stdout) + shown;
  }
}
