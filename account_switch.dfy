/** `account switch` (src/commands/account/switch.ts): the first account whose
    name matches the argument becomes the active one. */
module AccountSwitch {

  import opened Wrappers
  import opened ConfigStore
  import AuthManager
  import Process
  import ExitCodes

  /** The account the argument selects in a loaded store: the first whose
      name contains it, ignoring case. */
  function Selected(c: Option<Config>, name: string): (r: Option<AccountEntry>)
    ensures r.Some? ==> c.Some? && NameMatches(r.value, name)
    ensures r.Some? ==>
              exists i :: 0 <= i < |c.value.accounts| && c.value.accounts[i] == r.value &&
                forall j :: 0 <= j < i ==> !NameMatches(c.value.accounts[j], name)
    ensures r.None? ==> c.None? || forall j :: 0 <= j < |c.value.accounts| ==> !NameMatches(c.value.accounts[j], name)
  {
    if c.Some? && IndexOfName(c.value.accounts, name).Some? then
      Some(c.value.accounts[IndexOfName(c.value.accounts, name).value])
    else None
  }

  /** After a switch, the tokens every later command resolves are the selected
      account's (the first account holding its identification token). */
  lemma SwitchResolves(c: Option<Config>, name: string)
    requires Selected(c, name).Some?
    ensures var id := Selected(c, name).value.identificationToken;
            SetCurrent(c.value, id).Some? &&
            CurrentTokens(Load(Multi(SetCurrent(c.value, id).value))) ==
              Some(TokensOf(c.value.accounts[IndexOfId(c.value.accounts, id).value]))
  {
    SwitchThenReadConfig(c.value, IndexOfName(c.value.accounts, name).value);
  }

  /** `account switch <name>`: not found is reported on standard error with
      exit code 1 and the file is left alone (beyond a legacy migration);
      otherwise the selected account becomes active and the message names it. */
  method Run(store: Store, console: Process.Console, name: string)
    requires console.Open()
    modifies store, console
    ensures var c := Load(old(store.disk));
            Selected(c, name).None? ==>
              store.disk == Rewritten(old(store.disk)) &&
              console.stdout == old(console.stdout) &&
              console.stderr == old(console.stderr) + [Process.Str(AuthManager.NotFoundMessage(name) + "\n")] &&
              console.exitCode == Some(ExitCodes.General)
    ensures var c := Load(old(store.disk));
            Selected(c, name).Some? ==>
              var a := Selected(c, name).value;
              store.disk == Multi(SetCurrent(c.value, a.identificationToken).value) &&
              console.stdout == old(console.stdout) + [Process.Str("Switched to \"" + a.name + "\".\n")] &&
              console.stderr == old(console.stderr) && console.exitCode == None
  {
    var account := store.FindAccountByName(name);
    if account.None? {
      console.Err(Process.Str(AuthManager.NotFoundMessage(name) + "\n"));
      console.Exit(ExitCodes.General);
      return;
    }
    SwitchResolves(Load(old(store.disk)), name);
    var _ := store.SetCurrentAccount(account.value.identificationToken);
    console.Out(Process.Str("Switched to \"" + account.value.name + "\".\n"));
  }
}
