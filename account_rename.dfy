/** `account rename` (src/commands/account/rename.ts): the first account whose
    name matches the argument gets the name given by `--name`. */
module AccountRename {

  import opened Wrappers
  import opened ConfigStore
  import AuthManager
  import AccountSwitch
  import Process
  import ExitCodes

  /** The message of a rename: the old name, read before renaming, and the new one. */
  function RenamedMessage(oldName: string, newName: string): string
  {
    "Renamed \"" + oldName + "\" to \"" + newName + "\".\n"
  }

  /** Renaming the selected account changes only its name: the order, the
      tokens and the active account are kept, and so are the tokens later
      commands resolve. */
  lemma RenameKeepsTokens(c: Option<Config>, name: string, newName: string)
    requires AccountSwitch.Selected(c, name).Some?
    ensures var id := AccountSwitch.Selected(c, name).value.identificationToken;
            var r := Rename(c.value, id, newName);
            r.Some? && r.value.currentAccount == c.value.currentAccount &&
            |r.value.accounts| == |c.value.accounts| &&
            r.value.accounts[IndexOfId(c.value.accounts, id).value].name == newName &&
            (forall j :: 0 <= j < |c.value.accounts| ==> TokensOf(r.value.accounts[j]) == TokensOf(c.value.accounts[j])) &&
            CurrentTokens(Some(r.value)) == CurrentTokens(c)
  {
    var id := AccountSwitch.Selected(c, name).value.identificationToken;
    var i := IndexOfName(c.value.accounts, name).value;
    assert AccountIds(c.value)[i] == id;
    RenameChangesOnlyName(c.value, id, newName);
  }

  /** `account rename <name> --name <newName>`: not found is reported on
      standard error with exit code 1 and nothing is renamed; otherwise the
      selected account is renamed and the message reports both names. */
  method Run(store: Store, console: Process.Console, name: string, newName: string)
    requires console.Open()
    modifies store, console
    ensures var c := Load(old(store.disk));
            AccountSwitch.Selected(c, name).None? ==>
              store.disk == Rewritten(old(store.disk)) &&
              console.stdout == old(console.stdout) &&
              console.stderr == old(console.stderr) + [Process.Str(AuthManager.NotFoundMessage(name) + "\n")] &&
              console.exitCode == Some(ExitCodes.General)
    ensures var c := Load(old(store.disk));
            AccountSwitch.Selected(c, name).Some? ==>
              var a := AccountSwitch.Selected(c, name).value;
              store.disk == Multi(Rename(c.value, a.identificationToken, newName).value) &&
              console.stdout == old(console.stdout) + [Process.Str(RenamedMessage(a.name, newName))] &&
              console.stderr == old(console.stderr) && console.exitCode == None
  {
    var account := store.FindAccountByName(name);
    if account.None? {
      console.Err(Process.Str(AuthManager.NotFoundMessage(name) + "\n"));
      console.Exit(ExitCodes.General);
      return;
    }
    RenameKeepsTokens(Load(old(store.disk)), name, newName);
    var oldName := account.value.name;
    var _ := store.RenameAccount(account.value.identificationToken, newName);
    console.Out(Process.Str("Renamed \"" + oldName + "\" to \"" + newName + "\".\n"));
  }
}
