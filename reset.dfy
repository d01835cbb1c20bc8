/** `reset` (src/commands/reset.ts): remove every stored account, or only the
    active one, and say what happened. */
module Reset {

  import opened Wrappers
  import Text
  import opened ConfigStore
  import Process

  const NoStoredMessage := "No stored accounts found.\n"
  const NoActiveMessage := "No active account to remove.\n"

  /** The message of `reset --all` after removing `count > 0` accounts, with
      the plural `s` exactly when more than one was removed. */
  function RemovedCountMessage(count: nat): (m: string)
    ensures |m| >= 3 && m[|m| - 2..] == ".\n"
    ensures m[|m| - 3] == 's' <==> count > 1
  {
    "Removed " + Text.NatToString(count) + " account" + (if count > 1 then "s" else "") + ".\n"
  }

  /** The message after removing the active account when another one remains. */
  function SwitchedMessage(removed: string, next: string): string
  {
    "Removed \"" + removed + "\". Switched to \"" + next + "\".\n"
  }

  /** The message after removing the last account. */
  function LastRemovedMessage(removed: string): string
  {
    "Removed \"" + removed + "\". No accounts remaining.\n"
  }

  /** `remaining.find((account) => account.isCurrent)`. */
  function FindCurrent(list: seq<ListedAccount>): (r: Option<ListedAccount>)
    ensures r.Some? ==> r.value in list && r.value.isCurrent
    ensures r.None? ==> forall j :: 0 <= j < |list| ==> !list[j].isCurrent
    ensures list != [] && list[0].isCurrent ==> r == Some(list[0])
  {
    if list == [] then None
    else if list[0].isCurrent then Some(list[0])
    else FindCurrent(list[1..])
  }

  /** `${next?.name}`: the name, or `undefined` when nothing was found. */
  function NameOrUndefined(next: Option<ListedAccount>): string
  {
    if next.Some? then next.value.account.name else "undefined"
  }

  /** The message of `reset` without `--all`, given the loaded store. */
  function RemoveCurrentMessage(c: Option<Config>): string
  {
    if c.None? then NoStoredMessage
    else match RemoveCurrent(c)
      case None => NoActiveMessage
      case Some(r) =>
        if r.rest.accounts != [] then SwitchedMessage(r.removed.name, r.rest.accounts[0].name)
        else LastRemovedMessage(r.removed.name)
  }

  /** After removing the active account with others remaining, the account
      reported as next is the one now active, the first remaining one. */
  lemma NextIsFirstRemaining(c: Option<Config>)
    requires RemoveCurrent(c).Some? && RemoveCurrent(c).value.rest.accounts != []
    ensures var rest := RemoveCurrent(c).value.rest;
            NameOrUndefined(FindCurrent(Listing(Load(Multi(rest))))) == rest.accounts[0].name
  {
    RemoveThenFirstCurrent(c);
  }

  /** `reset`: with `--all`, every account is removed and the count reported.
      Otherwise, with no stored account, or an active token naming none, nothing
      is removed; otherwise the active account is removed and the message
      names it and the account that became active, or says none remains. */
  method Run(store: Store, console: Process.Console, all: bool)
    requires console.Open()
    modifies store, console
    ensures all ==>
              var c := Load(old(store.disk));
              store.disk == (if c.Some? then Multi(EmptyConfig) else Rewritten(old(store.disk))) &&
              console.stdout == old(console.stdout) +
                [Process.Str(if c.Some? then RemovedCountMessage(|c.value.accounts|) else NoStoredMessage)]
    ensures !all ==>
              var c := Load(old(store.disk));
              var r := RemoveCurrent(c);
              store.disk == (if r.Some? then Multi(r.value.rest) else Rewritten(old(store.disk))) &&
              console.stdout == old(console.stdout) + [Process.Str(RemoveCurrentMessage(c))]
    ensures console.stderr == old(console.stderr) && console.exitCode == None
  {
    if all {
      var count := store.RemoveAllAccounts();
      if count > 0 {
        console.Out(Process.Str("Removed " + Text.NatToString(count) + " account" + (if count > 1 then "s" else "") + ".\n"));
      } else {
        console.Out(Process.Str(NoStoredMessage));
      }
      return;
    }
    var accounts := store.ListAccounts();
    if |accounts| == 0 {
      console.Out(Process.Str(NoStoredMessage));
      return;
    }
    ghost var c := Load(old(store.disk));
    var removed := store.RemoveCurrentAccount();
    if removed.None? {
      console.Out(Process.Str(NoActiveMessage));
      return;
    }
    var remaining := store.ListAccounts();
    if |remaining| > 0 {
      NextIsFirstRemaining(c);
      var next := FindCurrent(remaining);
      console.Out(Process.Str("Removed \"" + removed.value.name + "\". Switched to \"" + NameOrUndefined(next) + "\".\n"));
    } else {
      console.Out(Process.Str("Removed \"" + removed.value.name + "\". No accounts remaining.\n"));
    }
  }
}
