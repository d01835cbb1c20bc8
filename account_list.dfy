/** `account list` (src/commands/account/list.ts): one line per stored
    account, the active one marked, each token shortened. */
module AccountList {

  import opened Wrappers
  import opened ConfigStore
  import Process

  const NoAccountsHint := "No accounts configured. Run \"linkedin setup\" to add one.\n"

  /** `truncateToken`: a token of at most twelve characters is shown whole;
      a longer one as its first six characters, `...` and its last three, so
      exactly twelve characters. */
  function TruncateToken(token: string): (r: string)
    ensures |token| <= 12 ==> r == token
    ensures |token| > 12 ==> |r| == 12 && r[..6] == token[..6] && r[6..9] == "..." && r[9..] == token[|token| - 3..]
  {
    if |token| <= 12 then token else token[..6] + "..." + token[|token| - 3..]
  }

  /** Shortening is idempotent and never yields more than twelve characters. */
  lemma TruncateIdempotent(token: string)
    ensures |TruncateToken(token)| <= 12
    ensures TruncateToken(TruncateToken(token)) == TruncateToken(token)
  {
  }

  /** `*` for the active account, a space for any other. */
  function Marker(isCurrent: bool): (c: char)
    ensures c == '*' <==> isCurrent
  {
    if isCurrent then '*' else ' '
  }

  /** The line written for one account: marker, name, shortened token. */
  function Line(a: ListedAccount): (s: string)
    ensures |s| > 0 && (s[0] == '*' <==> a.isCurrent)
    ensures s[|s| - 1] == '\n'
  {
    [Marker(a.isCurrent)] + " " + a.account.name + " (" + TruncateToken(a.account.identificationToken) + ")\n"
  }

  /** The lines for a listing, in order. */
  function Lines(list: seq<ListedAccount>): (ws: seq<Process.Write>)
    ensures |ws| == |list|
    ensures forall j :: 0 <= j < |list| ==> ws[j] == Process.Str(Line(list[j]))
  {
    seq(|list|, j requires 0 <= j < |list| => Process.Str(Line(list[j])))
  }

  /** What the command writes for a stored configuration: the hint when there
      is no account, otherwise exactly one line per account in store order,
      marked `*` exactly for the active one. */
  lemma ListingLines(c: Option<Config>)
    ensures Listing(c) == [] ==> c.None? || c.value.accounts == []
    ensures c.Some? ==> |Lines(Listing(c))| == |c.value.accounts|
    ensures c.Some? ==>
              forall j :: 0 <= j < |c.value.accounts| ==>
                (Lines(Listing(c))[j].text[0] == '*' <==> c.value.accounts[j].identificationToken == c.value.currentAccount)
  {
    if c.Some? {
      forall j | 0 <= j < |c.value.accounts|
        ensures Lines(Listing(c))[j].text[0] == '*' <==> c.value.accounts[j].identificationToken == c.value.currentAccount
      {
        assert Lines(Listing(c))[j] == Process.Str(Line(Listing(c)[j]));
      }
    }
  }

  /** `account list`: the hint on an empty store, otherwise the loop writing
      one line per account. */
  method Run(store: Store, console: Process.Console)
    requires console.Open()
    modifies store, console
    ensures store.disk == Rewritten(old(store.disk))
    ensures var list := Listing(Load(old(store.disk)));
            console.stdout == old(console.stdout) + (if list == [] then [Process.Str(NoAccountsHint)] else Lines(list))
    ensures console.stderr == old(console.stderr) && console.exitCode == None
  {
    var accounts := store.ListAccounts();
    if |accounts| == 0 {
      console.Out(Process.Str(NoAccountsHint));
      return;
    }
    var i := 0;
    while i < |accounts|
      invariant 0 <= i <= |accounts|
      invariant store.disk == Rewritten(old(store.disk))
      invariant console.Open() && console.stderr == old(console.stderr)
      invariant console.stdout == old(console.stdout) + Lines(accounts[..i])
    {
      var account := accounts[i];
      var marker := if account.isCurrent then '*' else ' ';
      var truncatedToken := TruncateToken(account.account.identificationToken);
      console.Out(Process.Str([marker] + " " + account.account.name + " (" + truncatedToken + ")\n"));
      assert Lines(accounts[..i + 1]) == Lines(accounts[..i]) + [Process.Str(Line(account))];
      i := i + 1;
    }
    assert accounts[..i] == accounts;
  }
}
