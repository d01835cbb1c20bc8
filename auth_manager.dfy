/** Token resolution (src/core/auth/auth-manager.ts): an explicit account name
    wins, otherwise the tokens of the active account are used. */
module AuthManager {

  import opened Wrappers
  import Text
  import opened ConfigStore

  /** The error raised when no tokens can be resolved at all. */
  const NoTokensMessage :=
    "Authentication required.\n\n"
    + "To use this CLI, you need a Linked API account with a connected LinkedIn profile.\n\n"
    + "  1. Create an account at https://app.linkedapi.io\n"
    + "  2. Connect your LinkedIn account on the platform\n"
    + "  3. Copy your Linked API Token and Identification Token from the dashboard\n"
    + "  4. Run: linkedin setup\n\n"
    + "Learn more: https://linkedapi.io/docs/getting-started"

  /** The error raised when a requested account name matches no account; the
      account commands print the same text. */
  function NotFoundMessage(name: string): (m: string)
    ensures Text.Contains(m, "\"" + name + "\"")
  {
    var quoted := "\"" + name + "\"";
    var m := "Account " + quoted + " not found. Run \"linkedin account list\" to see available accounts.";
    assert m[8..8 + |quoted|] == quoted;
    Text.ContainsAt(m, quoted, 8);
    m
  }

  /** JavaScript truthiness of an optional string flag. */
  predicate Given(flag: Option<string>)
  {
    flag.Some? && flag.value != ""
  }

  /** The result `resolveAuthTokens(accountOverride)` computes from the loaded
      store: tokens, or the message of the error it throws. */
  function Resolve(c: Option<Config>, accountOverride: Option<string>): Result<Tokens, string>
  {
    if Given(accountOverride) then
      var query := accountOverride.value;
      if c.Some? && IndexOfName(c.value.accounts, query).Some? then
        Ok(TokensOf(c.value.accounts[IndexOfName(c.value.accounts, query).value]))
      else
        Err(NotFoundMessage(query))
    else
      match CurrentTokens(c)
      case Some(t) => Ok(t)
      case None => Err(NoTokensMessage)
  }

  /** A matching override gives the first matching account's tokens, whichever
      account is active. */
  lemma OverrideWins(accounts: seq<AccountEntry>, current: string, other: string, query: string, i: nat)
    requires query != ""
    requires i < |accounts| && NameMatches(accounts[i], query)
    requires forall j :: 0 <= j < i ==> !NameMatches(accounts[j], query)
    ensures Resolve(Some(Config(accounts, current)), Some(query)) == Ok(TokensOf(accounts[i]))
    ensures Resolve(Some(Config(accounts, current)), Some(query)) == Resolve(Some(Config(accounts, other)), Some(query))
  {
    FirstIndexOfName(accounts, query, i);
  }

  /** An override that matches nothing is an error naming it; there is no
      fallback to the active account. */
  lemma OverrideWithoutMatchFails(c: Option<Config>, query: string)
    requires query != ""
    requires c.None? || forall j :: 0 <= j < |c.value.accounts| ==> !NameMatches(c.value.accounts[j], query)
    ensures Resolve(c, Some(query)) == Err(NotFoundMessage(query))
    ensures Text.Contains(Resolve(c, Some(query)).error, "\"" + query + "\"")
  {
    if c.Some? {
      FirstIndexOfName(c.value.accounts, query, |c.value.accounts|);
    }
  }

  /** Without an override (absent or empty) the result is what readConfig
      resolves, and the fixed authentication message when it resolves nothing. */
  lemma NoOverrideReadsConfig(c: Option<Config>, accountOverride: Option<string>)
    requires !Given(accountOverride)
    ensures Resolve(c, accountOverride).Ok? <==> CurrentTokens(c).Some?
    ensures Resolve(c, accountOverride).Ok? ==> Resolve(c, accountOverride).value == CurrentTokens(c).value
    ensures Resolve(c, accountOverride).Err? ==> Resolve(c, accountOverride).error == NoTokensMessage
  {
  }

  /** `resolveAuthTokens`: reads the store through findAccountByName or
      readConfig only, so the file changes at most by the legacy migration. */
  method ResolveAuthTokens(store: Store, accountOverride: Option<string>) returns (r: Result<Tokens, string>)
    modifies store
    ensures r == Resolve(Load(old(store.disk)), accountOverride)
    ensures store.disk == Rewritten(old(store.disk))
  {
    if Given(accountOverride) {
      var account := store.FindAccountByName(accountOverride.value);
      if account.None? {
        return Err(NotFoundMessage(accountOverride.value));
      }
      return Ok(TokensOf(account.value));
    }
    var config := store.ReadConfig();
    if config.Some? {
      return Ok(config.value);
    }
    r := Err(NoTokensMessage);
  }
}
