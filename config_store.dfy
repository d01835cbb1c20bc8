/** The multi-account credential store (src/core/auth/config-store.ts).

    The configuration file is one value of type `Disk`: absent, unreadable as
    JSON (or of a shape that makes the loader throw), the legacy single-account
    shape, or the multi-account shape. Every operation loads the file first;
    loading a legacy file migrates it and writes the migration back, so each
    operation may rewrite the file even when it changes nothing else. */
module ConfigStore {

  import opened Wrappers
  import Text

  datatype AccountEntry = AccountEntry(name: string, linkedApiToken: string, identificationToken: string)

  /** The multi-account shape: the accounts in file order and the
      identification token of the active one. */
  datatype Config = Config(accounts: seq<AccountEntry>, currentAccount: string)

  /** The pair of tokens a client is built from. */
  datatype Tokens = Tokens(linkedApiToken: string, identificationToken: string)

  datatype Disk =
    | Missing
    | Garbage
    | Legacy(linkedApiToken: string, identificationToken: string)
    | Multi(config: Config)

  /** An entry of `listAccounts`: the account with its `isCurrent` flag. */
  datatype ListedAccount = ListedAccount(account: AccountEntry, isCurrent: bool)

  /** An account removed by `removeCurrentAccount` and the store it leaves. */
  datatype Removal = Removal(removed: AccountEntry, rest: Config)

  /** The store every fresh write starts from: no accounts, no active one. */
  const EmptyConfig := Config([], "")

  function TokensOf(a: AccountEntry): Tokens
  {
    Tokens(a.linkedApiToken, a.identificationToken)
  }

  /** The multi-account store a legacy file is migrated to. */
  function Migrated(linkedApiToken: string, identificationToken: string): Config
  {
    Config([AccountEntry("default", linkedApiToken, identificationToken)], identificationToken)
  }

  /** What `readRawConfig` returns for a file: a store with at least one account,
      or none. */
  function Load(d: Disk): (r: Option<Config>)
    ensures r.Some? ==> |r.value.accounts| > 0
    ensures r.None? <==> d.Missing? || d.Garbage? || (d.Multi? && d.config.accounts == [])
    ensures d.Multi? && r.Some? ==> r.value == d.config
  {
    match d
    case Missing => None
    case Garbage => None
    case Legacy(t, id) => Some(Migrated(t, id))
    case Multi(c) => if |c.accounts| > 0 then Some(c) else None
  }

  /** The file as `readRawConfig` leaves it: a legacy file is replaced by its
      migration, anything else is left alone. */
  function Rewritten(d: Disk): (r: Disk)
    ensures Load(r) == Load(d)
    ensures d.Legacy? ==> r.Multi? && Load(d) == Some(r.config)
    ensures !d.Legacy? ==> r == d
  {
    if d.Legacy? then Multi(Migrated(d.linkedApiToken, d.identificationToken)) else d
  }

  /** A legacy file loads as one account named "default" that is active, and
      once rewritten it loads the same without being migrated again. */
  lemma LegacyMigration(t: string, id: string)
    ensures Load(Legacy(t, id)) == Some(Config([AccountEntry("default", t, id)], id))
    ensures Rewritten(Legacy(t, id)) == Multi(Config([AccountEntry("default", t, id)], id))
    ensures Rewritten(Rewritten(Legacy(t, id))) == Rewritten(Legacy(t, id))
    ensures Load(Rewritten(Legacy(t, id))) == Load(Legacy(t, id))
  {
  }

  /** Loading is idempotent: a second load neither migrates nor changes the result. */
  lemma RewrittenIdempotent(d: Disk)
    ensures Rewritten(Rewritten(d)) == Rewritten(d)
    ensures Load(Rewritten(d)) == Load(d)
  {
  }

  /** The position of the first account with identification token `id`. */
  function IndexOfId(accounts: seq<AccountEntry>, id: string): (r: Option<nat>)
    ensures r.Some? ==> r.value < |accounts| && accounts[r.value].identificationToken == id
    ensures r.Some? ==> forall j :: 0 <= j < r.value ==> accounts[j].identificationToken != id
    ensures r.None? ==> forall j :: 0 <= j < |accounts| ==> accounts[j].identificationToken != id
  {
    if accounts == [] then None
    else if accounts[0].identificationToken == id then Some(0)
    else match IndexOfId(accounts[1..], id)
      case None => None
      case Some(i) => Some(i + 1)
  }

  /** The case-insensitive substring test of `findAccountByName`. */
  predicate NameMatches(a: AccountEntry, query: string)
  {
    Text.Contains(Text.ToLower(a.name), Text.ToLower(query))
  }

  /** The position of the first account whose name matches `query`. */
  function IndexOfName(accounts: seq<AccountEntry>, query: string): (r: Option<nat>)
    ensures r.Some? ==> r.value < |accounts| && NameMatches(accounts[r.value], query)
    ensures r.Some? ==> forall j :: 0 <= j < r.value ==> !NameMatches(accounts[j], query)
    ensures r.None? ==> forall j :: 0 <= j < |accounts| ==> !NameMatches(accounts[j], query)
  {
    if accounts == [] then None
    else if NameMatches(accounts[0], query) then Some(0)
    else match IndexOfName(accounts[1..], query)
      case None => None
      case Some(i) => Some(i + 1)
  }

  /** The tokens `readConfig` resolves: those of the first account whose
      identification token is the active one, else those of the first account. */
  function CurrentTokens(c: Option<Config>): (r: Option<Tokens>)
    ensures r.None? <==> c.None? || c.value.accounts == []
    ensures r.Some? ==> exists j :: 0 <= j < |c.value.accounts| && r.value == TokensOf(c.value.accounts[j])
    ensures c.Some? && c.value.currentAccount in AccountIds(c.value) ==>
              r.Some? && r.value.identificationToken == c.value.currentAccount
    ensures c.Some? && c.value.currentAccount in AccountIds(c.value) ==>
              exists i :: 0 <= i < |c.value.accounts| && r == Some(TokensOf(c.value.accounts[i])) &&
                c.value.accounts[i].identificationToken == c.value.currentAccount &&
                forall j :: 0 <= j < i ==> c.value.accounts[j].identificationToken != c.value.currentAccount
    ensures c.Some? && c.value.currentAccount !in AccountIds(c.value) && c.value.accounts != [] ==>
              r == Some(TokensOf(c.value.accounts[0]))
  {
    match c
    case None => None
    case Some(cfg) =>
      match IndexOfId(cfg.accounts, cfg.currentAccount)
      case Some(i) => Some(TokensOf(cfg.accounts[i]))
      case None => if cfg.accounts == [] then None else Some(TokensOf(cfg.accounts[0]))
  }

  /** The identification tokens of a store, in order. */
  function AccountIds(c: Config): (ids: seq<string>)
    ensures |ids| == |c.accounts|
    ensures forall j :: 0 <= j < |ids| ==> ids[j] == c.accounts[j].identificationToken
  {
    seq(|c.accounts|, j requires 0 <= j < |c.accounts| => c.accounts[j].identificationToken)
  }

  /** The resolved tokens exist exactly when the file holds a store. */
  lemma ReadConfigUndefinedOnlyWithoutStore(d: Disk)
    ensures CurrentTokens(Load(d)).None? <==> Load(d).None?
  {
  }

  /** The store `addAccount` writes: an account whose identification token is
      already stored takes that entry's place, any other is appended; the new
      account becomes the active one. */
  function AfterAdd(c: Option<Config>, a: AccountEntry): Config
  {
    var base := if c.Some? then c.value else EmptyConfig;
    match IndexOfId(base.accounts, a.identificationToken)
    case Some(i) => Config(base.accounts[i := a], a.identificationToken)
    case None => Config(base.accounts + [a], a.identificationToken)
  }

  /** Adding replaces in place when the identification token is known, keeping
      length and positions, and appends otherwise; other entries are untouched. */
  lemma AddReplacesOrAppends(c: Option<Config>, a: AccountEntry)
    ensures var base := if c.Some? then c.value.accounts else [];
            var r := AfterAdd(c, a);
            r.currentAccount == a.identificationToken &&
            (a.identificationToken in AccountIds(Config(base, "")) ==>
               |r.accounts| == |base| &&
               forall j :: 0 <= j < |base| ==>
                 r.accounts[j] == (if base[j].identificationToken == a.identificationToken
                                      && a.identificationToken !in AccountIds(Config(base[..j], ""))
                                   then a else base[j])) &&
            (a.identificationToken !in AccountIds(Config(base, "")) ==> r.accounts == base + [a])
  {
    var base := if c.Some? then c.value.accounts else [];
    var ids := AccountIds(Config(base, ""));
    match IndexOfId(base, a.identificationToken)
    case Some(i) =>
      forall j | 0 <= j < |base|
        ensures (base[j].identificationToken == a.identificationToken
                 && a.identificationToken !in AccountIds(Config(base[..j], ""))) <==> j == i
      {
        if j > i {
          assert AccountIds(Config(base[..j], ""))[i] == a.identificationToken;
        }
      }
    case None =>
  }

  /** After `addAccount` the resolved tokens are the added account's. */
  lemma AddThenReadConfig(c: Option<Config>, a: AccountEntry)
    ensures CurrentTokens(Load(Multi(AfterAdd(c, a)))) == Some(TokensOf(a))
  {
    var base := if c.Some? then c.value else EmptyConfig;
    var r := AfterAdd(c, a);
    match IndexOfId(base.accounts, a.identificationToken)
    case Some(i) =>
      assert r.accounts[i] == a;
      assert forall j :: 0 <= j < i ==> r.accounts[j] == base.accounts[j];
      FirstIndexOfId(r.accounts, a.identificationToken, i);
    case None =>
      var n := |base.accounts|;
      assert r.accounts[n] == a;
      assert forall j :: 0 <= j < n ==> r.accounts[j] == base.accounts[j];
      FirstIndexOfId(r.accounts, a.identificationToken, n);
  }

  /** Adding the same account twice writes the same store as adding it once. */
  lemma AddIdempotent(c: Option<Config>, a: AccountEntry)
    ensures AfterAdd(Load(Multi(AfterAdd(c, a))), a) == AfterAdd(c, a)
  {
    var base := if c.Some? then c.value else EmptyConfig;
    var r := AfterAdd(c, a);
    match IndexOfId(base.accounts, a.identificationToken)
    case Some(i) =>
      assert forall j :: 0 <= j < i ==> r.accounts[j] == base.accounts[j];
      FirstIndexOfId(r.accounts, a.identificationToken, i);
      assert r.accounts[i := a] == r.accounts;
    case None =>
      var n := |base.accounts|;
      assert forall j :: 0 <= j < n ==> r.accounts[j] == base.accounts[j];
      FirstIndexOfId(r.accounts, a.identificationToken, n);
      assert r.accounts[n := a] == r.accounts;
  }

  /** What `removeCurrentAccount` does to a loaded store: nothing when there is
      none or the active token names no account; otherwise that account is
      spliced out and the first remaining one (or nobody) becomes active. */
  function RemoveCurrent(c: Option<Config>): Option<Removal>
  {
    match c
    case None => None
    case Some(cfg) =>
      match IndexOfId(cfg.accounts, cfg.currentAccount)
      case None => None
      case Some(i) =>
        var rest := cfg.accounts[..i] + cfg.accounts[i + 1..];
        Some(Removal(cfg.accounts[i], Config(rest, if rest != [] then rest[0].identificationToken else "")))
  }

  /** Removal takes out exactly the active entry and keeps the others in order;
      the new active token is the first remaining account's, or empty. */
  lemma RemoveCurrentSpec(c: Option<Config>)
    ensures RemoveCurrent(c).None? <==> c.None? || c.value.currentAccount !in AccountIds(c.value)
    ensures RemoveCurrent(c).Some? ==>
              var cfg, r := c.value, RemoveCurrent(c).value;
              exists i :: 0 <= i < |cfg.accounts| &&
                cfg.accounts[i] == r.removed &&
                r.removed.identificationToken == cfg.currentAccount &&
                r.rest.accounts == cfg.accounts[..i] + cfg.accounts[i + 1..]
    ensures RemoveCurrent(c).Some? ==>
              var r := RemoveCurrent(c).value;
              r.rest.currentAccount == (if r.rest.accounts != [] then r.rest.accounts[0].identificationToken else "")
  {
    if c.Some? {
      match IndexOfId(c.value.accounts, c.value.currentAccount)
      case None =>
      case Some(i) =>
        assert AccountIds(c.value)[i] == c.value.currentAccount;
    }
  }

  /** After removing the active account, the next load resolves the first
      remaining account, and removing the only account leaves no store at all. */
  lemma RemoveThenReadConfig(c: Option<Config>)
    requires RemoveCurrent(c).Some?
    ensures var rest := RemoveCurrent(c).value.rest;
            CurrentTokens(Load(Multi(rest))) ==
              if rest.accounts == [] then None else Some(TokensOf(rest.accounts[0]))
  {
    var rest := RemoveCurrent(c).value.rest;
    if rest.accounts != [] {
      assert IndexOfId(rest.accounts, rest.currentAccount) == Some(0);
    }
  }

  /** Removing the active account of a one-account store leaves a file that
      loads as no store. */
  lemma RemoveLastAccount(a: AccountEntry)
    ensures RemoveCurrent(Some(Config([a], a.identificationToken))) ==
              Some(Removal(a, EmptyConfig))
    ensures Load(Multi(EmptyConfig)).None?
  {
    assert IndexOfId([a], a.identificationToken) == Some(0);
  }

  /** The entries of `listAccounts`: every account in order, flagged current
      exactly when its identification token is the active one. */
  function Listing(c: Option<Config>): (r: seq<ListedAccount>)
    ensures c.None? ==> r == []
    ensures c.Some? ==> |r| == |c.value.accounts|
    ensures c.Some? ==> forall j :: 0 <= j < |r| ==>
              r[j].account == c.value.accounts[j] &&
              (r[j].isCurrent <==> c.value.accounts[j].identificationToken == c.value.currentAccount)
  {
    match c
    case None => []
    case Some(cfg) =>
      seq(|cfg.accounts|, j requires 0 <= j < |cfg.accounts| =>
        ListedAccount(cfg.accounts[j], cfg.accounts[j].identificationToken == cfg.currentAccount))
  }

  /** After a removal that leaves accounts, the first listed entry flagged
      current is the first remaining account. */
  lemma RemoveThenFirstCurrent(c: Option<Config>)
    requires RemoveCurrent(c).Some? && RemoveCurrent(c).value.rest.accounts != []
    ensures var listed := Listing(Load(Multi(RemoveCurrent(c).value.rest)));
            |listed| > 0 && listed[0].isCurrent &&
            listed[0].account == RemoveCurrent(c).value.rest.accounts[0]
  {
  }

  /** The store `setCurrentAccount(id)` writes, if some account has that token. */
  function SetCurrent(c: Config, id: string): (r: Option<Config>)
    ensures r.Some? <==> id in AccountIds(c)
    ensures r.Some? ==> r.value.accounts == c.accounts && r.value.currentAccount == id
  {
    match IndexOfId(c.accounts, id)
    case None => None
    case Some(i) =>
      assert AccountIds(c)[i] == id;
      Some(Config(c.accounts, id))
  }

  /** After switching to an account, readConfig resolves the tokens of the
      first account with that identification token. */
  lemma SwitchThenReadConfig(c: Config, i: nat)
    requires i < |c.accounts|
    ensures var id := c.accounts[i].identificationToken;
            var r := SetCurrent(c, id);
            r.Some? &&
            CurrentTokens(Load(Multi(r.value))) == Some(TokensOf(c.accounts[IndexOfId(c.accounts, id).value]))
  {
    var id := c.accounts[i].identificationToken;
    assert AccountIds(c)[i] == id;
    assert IndexOfId(c.accounts, id).Some?;
  }

  /** The store `renameAccount(id, newName)` writes, if some account has that
      token: the first such account gets the new name. */
  function Rename(c: Config, id: string, newName: string): Option<Config>
  {
    match IndexOfId(c.accounts, id)
    case None => None
    case Some(i) => Some(Config(c.accounts[i := c.accounts[i].(name := newName)], c.currentAccount))
  }

  /** Renaming changes only the name of the first account with the token:
      tokens, order and the active account are kept, and so are the tokens
      readConfig resolves. */
  lemma RenameChangesOnlyName(c: Config, id: string, newName: string)
    ensures Rename(c, id, newName).Some? <==> id in AccountIds(c)
    ensures Rename(c, id, newName).Some? ==>
              var r := Rename(c, id, newName).value;
              var i := IndexOfId(c.accounts, id).value;
              r.currentAccount == c.currentAccount &&
              |r.accounts| == |c.accounts| &&
              r.accounts[i].name == newName &&
              (forall j :: 0 <= j < |c.accounts| ==> TokensOf(r.accounts[j]) == TokensOf(c.accounts[j])) &&
              (forall j :: 0 <= j < |c.accounts| && j != i ==> r.accounts[j] == c.accounts[j]) &&
              CurrentTokens(Some(r)) == CurrentTokens(Some(c))
  {
    match IndexOfId(c.accounts, id)
    case None =>
    case Some(i) =>
      assert AccountIds(c)[i] == id;
      var r := Rename(c, id, newName).value;
      assert forall j :: 0 <= j < |c.accounts| ==>
        r.accounts[j].identificationToken == c.accounts[j].identificationToken;
      IndexOfIdSameTokens(c.accounts, r.accounts, c.currentAccount);
  }

  /** The first-index search depends on the identification tokens alone. */
  lemma {:induction false} IndexOfIdSameTokens(a: seq<AccountEntry>, b: seq<AccountEntry>, id: string)
    requires |a| == |b|
    requires forall j :: 0 <= j < |a| ==> a[j].identificationToken == b[j].identificationToken
    ensures IndexOfId(a, id) == IndexOfId(b, id)
  {
    if a != [] {
      IndexOfIdSameTokens(a[1..], b[1..], id);
    }
  }

  /** The linear search of `find`/`findIndex` by identification token. */
  method SearchById(accounts: seq<AccountEntry>, id: string) returns (r: Option<nat>)
    ensures r == IndexOfId(accounts, id)
  {
    var k := 0;
    while k < |accounts|
      invariant 0 <= k <= |accounts|
      invariant forall j :: 0 <= j < k ==> accounts[j].identificationToken != id
    {
      if accounts[k].identificationToken == id {
        FirstIndexOfId(accounts, id, k);
        return Some(k);
      }
      k := k + 1;
    }
    FirstIndexOfId(accounts, id, |accounts|);
    r := None;
  }

  /** The search result is pinned down by where the first match is. */
  lemma {:induction false} FirstIndexOfId(accounts: seq<AccountEntry>, id: string, k: nat)
    requires k <= |accounts|
    requires forall j :: 0 <= j < k ==> accounts[j].identificationToken != id
    requires k < |accounts| ==> accounts[k].identificationToken == id
    ensures IndexOfId(accounts, id) == if k < |accounts| then Some(k) else None
  {
    if k > 0 {
      FirstIndexOfId(accounts[1..], id, k - 1);
    }
  }

  /** The linear search of `findAccountByName`. */
  method SearchByName(accounts: seq<AccountEntry>, query: string) returns (r: Option<nat>)
    ensures r == IndexOfName(accounts, query)
  {
    var lowerQuery := Text.ToLower(query);
    var k := 0;
    while k < |accounts|
      invariant 0 <= k <= |accounts|
      invariant forall j :: 0 <= j < k ==> !NameMatches(accounts[j], query)
    {
      if Text.Contains(Text.ToLower(accounts[k].name), lowerQuery) {
        FirstIndexOfName(accounts, query, k);
        return Some(k);
      }
      k := k + 1;
    }
    FirstIndexOfName(accounts, query, |accounts|);
    r := None;
  }

  lemma {:induction false} FirstIndexOfName(accounts: seq<AccountEntry>, query: string, k: nat)
    requires k <= |accounts|
    requires forall j :: 0 <= j < k ==> !NameMatches(accounts[j], query)
    requires k < |accounts| ==> NameMatches(accounts[k], query)
    ensures IndexOfName(accounts, query) == if k < |accounts| then Some(k) else None
  {
    if k > 0 {
      FirstIndexOfName(accounts[1..], query, k - 1);
    }
  }

  /** The configuration file and the operations on it. */
  class Store {
    var disk: Disk

    constructor (d: Disk)
      ensures disk == d
    {
      disk := d;
    }

    /** Loads the file, migrating and rewriting a legacy one. */
    method ReadRawConfig() returns (r: Option<Config>)
      modifies this
      ensures r == Load(old(disk))
      ensures disk == Rewritten(old(disk))
    {
      match disk
      case Missing =>
        r := None;
      case Garbage =>
        r := None;
      case Legacy(t, id) =>
        var migrated := Migrated(t, id);
        SaveRawConfig(migrated);
        r := Some(migrated);
      case Multi(c) =>
        r := if |c.accounts| > 0 then Some(c) else None;
    }

    /** Writes the whole store. */
    method SaveRawConfig(c: Config)
      modifies this
      ensures disk == Multi(c)
    {
      disk := Multi(c);
    }

    method ReadConfig() returns (r: Option<Tokens>)
      modifies this
      ensures r == CurrentTokens(Load(old(disk)))
      ensures disk == Rewritten(old(disk))
    {
      var config := ReadRawConfig();
      if config.None? {
        return None;
      }
      var cfg := config.value;
      var current := SearchById(cfg.accounts, cfg.currentAccount);
      if current.None? {
        if |cfg.accounts| == 0 {
          return None;
        }
        return Some(TokensOf(cfg.accounts[0]));
      }
      r := Some(TokensOf(cfg.accounts[current.value]));
    }

    method AddAccount(account: AccountEntry)
      modifies this
      ensures disk == Multi(AfterAdd(Load(old(disk)), account))
    {
      var loaded := ReadRawConfig();
      var config := if loaded.Some? then loaded.value else EmptyConfig;
      var existingIndex := SearchById(config.accounts, account.identificationToken);
      var accounts := config.accounts;
      if existingIndex.Some? {
        accounts := accounts[existingIndex.value := account];
      } else {
        accounts := accounts + [account];
      }
      SaveRawConfig(Config(accounts, account.identificationToken));
    }

    method RemoveCurrentAccount() returns (removed: Option<AccountEntry>)
      modifies this
      ensures var r := RemoveCurrent(Load(old(disk)));
              removed == (if r.Some? then Some(r.value.removed) else None) &&
              disk == (if r.Some? then Multi(r.value.rest) else Rewritten(old(disk)))
    {
      var config := ReadRawConfig();
      if config.None? {
        return None;
      }
      var cfg := config.value;
      var currentIndex := SearchById(cfg.accounts, cfg.currentAccount);
      if currentIndex.None? {
        return None;
      }
      var i := currentIndex.value;
      var entry := cfg.accounts[i];
      var accounts := cfg.accounts[..i] + cfg.accounts[i + 1..];
      var currentAccount := if |accounts| > 0 then accounts[0].identificationToken else "";
      SaveRawConfig(Config(accounts, currentAccount));
      removed := Some(entry);
    }

    method RemoveAllAccounts() returns (count: nat)
      modifies this
      ensures count == (if Load(old(disk)).Some? then |Load(old(disk)).value.accounts| else 0)
      ensures disk == (if Load(old(disk)).Some? then Multi(EmptyConfig) else Rewritten(old(disk)))
    {
      var config := ReadRawConfig();
      if config.None? {
        return 0;
      }
      count := |config.value.accounts|;
      SaveRawConfig(EmptyConfig);
    }

    method ListAccounts() returns (list: seq<ListedAccount>)
      modifies this
      ensures list == Listing(Load(old(disk)))
      ensures disk == Rewritten(old(disk))
    {
      var config := ReadRawConfig();
      if config.None? {
        return [];
      }
      var cfg := config.value;
      list := seq(|cfg.accounts|, j requires 0 <= j < |cfg.accounts| =>
        ListedAccount(cfg.accounts[j], cfg.accounts[j].identificationToken == cfg.currentAccount));
    }

    method SetCurrentAccount(identificationToken: string) returns (ok: bool)
      modifies this
      ensures var c := Load(old(disk));
              ok == (c.Some? && SetCurrent(c.value, identificationToken).Some?) &&
              disk == (if ok then Multi(SetCurrent(c.value, identificationToken).value) else Rewritten(old(disk)))
    {
      var config := ReadRawConfig();
      if config.None? {
        return false;
      }
      var cfg := config.value;
      var account := SearchById(cfg.accounts, identificationToken);
      if account.None? {
        return false;
      }
      SaveRawConfig(Config(cfg.accounts, identificationToken));
      ok := true;
    }

    method FindAccountByName(nameQuery: string) returns (r: Option<AccountEntry>)
      modifies this
      ensures var c := Load(old(disk));
              r == (if c.Some? && IndexOfName(c.value.accounts, nameQuery).Some?
                    then Some(c.value.accounts[IndexOfName(c.value.accounts, nameQuery).value])
                    else None)
      ensures disk == Rewritten(old(disk))
    {
      var config := ReadRawConfig();
      if config.None? {
        return None;
      }
      var index := SearchByName(config.value.accounts, nameQuery);
      r := if index.Some? then Some(config.value.accounts[index.value]) else None;
    }

    method RenameAccount(identificationToken: string, newName: string) returns (ok: bool)
      modifies this
      ensures var c := Load(old(disk));
              ok == (c.Some? && Rename(c.value, identificationToken, newName).Some?) &&
              disk == (if ok then Multi(Rename(c.value, identificationToken, newName).value) else Rewritten(old(disk)))
    {
      var config := ReadRawConfig();
      if config.None? {
        return false;
      }
      var cfg := config.value;
      var index := SearchById(cfg.accounts, identificationToken);
      if index.None? {
        return false;
      }
      var i := index.value;
      var accounts := cfg.accounts[i := cfg.accounts[i].(name := newName)];
      SaveRawConfig(Config(accounts, cfg.currentAccount));
      ok := true;
    }

    /** Deletes the file; reports whether there was one. */
    method DeleteConfig() returns (existed: bool)
      modifies this
      ensures existed <==> !old(disk).Missing?
      ensures disk == Missing
    {
      existed := !disk.Missing?;
      disk := Missing;
    }
  }
}
