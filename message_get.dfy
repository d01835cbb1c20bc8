/** `message get` (src/commands/message/get.ts): fetch the conversation with a
    person in two phases. Poll first; only if the poll reports errors, run the
    synchronisation workflow once and poll a second and last time. The protocol
    is parameterised by the conversation type and the synchronisation workflow
    so that `navigator message get` shares it. */
module MessageGet {

  import opened Wrappers
  import Text
  import opened Json
  import opened Process
  import ConfigStore
  import AuthManager
  import opened LinkedApi
  import opened BaseCommand
  import Formatter

  /** The one-element batch both polls send. */
  function Target(personUrl: string, conversationType: string, since: Option<string>): seq<ConversationTarget>
  {
    [ConversationTarget(personUrl, conversationType, since)]
  }

  /** `data ? data[0] : undefined`. */
  function FirstConversation(data: Option<Value>): (r: Option<Value>)
    ensures data.None? || !Truthy(data.value) ==> r.None?
  {
    if data.Some? && Truthy(data.value) then
      match data.value
      case JArr(items) => if items == [] then None else Some(items[0])
      case JObj(ms) => Lookup(ms, "0")
      case JStr(s) => if s == "" then None else Some(JStr([s[0]]))
      case _ => None
    else None
  }

  /** The first conversation is the property `0` of truthy data: the first
      element of an array, nothing for an empty one. */
  lemma FirstConversationIsIndexZero(data: Value)
    requires Truthy(data)
    ensures FirstConversation(Some(data)) == Property(data, "0")
    ensures data.JArr? ==> FirstConversation(Some(data)) == if data.items == [] then None else Some(data.items[0])
  {
    assert Text.NatToString(0) == "0";
    if data.JArr? && data.items != [] {
      assert Text.IndexNamed("0", |data.items|) == Some(0);
    } else if data.JStr? && data.s != "" {
      assert Text.IndexNamed("0", |data.s|) == Some(0);
    }
  }

  /** The parameters of the synchronisation workflow. */
  function SyncParams(personUrl: string): Value
  {
    JObj([Member("personUrl", JStr(personUrl))])
  }

  /** The fetch when its first call is the service's call number `start`. */
  function ConversationFetch(s: Service, start: nat, tokens: ConfigStore.Tokens, personUrl: string,
                             conversationType: string, syncOperation: string, since: Option<string>,
                             isQuiet: bool): Outcome
  {
    var poll := Call(tokens, Request.Poll(Target(personUrl, conversationType, since)));
    var fetching := if isQuiet then [] else [Str("Fetching conversation...\n")];
    var first := s.pollReply(start, poll);
    if first.Err? then Outcome([poll], fetching, Failed(first.error))
    else if first.value.errors == [] then
      Outcome([poll], fetching, Formatted(FirstConversation(first.value.data), []))
    else
      var syncing := if isQuiet then [] else [Str("Syncing conversation (first time, may take a moment)...\n")];
      var slow := SyncFetch(s, start + 1, tokens, personUrl, conversationType, syncOperation, since);
      Outcome([poll] + slow.calls, fetching + syncing + slow.progress, slow.ending)
  }

  /** The slow path, from the start of the synchronisation workflow on: it
      writes no progress lines of its own. */
  function SyncFetch(s: Service, start: nat, tokens: ConfigStore.Tokens, personUrl: string,
                     conversationType: string, syncOperation: string, since: Option<string>): (f: Outcome)
    ensures f.progress == []
  {
    var poll := Call(tokens, Request.Poll(Target(personUrl, conversationType, since)));
    var exec := Call(tokens, Request.Execute(syncOperation, SyncParams(personUrl)));
    var started := s.executeReply(start, exec);
    if started.Err? then Outcome([exec], [], Failed(started.error))
    else
      var wait := Call(tokens, Request.FetchResult(syncOperation, started.value));
      var synced := s.resultReply(start + 1, wait);
      if synced.Err? then Outcome([exec, wait], [], Failed(synced.error))
      else
        var retry := s.pollReply(start + 2, poll);
        if retry.Err? then Outcome([exec, wait, poll], [], Failed(retry.error))
        else Outcome([exec, wait, poll], [], Formatted(FirstConversation(retry.value.data), retry.value.errors))
  }

  /** A first poll without errors ends the fetch: one call, its first
      conversation is the output, and nothing is synchronised. */
  lemma FastPath(s: Service, start: nat, tokens: ConfigStore.Tokens, personUrl: string, conversationType: string,
                 syncOperation: string, since: Option<string>, isQuiet: bool)
    requires var first := s.pollReply(start, Call(tokens, Request.Poll(Target(personUrl, conversationType, since))));
             first.Ok? && first.value.errors == []
    ensures var f := ConversationFetch(s, start, tokens, personUrl, conversationType, syncOperation, since, isQuiet);
            var first := s.pollReply(start, Call(tokens, Request.Poll(Target(personUrl, conversationType, since))));
            f.calls == [Call(tokens, Request.Poll(Target(personUrl, conversationType, since)))] &&
            f.ending == Formatted(FirstConversation(first.value.data), [])
  {
  }

  /** A first poll with errors leads to exactly one start of the
      synchronisation workflow, one wait on the id it returned, and one more
      poll of the same target, whose data and errors are the output as they are. */
  lemma SlowPath(s: Service, start: nat, tokens: ConfigStore.Tokens, personUrl: string, conversationType: string,
                 syncOperation: string, since: Option<string>, isQuiet: bool)
    requires var first := s.pollReply(start, Call(tokens, Request.Poll(Target(personUrl, conversationType, since))));
             first.Ok? && first.value.errors != []
    ensures var f := ConversationFetch(s, start, tokens, personUrl, conversationType, syncOperation, since, isQuiet);
            var poll := Call(tokens, Request.Poll(Target(personUrl, conversationType, since)));
            var exec := Call(tokens, Request.Execute(syncOperation, SyncParams(personUrl)));
            var started := s.executeReply(start + 1, exec);
            2 <= |f.calls| <= 4 && f.calls[0] == poll && f.calls[1] == exec &&
            (started.Ok? ==> f.calls[2] == Call(tokens, Request.FetchResult(syncOperation, started.value))) &&
            (|f.calls| == 4 ==> f.calls[3] == poll) &&
            (|f.calls| == 4 && s.pollReply(start + 3, poll).Ok? ==>
               var retry := s.pollReply(start + 3, poll).value;
               f.ending == Formatted(FirstConversation(retry.data), retry.errors))
  {
  }

  /** Every poll of a fetch asks for the same one conversation, and at most two
      polls are made. */
  lemma PollsShareTheTarget(s: Service, start: nat, tokens: ConfigStore.Tokens, personUrl: string,
                            conversationType: string, syncOperation: string, since: Option<string>, isQuiet: bool)
    ensures var f := ConversationFetch(s, start, tokens, personUrl, conversationType, syncOperation, since, isQuiet);
            (forall i :: 0 <= i < |f.calls| && f.calls[i].request.Poll? ==>
               f.calls[i].request.targets == [ConversationTarget(personUrl, conversationType, since)]) &&
            (forall i :: 0 <= i < |f.calls| && f.calls[i].request.Poll? ==> i == 0 || i == 3) &&
            (forall i :: 0 <= i < |f.calls| ==> f.calls[i].tokens == tokens)
  {
    var f := ConversationFetch(s, start, tokens, personUrl, conversationType, syncOperation, since, isQuiet);
    var poll := Call(tokens, Request.Poll(Target(personUrl, conversationType, since)));
    var first := s.pollReply(start, poll);
    if first.Ok? && first.value.errors != [] {
      var slow := SyncFetch(s, start + 1, tokens, personUrl, conversationType, syncOperation, since);
      SyncCalls(s, start + 1, tokens, personUrl, conversationType, syncOperation, since);
      assert f.calls == [poll] + slow.calls;
      forall i | 0 <= i < |f.calls|
        ensures f.calls[i] == if i == 0 then poll else slow.calls[i - 1]
      {
      }
    } else {
      assert f.calls == [poll];
    }
  }

  /** The slow path's calls: the start of the synchronisation, the wait on it,
      then the second poll, each made with the same tokens. */
  lemma SyncCalls(s: Service, start: nat, tokens: ConfigStore.Tokens, personUrl: string,
                  conversationType: string, syncOperation: string, since: Option<string>)
    ensures var f := SyncFetch(s, start, tokens, personUrl, conversationType, syncOperation, since);
            1 <= |f.calls| <= 3 && f.calls[0].request.Execute? &&
            (|f.calls| > 1 ==> f.calls[1].request.FetchResult?) &&
            (|f.calls| > 2 ==> f.calls[2] == Call(tokens, Request.Poll(Target(personUrl, conversationType, since)))) &&
            (forall i :: 0 <= i < |f.calls| ==> f.calls[i].tokens == tokens)
  {
  }

  /** No progress line in quiet mode; otherwise the "Syncing" line appears
      exactly when the first poll reported errors. */
  lemma FetchProgress(s: Service, start: nat, tokens: ConfigStore.Tokens, personUrl: string,
                      conversationType: string, syncOperation: string, since: Option<string>, isQuiet: bool)
    ensures var f := ConversationFetch(s, start, tokens, personUrl, conversationType, syncOperation, since, isQuiet);
            var first := s.pollReply(start, Call(tokens, Request.Poll(Target(personUrl, conversationType, since))));
            (isQuiet ==> f.progress == []) &&
            (!isQuiet ==> f.progress[0] == Str("Fetching conversation...\n")) &&
            (!isQuiet ==>
               (Str("Syncing conversation (first time, may take a moment)...\n") in f.progress <==>
                first.Ok? && first.value.errors != []))
  {
  }

  /** The body of `run` after the client is built: the fetch, then
      `formatOutput`, with anything thrown routed to `handleError` (the early
      `return` after the fast path's output ends the `try` the same way). */
  method FetchConversation(service: Service, console: Console, tokens: ConfigStore.Tokens, flags: BaseFlags,
                           personUrl: string, since: Option<string>, conversationType: string,
                           syncOperation: string)
    requires service.Valid() && console.Open()
    modifies service, console
    ensures service.Valid()
    ensures Performed(service, console,
                      ConversationFetch(service, old(service.clock), tokens, personUrl, conversationType,
                                        syncOperation, since, flags.quiet), flags)
  {
    var ending := PollAndSync(service, console, tokens, flags.quiet, personUrl, since, conversationType, syncOperation);
    Finish(console, ending, flags);
  }

  /** The fetch up to its output: the polls and the synchronisation, with
      their progress lines. */
  method PollAndSync(service: Service, console: Console, tokens: ConfigStore.Tokens, isQuiet: bool,
                     personUrl: string, since: Option<string>, conversationType: string, syncOperation: string)
    returns (ending: Ending)
    requires service.Valid() && console.Open()
    modifies service, console
    ensures service.Valid() && console.Open()
    ensures var f := ConversationFetch(service, old(service.clock), tokens, personUrl, conversationType,
                                       syncOperation, since, isQuiet);
            service.trace == old(service.trace) + f.calls &&
            console.stderr == old(console.stderr) + f.progress &&
            ending == f.ending
    ensures console.stdout == old(console.stdout)
  {
    ghost var start := service.clock;
    if !isQuiet {
      console.Err(Str("Fetching conversation...\n"));
    }
    var target := Target(personUrl, conversationType, since);
    var conversations := service.Poll(tokens, target);
    FetchSteps(service, start, tokens, personUrl, conversationType, syncOperation, since, isQuiet);
    if conversations.Err? {
      return Failed(conversations.error);
    }
    if conversations.value.errors == [] {
      return Formatted(FirstConversation(conversations.value.data), []);
    }
    ending := SyncAfterPoll(service, console, tokens, isQuiet, personUrl, since, conversationType, syncOperation);
  }

  /** The slow path once the first poll reported errors: the "Syncing" line,
      then the synchronisation, the wait and the second poll. */
  method SyncAfterPoll(service: Service, console: Console, tokens: ConfigStore.Tokens, isQuiet: bool,
                       personUrl: string, since: Option<string>, conversationType: string, syncOperation: string)
    returns (ending: Ending)
    requires service.Valid() && console.Open()
    modifies service, console
    ensures service.Valid() && console.Open()
    ensures var slow := SyncFetch(service, old(service.clock), tokens, personUrl, conversationType, syncOperation, since);
            service.trace == old(service.trace) + slow.calls &&
            console.stderr == old(console.stderr) +
              (if isQuiet then [] else [Str("Syncing conversation (first time, may take a moment)...\n")]) &&
            ending == slow.ending
    ensures console.stdout == old(console.stdout)
  {
    if !isQuiet {
      console.Err(Str("Syncing conversation (first time, may take a moment)...\n"));
    }
    ending := SyncAndRetry(service, tokens, personUrl, since, conversationType, syncOperation);
  }

  /** The three ways the fetch goes, by the answer to the first poll. */
  lemma FetchSteps(s: Service, start: nat, tokens: ConfigStore.Tokens, personUrl: string,
                   conversationType: string, syncOperation: string, since: Option<string>, isQuiet: bool)
    ensures var poll := Call(tokens, Request.Poll(Target(personUrl, conversationType, since)));
            var first := s.pollReply(start, poll);
            var fetching := if isQuiet then [] else [Str("Fetching conversation...\n")];
            var syncing := if isQuiet then [] else [Str("Syncing conversation (first time, may take a moment)...\n")];
            var slow := SyncFetch(s, start + 1, tokens, personUrl, conversationType, syncOperation, since);
            var f := ConversationFetch(s, start, tokens, personUrl, conversationType, syncOperation, since, isQuiet);
            (first.Err? ==> f == Outcome([poll], fetching, Failed(first.error))) &&
            (first.Ok? && first.value.errors == [] ==>
               f == Outcome([poll], fetching, Formatted(FirstConversation(first.value.data), []))) &&
            (first.Ok? && first.value.errors != [] ==>
               f == Outcome([poll] + slow.calls, fetching + syncing, slow.ending))
  {
  }

  /** The slow path of `run` up to its output: synchronise, wait and poll again. */
  method SyncAndRetry(service: Service, tokens: ConfigStore.Tokens, personUrl: string, since: Option<string>,
                      conversationType: string, syncOperation: string) returns (ending: Ending)
    requires service.Valid()
    modifies service
    ensures service.Valid()
    ensures var f := SyncFetch(service, old(service.clock), tokens, personUrl, conversationType, syncOperation, since);
            service.trace == old(service.trace) + f.calls && ending == f.ending
  {
    var target := Target(personUrl, conversationType, since);
    var workflowId := service.Execute(tokens, syncOperation, SyncParams(personUrl));
    if workflowId.Err? {
      return Failed(workflowId.error);
    }
    var synced := service.FetchResult(tokens, syncOperation, workflowId.value);
    if synced.Err? {
      return Failed(synced.error);
    }
    var retryResult := service.Poll(tokens, target);
    if retryResult.Err? {
      return Failed(retryResult.error);
    }
    return Formatted(FirstConversation(retryResult.value.data), retryResult.value.errors);
  }

  /** `message get <person-url> [--since]`: the fetch with type 'st' and the
      `syncConversation` workflow, once the client is built. */
  method Run(store: ConfigStore.Store, service: Service, console: Console, flags: BaseFlags, personUrl: string,
             since: Option<string>)
    requires service.Valid() && console.Open()
    modifies store, service, console
    ensures service.Valid()
    ensures store.disk == ConfigStore.Rewritten(old(store.disk))
    ensures var auth := AuthManager.Resolve(ConfigStore.Load(old(store.disk)), flags.account);
            auth.Err? ==> Unauthenticated(service, console, auth.error)
    ensures var auth := AuthManager.Resolve(ConfigStore.Load(old(store.disk)), flags.account);
            auth.Ok? ==>
              Performed(service, console,
                        ConversationFetch(service, old(service.clock), auth.value, personUrl, "st", "syncConversation", since,
                                          flags.quiet), flags)
  {
    var client := BuildAuthenticatedClient(store, console, flags);
    if client.None? {
      return;
    }
    FetchConversation(service, console, client.value, flags, personUrl, since, "st", "syncConversation");
  }
}
