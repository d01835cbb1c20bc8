/** `post fetch` (src/commands/post/fetch.ts): the post URL, the sections to
    retrieve and their retrieval configurations, then the `fetchPost`
    workflow. */
module PostFetch {

  import opened Wrappers
  import opened Json
  import opened Params
  import Process
  import ConfigStore
  import AuthManager
  import LinkedApi
  import opened BaseCommand
  import WorkflowRunner

  /** The post URL argument and the command's own flags; `commentsSort` is one
      of `mostRelevant` and `mostRecent` when given. */
  datatype FetchFlags = FetchFlags(
    url: string,
    comments: bool, reactions: bool,
    commentsLimit: Option<int>, commentsSort: Option<string>, commentsReplies: bool,
    reactionsLimit: Option<int>)

  const Operation := "fetchPost"

  /** The assignments to the comments `config`. */
  function CommentsConfigEntries(f: FetchFlags): seq<Entry>
  {
    [Entry("limit", NumberParam(f.commentsLimit)),
     Entry("sort", TextParam(f.commentsSort)),
     Entry("replies", TrueParam(f.commentsReplies))]
  }

  /** The guard of the comments configuration. */
  predicate CommentsConfigured(f: FetchFlags)
  {
    f.comments && (GivenNumber(f.commentsLimit) || GivenText(f.commentsSort) || f.commentsReplies)
  }

  /** The assignments to `params`, starting from the post URL; the comments
      configuration is assigned as built, even when it is empty. */
  function ParamEntries(f: FetchFlags, commentsConfig: seq<Member>): seq<Entry>
  {
    [Entry("postUrl", Some(JStr(f.url))),
     Entry("retrieveComments", TrueParam(f.comments)),
     Entry("retrieveReactions", TrueParam(f.reactions)),
     Entry("commentsRetrievalConfig", if CommentsConfigured(f) then Some(JObj(commentsConfig)) else None),
     Entry("reactionsRetrievalConfig",
           if f.reactions && GivenNumber(f.reactionsLimit)
           then Some(JObj([Member("limit", JNum(f.reactionsLimit.value))])) else None)]
  }

  /** The parameters the workflow receives. */
  function FetchParams(f: FetchFlags): Value
  {
    JObj(Record(ParamEntries(f, Record(CommentsConfigEntries(f)))))
  }

  /** The post URL is always sent, and each section is requested exactly when
      its flag is set. */
  lemma SectionsRequested(f: FetchFlags)
    ensures var p := FetchParams(f).members;
            Lookup(p, "postUrl") == Some(JStr(f.url)) &&
            (Lookup(p, "retrieveComments").Some? <==> f.comments) &&
            (Lookup(p, "retrieveReactions").Some? <==> f.reactions)
  {
    var es := ParamEntries(f, Record(CommentsConfigEntries(f)));
    assert es[0].key == "postUrl" && es[1].key == "retrieveComments" && es[2].key == "retrieveReactions";
    RecordLookup(es, 0);
    RecordLookup(es, 1);
    RecordLookup(es, 2);
  }

  /** The comments configuration holds exactly the truthy ones of the limit,
      the sort order and the replies flag. */
  lemma CommentsConfigContents(f: FetchFlags)
    ensures var c := Record(CommentsConfigEntries(f));
            Lookup(c, "limit") == NumberParam(f.commentsLimit) &&
            Lookup(c, "sort") == TextParam(f.commentsSort) &&
            Lookup(c, "replies") == TrueParam(f.commentsReplies) &&
            (c != [] <==> GivenNumber(f.commentsLimit) || GivenText(f.commentsSort) || f.commentsReplies)
  {
    var ce := CommentsConfigEntries(f);
    assert ce[0].key == "limit" && ce[1].key == "sort" && ce[2].key == "replies";
    RecordLookup(ce, 0);
    RecordLookup(ce, 1);
    RecordLookup(ce, 2);
    RecordEmpty(ce);
  }

  /** The comments configuration is sent exactly when comments are requested
      with a truthy limit, a sort order or replies, and is then that
      configuration (never empty, by the lemma above). */
  lemma CommentsConfigSent(f: FetchFlags)
    ensures var p := FetchParams(f).members;
            (Lookup(p, "commentsRetrievalConfig").Some? <==> CommentsConfigured(f)) &&
            (CommentsConfigured(f) ==>
               Lookup(p, "commentsRetrievalConfig") == Some(JObj(Record(CommentsConfigEntries(f)))))
  {
    var es := ParamEntries(f, Record(CommentsConfigEntries(f)));
    assert es[3].key == "commentsRetrievalConfig";
    RecordLookup(es, 3);
  }

  /** The reactions configuration is sent exactly when reactions are requested
      with a truthy limit, and holds that limit. */
  lemma ReactionsConfigSent(f: FetchFlags)
    ensures var p := FetchParams(f).members;
            (Lookup(p, "reactionsRetrievalConfig").Some? <==> f.reactions && GivenNumber(f.reactionsLimit)) &&
            (Lookup(p, "reactionsRetrievalConfig").Some? ==>
               Lookup(p, "reactionsRetrievalConfig") == Some(JObj([Member("limit", JNum(f.reactionsLimit.value))])))
  {
    var es := ParamEntries(f, Record(CommentsConfigEntries(f)));
    assert es[4].key == "reactionsRetrievalConfig";
    RecordLookup(es, 4);
  }

  /** The comments `config` of `run`. */
  method BuildCommentsConfig(f: FetchFlags) returns (config: seq<Member>)
    ensures config == Record(CommentsConfigEntries(f))
  {
    ghost var es := CommentsConfigEntries(f);
    assert es[0] == Entry("limit", NumberParam(f.commentsLimit));
    assert es[1] == Entry("sort", TextParam(f.commentsSort));
    assert es[2] == Entry("replies", TrueParam(f.commentsReplies));
    config := [];
    if GivenNumber(f.commentsLimit) { config := config + [Member("limit", JNum(f.commentsLimit.value))]; }
    assert config == Built(es, 1);
    if GivenText(f.commentsSort) { config := config + [Member("sort", JStr(f.commentsSort.value))]; }
    assert config == Built(es, 2);
    if f.commentsReplies { config := config + [Member("replies", JBool(true))]; }
    assert config == Built(es, 3);
  }

  /** The parameter construction of `run`. The comments configuration is a
      pure computation, built here before it is needed. */
  method BuildParams(f: FetchFlags) returns (params: Value)
    ensures params == FetchParams(f)
  {
    var commentsConfig := BuildCommentsConfig(f);
    ghost var es := ParamEntries(f, commentsConfig);
    assert es[0] == Entry("postUrl", Some(JStr(f.url)));
    assert es[1] == Entry("retrieveComments", TrueParam(f.comments));
    assert es[2] == Entry("retrieveReactions", TrueParam(f.reactions));
    var ps := [Member("postUrl", JStr(f.url))];
    assert ps == Built(es, 1);
    if f.comments { ps := ps + [Member("retrieveComments", JBool(true))]; }
    assert ps == Built(es, 2);
    if f.reactions { ps := ps + [Member("retrieveReactions", JBool(true))]; }
    assert ps == Built(es, 3);
    if f.comments && (GivenNumber(f.commentsLimit) || GivenText(f.commentsSort) || f.commentsReplies) {
      ps := ps + [Member("commentsRetrievalConfig", JObj(commentsConfig))];
    }
    assert ps == Built(es, 4);
    if f.reactions && GivenNumber(f.reactionsLimit) {
      ps := ps + [Member("reactionsRetrievalConfig", JObj([Member("limit", JNum(f.reactionsLimit.value))]))];
    }
    assert ps == Built(es, 5);
    params := JObj(ps);
  }

  /** `post fetch`: the workflow runs with the parameters specified above. */
  method Run(store: ConfigStore.Store, service: LinkedApi.Service, console: Process.Console, flags: BaseFlags,
             f: FetchFlags)
    requires service.Valid() && console.Open()
    modifies store, service, console
    ensures service.Valid()
    ensures store.disk == ConfigStore.Rewritten(old(store.disk))
    ensures var auth := AuthManager.Resolve(ConfigStore.Load(old(store.disk)), flags.account);
            auth.Err? ==> Unauthenticated(service, console, auth.error)
    ensures var auth := AuthManager.Resolve(ConfigStore.Load(old(store.disk)), flags.account);
            auth.Ok? ==> WorkflowRunner.RanWorkflow(service, console, auth.value, Operation, FetchParams(f), flags)
  {
    var client := BuildAuthenticatedClient(store, console, flags);
    if client.None? {
      return;
    }
    var params := BuildParams(f);
    WorkflowRunner.RunAndFormat(service, console, client.value, Operation, params, flags);
  }
}
