/** `person fetch` (src/commands/person/fetch.ts): the profile URL, the
    sections to retrieve and the retrieval configurations of posts, comments
    and reactions, then the `fetchPerson` workflow. */
module PersonFetch {

  import opened Wrappers
  import opened Json
  import opened Params
  import Process
  import ConfigStore
  import AuthManager
  import LinkedApi
  import opened BaseCommand
  import WorkflowRunner

  datatype FetchFlags = FetchFlags(
    url: string,
    experience: bool, education: bool, skills: bool, languages: bool,
    posts: bool, comments: bool, reactions: bool,
    postsLimit: Option<int>, postsSince: Option<string>,
    commentsLimit: Option<int>, commentsSince: Option<string>,
    reactionsLimit: Option<int>, reactionsSince: Option<string>)

  const Operation := "fetchPerson"

  /** `if (section && (limit || since)) params.key = config`. */
  function SectionConfig(section: bool, limit: Option<int>, since: Option<string>): Option<Value>
  {
    if section && (GivenNumber(limit) || GivenText(since)) then Some(JObj(Record(LimitSinceEntries(limit, since))))
    else None
  }

  /** The assignments to `params`, starting from the profile URL. */
  function ParamEntries(f: FetchFlags): seq<Entry>
  {
    [Entry("personUrl", Some(JStr(f.url))),
     Entry("retrieveExperience", TrueParam(f.experience)),
     Entry("retrieveEducation", TrueParam(f.education)),
     Entry("retrieveSkills", TrueParam(f.skills)),
     Entry("retrieveLanguages", TrueParam(f.languages)),
     Entry("retrievePosts", TrueParam(f.posts)),
     Entry("retrieveComments", TrueParam(f.comments)),
     Entry("retrieveReactions", TrueParam(f.reactions)),
     Entry("postsRetrievalConfig", SectionConfig(f.posts, f.postsLimit, f.postsSince)),
     Entry("commentsRetrievalConfig", SectionConfig(f.comments, f.commentsLimit, f.commentsSince)),
     Entry("reactionsRetrievalConfig", SectionConfig(f.reactions, f.reactionsLimit, f.reactionsSince))]
  }

  /** The parameters the workflow receives. */
  function FetchParams(f: FetchFlags): Value
  {
    JObj(Record(ParamEntries(f)))
  }

  /** The profile URL is always sent, and each section is requested exactly
      when its flag is set. */
  lemma SectionsRequested(f: FetchFlags)
    ensures var p := FetchParams(f).members;
            Lookup(p, "personUrl") == Some(JStr(f.url)) &&
            (Lookup(p, "retrieveExperience").Some? <==> f.experience) &&
            (Lookup(p, "retrieveEducation").Some? <==> f.education) &&
            (Lookup(p, "retrieveSkills").Some? <==> f.skills) &&
            (Lookup(p, "retrieveLanguages").Some? <==> f.languages) &&
            (Lookup(p, "retrievePosts").Some? <==> f.posts) &&
            (Lookup(p, "retrieveComments").Some? <==> f.comments) &&
            (Lookup(p, "retrieveReactions").Some? <==> f.reactions)
  {
    var es := ParamEntries(f);
    assert es[0].key == "personUrl" && es[1].key == "retrieveExperience";
    assert es[2].key == "retrieveEducation" && es[3].key == "retrieveSkills";
    assert es[4].key == "retrieveLanguages" && es[5].key == "retrievePosts";
    assert es[6].key == "retrieveComments" && es[7].key == "retrieveReactions";
    RecordLookup(es, 0);
    RecordLookup(es, 1);
    RecordLookup(es, 2);
    RecordLookup(es, 3);
    RecordLookup(es, 4);
    RecordLookup(es, 5);
    RecordLookup(es, 6);
    RecordLookup(es, 7);
  }

  /** A section's configuration is sent only when the section is requested
      with a truthy limit or date, and then holds exactly those. */
  lemma ConfigsSent(f: FetchFlags)
    ensures var p := FetchParams(f).members;
            (Lookup(p, "postsRetrievalConfig").Some? <==>
               f.posts && (GivenNumber(f.postsLimit) || GivenText(f.postsSince))) &&
            (Lookup(p, "commentsRetrievalConfig").Some? <==>
               f.comments && (GivenNumber(f.commentsLimit) || GivenText(f.commentsSince))) &&
            (Lookup(p, "reactionsRetrievalConfig").Some? <==>
               f.reactions && (GivenNumber(f.reactionsLimit) || GivenText(f.reactionsSince)))
    ensures var p := FetchParams(f).members;
            Lookup(p, "postsRetrievalConfig").Some? ==>
              Lookup(p, "postsRetrievalConfig") == Some(JObj(Record(LimitSinceEntries(f.postsLimit, f.postsSince))))
    ensures var p := FetchParams(f).members;
            Lookup(p, "commentsRetrievalConfig").Some? ==>
              Lookup(p, "commentsRetrievalConfig") ==
              Some(JObj(Record(LimitSinceEntries(f.commentsLimit, f.commentsSince))))
    ensures var p := FetchParams(f).members;
            Lookup(p, "reactionsRetrievalConfig").Some? ==>
              Lookup(p, "reactionsRetrievalConfig") ==
              Some(JObj(Record(LimitSinceEntries(f.reactionsLimit, f.reactionsSince))))
  {
    var es := ParamEntries(f);
    assert es[8].key == "postsRetrievalConfig" && es[9].key == "commentsRetrievalConfig";
    assert es[10].key == "reactionsRetrievalConfig";
    RecordLookup(es, 8);
    RecordLookup(es, 9);
    RecordLookup(es, 10);
  }

  /** The URL and the profile section flags of `run`: the first five
      assignments. */
  method RequestProfileSections(f: FetchFlags) returns (ps: seq<Member>)
    ensures ps == Built(ParamEntries(f), 5)
  {
    ghost var es := ParamEntries(f);
    assert es[0] == Entry("personUrl", Some(JStr(f.url)));
    assert es[1] == Entry("retrieveExperience", TrueParam(f.experience));
    assert es[2] == Entry("retrieveEducation", TrueParam(f.education));
    assert es[3] == Entry("retrieveSkills", TrueParam(f.skills));
    assert es[4] == Entry("retrieveLanguages", TrueParam(f.languages));
    ps := [Member("personUrl", JStr(f.url))];
    assert ps == Built(es, 1);
    if f.experience { ps := ps + [Member("retrieveExperience", JBool(true))]; }
    assert ps == Built(es, 2);
    if f.education { ps := ps + [Member("retrieveEducation", JBool(true))]; }
    assert ps == Built(es, 3);
    if f.skills { ps := ps + [Member("retrieveSkills", JBool(true))]; }
    assert ps == Built(es, 4);
    if f.languages { ps := ps + [Member("retrieveLanguages", JBool(true))]; }
    assert ps == Built(es, 5);
  }

  /** The activity section flags of `run`: the next three assignments. */
  method RequestActivitySections(f: FetchFlags, ps: seq<Member>) returns (r: seq<Member>)
    requires ps == Built(ParamEntries(f), 5)
    ensures r == Built(ParamEntries(f), 8)
  {
    ghost var es := ParamEntries(f);
    assert es[5] == Entry("retrievePosts", TrueParam(f.posts));
    assert es[6] == Entry("retrieveComments", TrueParam(f.comments));
    assert es[7] == Entry("retrieveReactions", TrueParam(f.reactions));
    r := ps;
    if f.posts { r := r + [Member("retrievePosts", JBool(true))]; }
    assert r == Built(es, 6);
    if f.comments { r := r + [Member("retrieveComments", JBool(true))]; }
    assert r == Built(es, 7);
    if f.reactions { r := r + [Member("retrieveReactions", JBool(true))]; }
    assert r == Built(es, 8);
  }

  /** The parameter construction of `run`. */
  method BuildParams(f: FetchFlags) returns (params: Value)
    ensures params == FetchParams(f)
  {
    ghost var es := ParamEntries(f);
    assert es[8] == Entry("postsRetrievalConfig", SectionConfig(f.posts, f.postsLimit, f.postsSince));
    assert es[9] == Entry("commentsRetrievalConfig", SectionConfig(f.comments, f.commentsLimit, f.commentsSince));
    assert es[10] == Entry("reactionsRetrievalConfig", SectionConfig(f.reactions, f.reactionsLimit, f.reactionsSince));
    var ps := RequestProfileSections(f);
    ps := RequestActivitySections(f, ps);
    if f.posts && (GivenNumber(f.postsLimit) || GivenText(f.postsSince)) {
      var config := BuildLimitSince(f.postsLimit, f.postsSince);
      ps := ps + [Member("postsRetrievalConfig", JObj(config))];
    }
    assert ps == Built(es, 9);
    if f.comments && (GivenNumber(f.commentsLimit) || GivenText(f.commentsSince)) {
      var config := BuildLimitSince(f.commentsLimit, f.commentsSince);
      ps := ps + [Member("commentsRetrievalConfig", JObj(config))];
    }
    assert ps == Built(es, 10);
    if f.reactions && (GivenNumber(f.reactionsLimit) || GivenText(f.reactionsSince)) {
      var config := BuildLimitSince(f.reactionsLimit, f.reactionsSince);
      ps := ps + [Member("reactionsRetrievalConfig", JObj(config))];
    }
    assert ps == Built(es, 11);
    params := JObj(ps);
  }

  /** `person fetch`: the workflow runs with the parameters specified above. */
  method Run(store: ConfigStore.Store, service: LinkedApi.Service, console: Process.Console, flags: BaseFlags,
             f: FetchFlags)
    requires service.Valid() && console.Open()
    modifies store, service, console
    ensures service.Valid()
    ensures store.disk == ConfigStore.Rewritten(old(store.disk))
    ensures var auth := AuthManager.Resolve(ConfigStore.Load(old(store.disk)), flags.account);
            auth.Err? ==> Unauthenticated(service, console, auth.error)
    ensures var auth := AuthManager.Resolve(ConfigStore.Load(old(store.disk)), flags.account);
            auth.Ok? ==> WorkflowRunner.RanWorkflow(service, console, auth.value, Operation, FetchParams(f), flags)
  {
    var client := BuildAuthenticatedClient(store, console, flags);
    if client.None? {
      return;
    }
    var params := BuildParams(f);
    WorkflowRunner.RunAndFormat(service, console, client.value, Operation, params, flags);
  }
}
