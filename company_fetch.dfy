/** `company fetch` (src/commands/company/fetch.ts): the company URL, the
    sections to retrieve and their retrieval configurations, then the
    `fetchCompany` workflow. */
module CompanyFetch {

  import opened Wrappers
  import opened Json
  import opened Params
  import Process
  import ConfigStore
  import AuthManager
  import LinkedApi
  import opened BaseCommand
  import WorkflowRunner

  datatype FetchFlags = FetchFlags(
    url: string,
    employees: bool, dms: bool, posts: bool,
    employeesLimit: Option<int>,
    employeesFirstName: Option<string>, employeesLastName: Option<string>, employeesPosition: Option<string>,
    employeesLocations: Option<string>, employeesIndustries: Option<string>, employeesSchools: Option<string>,
    dmsLimit: Option<int>, postsLimit: Option<int>, postsSince: Option<string>)

  const Operation := "fetchCompany"

  /** The assignments to the employees `filter`. */
  function EmployeesFilterEntries(f: FetchFlags): seq<Entry>
  {
    [Entry("firstName", TextParam(f.employeesFirstName)),
     Entry("lastName", TextParam(f.employeesLastName)),
     Entry("position", TextParam(f.employeesPosition)),
     Entry("locations", CsvParam(f.employeesLocations)),
     Entry("industries", CsvParam(f.employeesIndustries)),
     Entry("schools", CsvParam(f.employeesSchools))]
  }

  /** The assignments to the employees `config`: `limit` when truthy, then the
      filter when it has any key. */
  function EmployeesConfigEntries(f: FetchFlags, filter: seq<Member>): seq<Entry>
  {
    [Entry("limit", NumberParam(f.employeesLimit)), Entry("filter", NonEmpty(filter))]
  }

  /** The employees retrieval configuration. */
  function EmployeesConfig(f: FetchFlags): seq<Member>
  {
    Record(EmployeesConfigEntries(f, Record(EmployeesFilterEntries(f))))
  }

  /** The assignments to `params`, starting from the company URL. */
  function ParamEntries(f: FetchFlags, employeesConfig: seq<Member>): seq<Entry>
  {
    [Entry("companyUrl", Some(JStr(f.url))),
     Entry("retrieveEmployees", TrueParam(f.employees)),
     Entry("retrieveDMs", TrueParam(f.dms)),
     Entry("retrievePosts", TrueParam(f.posts)),
     Entry("employeesRetrievalConfig", if f.employees then NonEmpty(employeesConfig) else None),
     Entry("dmsRetrievalConfig",
           if f.dms && GivenNumber(f.dmsLimit) then Some(JObj([Member("limit", JNum(f.dmsLimit.value))])) else None),
     Entry("postsRetrievalConfig",
           if f.posts && (GivenNumber(f.postsLimit) || GivenText(f.postsSince))
           then Some(JObj(Record(LimitSinceEntries(f.postsLimit, f.postsSince)))) else None)]
  }

  /** The parameters the workflow receives. */
  function FetchParams(f: FetchFlags): Value
  {
    JObj(Record(ParamEntries(f, EmployeesConfig(f))))
  }

  /** The company URL is always sent, and each section is requested exactly
      when its flag is set. */
  lemma SectionsRequested(f: FetchFlags)
    ensures var p := FetchParams(f).members;
            Lookup(p, "companyUrl") == Some(JStr(f.url)) &&
            (Lookup(p, "retrieveEmployees").Some? <==> f.employees) &&
            (Lookup(p, "retrieveDMs").Some? <==> f.dms) &&
            (Lookup(p, "retrievePosts").Some? <==> f.posts)
  {
    var es := ParamEntries(f, EmployeesConfig(f));
    assert es[0].key == "companyUrl" && es[1].key == "retrieveEmployees";
    assert es[2].key == "retrieveDMs" && es[3].key == "retrievePosts";
    RecordLookup(es, 0);
    RecordLookup(es, 1);
    RecordLookup(es, 2);
    RecordLookup(es, 3);
  }

  /** The employees configuration is sent only when employees are requested
      and a limit or an employee filter is truthy. */
  lemma EmployeesConfigSent(f: FetchFlags)
    ensures var p := FetchParams(f).members;
            Lookup(p, "employeesRetrievalConfig").Some? <==>
              f.employees &&
              (GivenNumber(f.employeesLimit) || GivenText(f.employeesFirstName) || GivenText(f.employeesLastName) ||
               GivenText(f.employeesPosition) || GivenText(f.employeesLocations) ||
               GivenText(f.employeesIndustries) || GivenText(f.employeesSchools))
  {
    var fe := EmployeesFilterEntries(f);
    RecordEmpty(fe);
    assert fe[0].value == TextParam(f.employeesFirstName) && fe[1].value == TextParam(f.employeesLastName);
    assert fe[2].value == TextParam(f.employeesPosition) && fe[3].value == CsvParam(f.employeesLocations);
    assert fe[4].value == CsvParam(f.employeesIndustries) && fe[5].value == CsvParam(f.employeesSchools);
    var ce := EmployeesConfigEntries(f, Record(fe));
    RecordEmpty(ce);
    assert ce[0].value == NumberParam(f.employeesLimit);
    var es := ParamEntries(f, EmployeesConfig(f));
    assert es[4].key == "employeesRetrievalConfig";
    RecordLookup(es, 4);
  }

  /** The decision-makers configuration is sent only when they are requested
      with a truthy limit, and holds that limit; the posts configuration only
      when posts are requested with a truthy limit or date. */
  lemma OtherConfigsSent(f: FetchFlags)
    ensures var p := FetchParams(f).members;
            (Lookup(p, "dmsRetrievalConfig").Some? <==> f.dms && GivenNumber(f.dmsLimit)) &&
            (Lookup(p, "dmsRetrievalConfig").Some? ==>
               Lookup(p, "dmsRetrievalConfig") == Some(JObj([Member("limit", JNum(f.dmsLimit.value))]))) &&
            (Lookup(p, "postsRetrievalConfig").Some? <==>
               f.posts && (GivenNumber(f.postsLimit) || GivenText(f.postsSince)))
  {
    var es := ParamEntries(f, EmployeesConfig(f));
    assert es[5].key == "dmsRetrievalConfig" && es[6].key == "postsRetrievalConfig";
    RecordLookup(es, 5);
    RecordLookup(es, 6);
  }

  /** The employees filter holds each text filter as given and each list
      filter comma-split, exactly when the flag is truthy. */
  lemma EmployeesFilterContents(f: FetchFlags)
    ensures var r := Record(EmployeesFilterEntries(f));
            Lookup(r, "firstName") == TextParam(f.employeesFirstName) &&
            Lookup(r, "lastName") == TextParam(f.employeesLastName) &&
            Lookup(r, "position") == TextParam(f.employeesPosition) &&
            Lookup(r, "locations") == CsvParam(f.employeesLocations) &&
            Lookup(r, "industries") == CsvParam(f.employeesIndustries) &&
            Lookup(r, "schools") == CsvParam(f.employeesSchools)
  {
    var fe := EmployeesFilterEntries(f);
    assert fe[0].key == "firstName" && fe[1].key == "lastName" && fe[2].key == "position";
    assert fe[3].key == "locations" && fe[4].key == "industries" && fe[5].key == "schools";
    RecordLookup(fe, 0);
    RecordLookup(fe, 1);
    RecordLookup(fe, 2);
    RecordLookup(fe, 3);
    RecordLookup(fe, 4);
    RecordLookup(fe, 5);
  }

  /** The employees configuration holds the limit when truthy and the filter
      when it has any key, and is what `employeesRetrievalConfig` carries. */
  lemma EmployeesConfigContents(f: FetchFlags)
    ensures var c := EmployeesConfig(f);
            Lookup(c, "limit") == NumberParam(f.employeesLimit) &&
            Lookup(c, "filter") == NonEmpty(Record(EmployeesFilterEntries(f)))
    ensures var p := FetchParams(f).members;
            Lookup(p, "employeesRetrievalConfig").Some? ==>
              Lookup(p, "employeesRetrievalConfig") == Some(JObj(EmployeesConfig(f)))
  {
    var ce := EmployeesConfigEntries(f, Record(EmployeesFilterEntries(f)));
    assert ce[0].key == "limit" && ce[1].key == "filter";
    RecordLookup(ce, 0);
    RecordLookup(ce, 1);
    var es := ParamEntries(f, EmployeesConfig(f));
    assert es[4].key == "employeesRetrievalConfig";
    RecordLookup(es, 4);
  }

  /** The employees `filter` of `run`. */
  method BuildEmployeesFilter(f: FetchFlags) returns (filter: seq<Member>)
    ensures filter == Record(EmployeesFilterEntries(f))
  {
    ghost var es := EmployeesFilterEntries(f);
    assert es[0] == Entry("firstName", TextParam(f.employeesFirstName));
    assert es[1] == Entry("lastName", TextParam(f.employeesLastName));
    assert es[2] == Entry("position", TextParam(f.employeesPosition));
    assert es[3] == Entry("locations", CsvParam(f.employeesLocations));
    assert es[4] == Entry("industries", CsvParam(f.employeesIndustries));
    assert es[5] == Entry("schools", CsvParam(f.employeesSchools));
    filter := [];
    if GivenText(f.employeesFirstName) { filter := filter + [Member("firstName", JStr(f.employeesFirstName.value))]; }
    assert filter == Built(es, 1);
    if GivenText(f.employeesLastName) { filter := filter + [Member("lastName", JStr(f.employeesLastName.value))]; }
    assert filter == Built(es, 2);
    if GivenText(f.employeesPosition) { filter := filter + [Member("position", JStr(f.employeesPosition.value))]; }
    assert filter == Built(es, 3);
    if GivenText(f.employeesLocations) {
      filter := filter + [Member("locations", CsvValue(f.employeesLocations.value))];
    }
    assert filter == Built(es, 4);
    if GivenText(f.employeesIndustries) {
      filter := filter + [Member("industries", CsvValue(f.employeesIndustries.value))];
    }
    assert filter == Built(es, 5);
    if GivenText(f.employeesSchools) { filter := filter + [Member("schools", CsvValue(f.employeesSchools.value))]; }
    assert filter == Built(es, 6);
  }

  /** The employees `config` of `run`. */
  method BuildEmployeesConfig(f: FetchFlags) returns (config: seq<Member>)
    ensures config == EmployeesConfig(f)
  {
    var filter := BuildEmployeesFilter(f);
    ghost var es := EmployeesConfigEntries(f, filter);
    assert es[0] == Entry("limit", NumberParam(f.employeesLimit));
    assert es[1] == Entry("filter", NonEmpty(filter));
    config := [];
    if GivenNumber(f.employeesLimit) { config := config + [Member("limit", JNum(f.employeesLimit.value))]; }
    assert config == Built(es, 1);
    if |filter| > 0 { config := config + [Member("filter", JObj(filter))]; }
    assert config == Built(es, 2);
  }

  /** The URL and the section flags of `run`: the first four assignments. */
  method RequestSections(f: FetchFlags, ghost employeesConfig: seq<Member>) returns (ps: seq<Member>)
    ensures ps == Built(ParamEntries(f, employeesConfig), 4)
  {
    ghost var es := ParamEntries(f, employeesConfig);
    assert es[0] == Entry("companyUrl", Some(JStr(f.url)));
    assert es[1] == Entry("retrieveEmployees", TrueParam(f.employees));
    assert es[2] == Entry("retrieveDMs", TrueParam(f.dms));
    assert es[3] == Entry("retrievePosts", TrueParam(f.posts));
    ps := [Member("companyUrl", JStr(f.url))];
    assert ps == Built(es, 1);
    if f.employees { ps := ps + [Member("retrieveEmployees", JBool(true))]; }
    assert ps == Built(es, 2);
    if f.dms { ps := ps + [Member("retrieveDMs", JBool(true))]; }
    assert ps == Built(es, 3);
    if f.posts { ps := ps + [Member("retrievePosts", JBool(true))]; }
    assert ps == Built(es, 4);
  }

  /** The parameter construction of `run`. The employees configuration is a
      pure computation, built here before it is needed. */
  method BuildParams(f: FetchFlags) returns (params: Value)
    ensures params == FetchParams(f)
  {
    var employeesConfig := BuildEmployeesConfig(f);
    ghost var es := ParamEntries(f, employeesConfig);
    var ps := RequestSections(f, employeesConfig);
    if f.employees {
      if |employeesConfig| > 0 { ps := ps + [Member("employeesRetrievalConfig", JObj(employeesConfig))]; }
    }
    assert ps == Built(es, 5);
    if f.dms && GivenNumber(f.dmsLimit) {
      ps := ps + [Member("dmsRetrievalConfig", JObj([Member("limit", JNum(f.dmsLimit.value))]))];
    }
    assert ps == Built(es, 6);
    if f.posts && (GivenNumber(f.postsLimit) || GivenText(f.postsSince)) {
      var config := BuildLimitSince(f.postsLimit, f.postsSince);
      ps := ps + [Member("postsRetrievalConfig", JObj(config))];
    }
    assert ps == Built(es, 7);
    params := JObj(ps);
  }

  /** `company fetch`: the workflow runs with the parameters specified above. */
  method Run(store: ConfigStore.Store, service: LinkedApi.Service, console: Process.Console, flags: BaseFlags,
             f: FetchFlags)
    requires service.Valid() && console.Open()
    modifies store, service, console
    ensures service.Valid()
    ensures store.disk == ConfigStore.Rewritten(old(store.disk))
    ensures var auth := AuthManager.Resolve(ConfigStore.Load(old(store.disk)), flags.account);
            auth.Err? ==> Unauthenticated(service, console, auth.error)
    ensures var auth := AuthManager.Resolve(ConfigStore.Load(old(store.disk)), flags.account);
            auth.Ok? ==> WorkflowRunner.RanWorkflow(service, console, auth.value, Operation, FetchParams(f), flags)
  {
    var client := BuildAuthenticatedClient(store, console, flags);
    if client.None? {
      return;
    }
    var params := BuildParams(f);
    WorkflowRunner.RunAndFormat(service, console, client.value, Operation, params, flags);
  }
}
