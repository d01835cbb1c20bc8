/** `navigator company fetch` (src/commands/navigator/company/fetch.ts): the
    Sales Navigator company profile, with employees and decision makers. */
module NavigatorCompanyFetch {

  import opened Wrappers
  import opened Json
  import opened Params
  import Process
  import ConfigStore
  import AuthManager
  import LinkedApi
  import opened BaseCommand
  import WorkflowRunner

  datatype FetchFlags = FetchFlags(
    hashedUrl: string,
    employees: bool, dms: bool,
    employeesLimit: Option<int>,
    employeesFirstName: Option<string>, employeesLastName: Option<string>, employeesPositions: Option<string>,
    employeesLocations: Option<string>, employeesIndustries: Option<string>, employeesSchools: Option<string>,
    employeesYearsOfExperience: Option<string>,
    dmsLimit: Option<int>)

  const Operation := "nvFetchCompany"

  /** The assignments to the employees `filter`. */
  function EmployeesFilterEntries(f: FetchFlags): seq<Entry>
  {
    [Entry("firstName", TextParam(f.employeesFirstName)),
     Entry("lastName", TextParam(f.employeesLastName)),
     Entry("positions", CsvParam(f.employeesPositions)),
     Entry("locations", CsvParam(f.employeesLocations)),
     Entry("industries", CsvParam(f.employeesIndustries)),
     Entry("schools", CsvParam(f.employeesSchools)),
     Entry("yearsOfExperiences", CsvParam(f.employeesYearsOfExperience))]
  }

  /** The assignments to the employees `config`. */
  function EmployeesConfigEntries(f: FetchFlags, filter: seq<Member>): seq<Entry>
  {
    [Entry("limit", NumberParam(f.employeesLimit)), Entry("filter", NonEmpty(filter))]
  }

  /** The employees retrieval configuration. */
  function EmployeesConfig(f: FetchFlags): seq<Member>
  {
    Record(EmployeesConfigEntries(f, Record(EmployeesFilterEntries(f))))
  }

  /** The assignments to `params`, starting from the hashed company URL. */
  function ParamEntries(f: FetchFlags, employeesConfig: seq<Member>): seq<Entry>
  {
    [Entry("companyHashedUrl", Some(JStr(f.hashedUrl))),
     Entry("retrieveEmployees", TrueParam(f.employees)),
     Entry("retrieveDMs", TrueParam(f.dms)),
     Entry("employeesRetrievalConfig", if f.employees then NonEmpty(employeesConfig) else None),
     Entry("dmsRetrievalConfig",
           if f.dms && GivenNumber(f.dmsLimit) then Some(JObj([Member("limit", JNum(f.dmsLimit.value))])) else None)]
  }

  /** The parameters the workflow receives. */
  function FetchParams(f: FetchFlags): Value
  {
    JObj(Record(ParamEntries(f, EmployeesConfig(f))))
  }

  /** The hashed URL is always sent, each section is requested exactly when its
      flag is set, and the decision-makers configuration is sent exactly when
      they are requested with a truthy limit. */
  lemma SectionsRequested(f: FetchFlags)
    ensures var p := FetchParams(f).members;
            Lookup(p, "companyHashedUrl") == Some(JStr(f.hashedUrl)) &&
            (Lookup(p, "retrieveEmployees").Some? <==> f.employees) &&
            (Lookup(p, "retrieveDMs").Some? <==> f.dms) &&
            (Lookup(p, "dmsRetrievalConfig").Some? <==> f.dms && GivenNumber(f.dmsLimit))
  {
    var es := ParamEntries(f, EmployeesConfig(f));
    assert es[0].key == "companyHashedUrl" && es[1].key == "retrieveEmployees";
    assert es[2].key == "retrieveDMs" && es[4].key == "dmsRetrievalConfig";
    RecordLookup(es, 0);
    RecordLookup(es, 1);
    RecordLookup(es, 2);
    RecordLookup(es, 4);
  }

  /** The employees configuration is sent only when employees are requested
      and a limit or an employee filter is truthy. */
  lemma EmployeesConfigSent(f: FetchFlags)
    ensures var p := FetchParams(f).members;
            Lookup(p, "employeesRetrievalConfig").Some? <==>
              f.employees &&
              (GivenNumber(f.employeesLimit) || GivenText(f.employeesFirstName) || GivenText(f.employeesLastName) ||
               GivenText(f.employeesPositions) || GivenText(f.employeesLocations) ||
               GivenText(f.employeesIndustries) || GivenText(f.employeesSchools) ||
               GivenText(f.employeesYearsOfExperience))
  {
    var fe := EmployeesFilterEntries(f);
    RecordEmpty(fe);
    assert fe[0].value == TextParam(f.employeesFirstName) && fe[1].value == TextParam(f.employeesLastName);
    assert fe[2].value == CsvParam(f.employeesPositions) && fe[3].value == CsvParam(f.employeesLocations);
    assert fe[4].value == CsvParam(f.employeesIndustries) && fe[5].value == CsvParam(f.employeesSchools);
    assert fe[6].value == CsvParam(f.employeesYearsOfExperience);
    var ce := EmployeesConfigEntries(f, Record(fe));
    RecordEmpty(ce);
    assert ce[0].value == NumberParam(f.employeesLimit);
    var es := ParamEntries(f, EmployeesConfig(f));
    assert es[3].key == "employeesRetrievalConfig";
    RecordLookup(es, 3);
  }

  /** The employees filter holds each text filter as given and each list
      filter comma-split, exactly when the flag is truthy. */
  lemma EmployeesFilterContents(f: FetchFlags)
    ensures var r := Record(EmployeesFilterEntries(f));
            Lookup(r, "firstName") == TextParam(f.employeesFirstName) &&
            Lookup(r, "lastName") == TextParam(f.employeesLastName) &&
            Lookup(r, "positions") == CsvParam(f.employeesPositions) &&
            Lookup(r, "locations") == CsvParam(f.employeesLocations) &&
            Lookup(r, "industries") == CsvParam(f.employeesIndustries) &&
            Lookup(r, "schools") == CsvParam(f.employeesSchools) &&
            Lookup(r, "yearsOfExperiences") == CsvParam(f.employeesYearsOfExperience)
  {
    var fe := EmployeesFilterEntries(f);
    assert fe[0].key == "firstName" && fe[1].key == "lastName" && fe[2].key == "positions";
    assert fe[3].key == "locations" && fe[4].key == "industries" && fe[5].key == "schools";
    assert fe[6].key == "yearsOfExperiences";
    RecordLookup(fe, 0);
    RecordLookup(fe, 1);
    RecordLookup(fe, 2);
    RecordLookup(fe, 3);
    RecordLookup(fe, 4);
    RecordLookup(fe, 5);
    RecordLookup(fe, 6);
  }

  /** The employees configuration holds the limit when truthy and the filter
      when it has any key, and is what `employeesRetrievalConfig` carries. */
  lemma EmployeesConfigContents(f: FetchFlags)
    ensures var c := EmployeesConfig(f);
            Lookup(c, "limit") == NumberParam(f.employeesLimit) &&
            Lookup(c, "filter") == NonEmpty(Record(EmployeesFilterEntries(f)))
    ensures var p := FetchParams(f).members;
            Lookup(p, "employeesRetrievalConfig").Some? ==>
              Lookup(p, "employeesRetrievalConfig") == Some(JObj(EmployeesConfig(f)))
  {
    var ce := EmployeesConfigEntries(f, Record(EmployeesFilterEntries(f)));
    assert ce[0].key == "limit" && ce[1].key == "filter";
    RecordLookup(ce, 0);
    RecordLookup(ce, 1);
    var es := ParamEntries(f, EmployeesConfig(f));
    assert es[3].key == "employeesRetrievalConfig";
    RecordLookup(es, 3);
  }

  /** Sales Navigator company fetch has no posts section: neither a posts
      flag nor a posts configuration is ever sent. */
  lemma NoPostsSection(f: FetchFlags)
    ensures var p := FetchParams(f).members;
            Lookup(p, "retrievePosts") == None && Lookup(p, "postsRetrievalConfig") == None
  {
    var es := ParamEntries(f, EmployeesConfig(f));
    RecordAbsent(es, "retrievePosts");
    RecordAbsent(es, "postsRetrievalConfig");
  }

  /** The employees `filter` of `run`. */
  method BuildEmployeesFilter(f: FetchFlags) returns (filter: seq<Member>)
    ensures filter == Record(EmployeesFilterEntries(f))
  {
    ghost var es := EmployeesFilterEntries(f);
    assert es[0] == Entry("firstName", TextParam(f.employeesFirstName));
    assert es[1] == Entry("lastName", TextParam(f.employeesLastName));
    filter := [];
    if GivenText(f.employeesFirstName) { filter := filter + [Member("firstName", JStr(f.employeesFirstName.value))]; }
    assert filter == Built(es, 1);
    if GivenText(f.employeesLastName) { filter := filter + [Member("lastName", JStr(f.employeesLastName.value))]; }
    assert filter == Built(es, 2);
    filter := AddListFilters(f, filter);
  }

  /** The comma-separated list filters: the employees `filter`'s last five
      assignments. */
  method AddListFilters(f: FetchFlags, names: seq<Member>) returns (filter: seq<Member>)
    requires names == Built(EmployeesFilterEntries(f), 2)
    ensures filter == Record(EmployeesFilterEntries(f))
  {
    ghost var es := EmployeesFilterEntries(f);
    assert es[2] == Entry("positions", CsvParam(f.employeesPositions));
    assert es[3] == Entry("locations", CsvParam(f.employeesLocations));
    assert es[4] == Entry("industries", CsvParam(f.employeesIndustries));
    assert es[5] == Entry("schools", CsvParam(f.employeesSchools));
    assert es[6] == Entry("yearsOfExperiences", CsvParam(f.employeesYearsOfExperience));
    filter := names;
    if GivenText(f.employeesPositions) {
      filter := filter + [Member("positions", CsvValue(f.employeesPositions.value))];
    }
    assert filter == Built(es, 3);
    if GivenText(f.employeesLocations) {
      filter := filter + [Member("locations", CsvValue(f.employeesLocations.value))];
    }
    assert filter == Built(es, 4);
    if GivenText(f.employeesIndustries) {
      filter := filter + [Member("industries", CsvValue(f.employeesIndustries.value))];
    }
    assert filter == Built(es, 5);
    if GivenText(f.employeesSchools) { filter := filter + [Member("schools", CsvValue(f.employeesSchools.value))]; }
    assert filter == Built(es, 6);
    if GivenText(f.employeesYearsOfExperience) {
      filter := filter + [Member("yearsOfExperiences", CsvValue(f.employeesYearsOfExperience.value))];
    }
    assert filter == Built(es, 7);
  }

  /** The employees `config` of `run`. */
  method BuildEmployeesConfig(f: FetchFlags) returns (config: seq<Member>)
    ensures config == EmployeesConfig(f)
  {
    var filter := BuildEmployeesFilter(f);
    ghost var es := EmployeesConfigEntries(f, filter);
    assert es[0] == Entry("limit", NumberParam(f.employeesLimit));
    assert es[1] == Entry("filter", NonEmpty(filter));
    config := [];
    if GivenNumber(f.employeesLimit) { config := config + [Member("limit", JNum(f.employeesLimit.value))]; }
    assert config == Built(es, 1);
    if |filter| > 0 { config := config + [Member("filter", JObj(filter))]; }
    assert config == Built(es, 2);
  }

  /** The parameter construction of `run`. The employees configuration is a
      pure computation, built here before it is needed. */
  method BuildParams(f: FetchFlags) returns (params: Value)
    ensures params == FetchParams(f)
  {
    var employeesConfig := BuildEmployeesConfig(f);
    ghost var es := ParamEntries(f, employeesConfig);
    assert es[0] == Entry("companyHashedUrl", Some(JStr(f.hashedUrl)));
    assert es[1] == Entry("retrieveEmployees", TrueParam(f.employees));
    assert es[2] == Entry("retrieveDMs", TrueParam(f.dms));
    assert es[3] == Entry("employeesRetrievalConfig", if f.employees then NonEmpty(employeesConfig) else None);
    assert es[4] == Entry("dmsRetrievalConfig", if f.dms && GivenNumber(f.dmsLimit) then Some(JObj([Member("limit", JNum(f.dmsLimit.value))])) else None);
    var ps: seq<Member> := [Member("companyHashedUrl", JStr(f.hashedUrl))];
    assert ps == Built(es, 1);
    if f.employees { ps := ps + [Member("retrieveEmployees", JBool(true))]; }
    assert ps == Built(es, 2);
    if f.dms { ps := ps + [Member("retrieveDMs", JBool(true))]; }
    assert ps == Built(es, 3);
    if f.employees {
      if |employeesConfig| > 0 { ps := ps + [Member("employeesRetrievalConfig", JObj(employeesConfig))]; }
    }
    assert ps == Built(es, 4);
    if f.dms && GivenNumber(f.dmsLimit) {
      ps := ps + [Member("dmsRetrievalConfig", JObj([Member("limit", JNum(f.dmsLimit.value))]))];
    }
    assert ps == Built(es, 5);
    params := JObj(ps);
  }

  /** `navigator company fetch`: the workflow runs with the parameters specified above. */
  method Run(store: ConfigStore.Store, service: LinkedApi.Service, console: Process.Console, flags: BaseFlags,
             f: FetchFlags)
    requires service.Valid() && console.Open()
    modifies store, service, console
    ensures service.Valid()
    ensures store.disk == ConfigStore.Rewritten(old(store.disk))
    ensures var auth := AuthManager.Resolve(ConfigStore.Load(old(store.disk)), flags.account);
            auth.Err? ==> Unauthenticated(service, console, auth.error)
    ensures var auth := AuthManager.Resolve(ConfigStore.Load(old(store.disk)), flags.account);
            auth.Ok? ==> WorkflowRunner.RanWorkflow(service, console, auth.value, Operation, FetchParams(f), flags)
  {
    var client := BuildAuthenticatedClient(store, console, flags);
    if client.None? {
      return;
    }
    var params := BuildParams(f);
    WorkflowRunner.RunAndFormat(service, console, client.value, Operation, params, flags);
  }
}
