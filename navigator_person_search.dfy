/** `navigator person search` (src/commands/navigator/person/search.ts): the
    Sales Navigator people search parameters built from the flags, then the
    `nvSearchPeople` workflow. */
module NavigatorPersonSearch {

  import opened Wrappers
  import opened Json
  import opened Params
  import Process
  import ConfigStore
  import AuthManager
  import LinkedApi
  import opened BaseCommand
  import WorkflowRunner

  datatype SearchFlags = SearchFlags(
    term: Option<string>, limit: Option<int>,
    firstName: Option<string>, lastName: Option<string>, position: Option<string>,
    locations: Option<string>, industries: Option<string>,
    currentCompanies: Option<string>, previousCompanies: Option<string>,
    schools: Option<string>, yearsOfExperience: Option<string>)

  const Operation := "nvSearchPeople"

  /** The assignments to `filter`: the text filters as given, the list filters
      comma-split (`splitCsv`), each when truthy. */
  function FilterEntries(f: SearchFlags): seq<Entry>
  {
    [Entry("firstName", TextParam(f.firstName)),
     Entry("lastName", TextParam(f.lastName)),
     Entry("position", TextParam(f.position)),
     Entry("locations", CsvParam(f.locations)),
     Entry("industries", CsvParam(f.industries)),
     Entry("currentCompanies", CsvParam(f.currentCompanies)),
     Entry("previousCompanies", CsvParam(f.previousCompanies)),
     Entry("schools", CsvParam(f.schools)),
     Entry("yearsOfExperience", CsvParam(f.yearsOfExperience))]
  }

  /** Some filter flag is truthy. */
  predicate Filtered(f: SearchFlags)
  {
    GivenText(f.firstName) || GivenText(f.lastName) || GivenText(f.position) ||
    GivenText(f.locations) || GivenText(f.industries) || GivenText(f.currentCompanies) ||
    GivenText(f.previousCompanies) || GivenText(f.schools) || GivenText(f.yearsOfExperience)
  }

  /** The assignments to `params`: `term` and `limit` when truthy, then
      `filter` when it has any key. */
  function ParamEntries(f: SearchFlags, filter: seq<Member>): seq<Entry>
  {
    [Entry("term", TextParam(f.term)),
     Entry("limit", NumberParam(f.limit)),
     Entry("filter", NonEmpty(filter))]
  }

  /** The parameters the workflow receives. */
  function SearchParams(f: SearchFlags): Value
  {
    JObj(Record(ParamEntries(f, Record(FilterEntries(f)))))
  }

  /** `term` and `limit` are sent exactly when truthy, with the flags' values,
      and `params` has no key besides these two and `filter`. */
  lemma QuerySent(f: SearchFlags)
    ensures var p := SearchParams(f).members;
            Lookup(p, "term") == TextParam(f.term) && Lookup(p, "limit") == NumberParam(f.limit)
    ensures var p := SearchParams(f).members;
            forall k :: k != "term" && k != "limit" && k != "filter" ==> Lookup(p, k) == None
  {
    var pe := ParamEntries(f, Record(FilterEntries(f)));
    assert pe[0].key == "term" && pe[1].key == "limit";
    RecordLookup(pe, 0);
    RecordLookup(pe, 1);
    forall k | k != "term" && k != "limit" && k != "filter" ensures Lookup(Record(pe), k) == None {
      RecordAbsent(pe, k);
    }
  }

  /** The filter is empty exactly when no filter flag is truthy. */
  lemma FilterEmpty(f: SearchFlags)
    ensures Record(FilterEntries(f)) == [] <==> !Filtered(f)
  {
    var fe := FilterEntries(f);
    RecordEmpty(fe);
    assert fe[0].value == TextParam(f.firstName) && fe[1].value == TextParam(f.lastName);
    assert fe[2].value == TextParam(f.position) && fe[3].value == CsvParam(f.locations);
    assert fe[4].value == CsvParam(f.industries) && fe[5].value == CsvParam(f.currentCompanies);
    assert fe[6].value == CsvParam(f.previousCompanies) && fe[7].value == CsvParam(f.schools);
    assert fe[8].value == CsvParam(f.yearsOfExperience);
  }

  /** The filter holds each text filter as given and each list filter
      comma-split, exactly when the flag is truthy. */
  lemma FilterContents(f: SearchFlags)
    ensures var r := Record(FilterEntries(f));
            Lookup(r, "firstName") == TextParam(f.firstName) && Lookup(r, "lastName") == TextParam(f.lastName) &&
            Lookup(r, "position") == TextParam(f.position) && Lookup(r, "locations") == CsvParam(f.locations) &&
            Lookup(r, "industries") == CsvParam(f.industries) &&
            Lookup(r, "currentCompanies") == CsvParam(f.currentCompanies) &&
            Lookup(r, "previousCompanies") == CsvParam(f.previousCompanies) &&
            Lookup(r, "schools") == CsvParam(f.schools) &&
            Lookup(r, "yearsOfExperience") == CsvParam(f.yearsOfExperience)
  {
    var fe := FilterEntries(f);
    assert fe[0].key == "firstName" && fe[1].key == "lastName" && fe[2].key == "position";
    assert fe[3].key == "locations" && fe[4].key == "industries" && fe[5].key == "currentCompanies";
    assert fe[6].key == "previousCompanies" && fe[7].key == "schools" && fe[8].key == "yearsOfExperience";
    RecordLookup(fe, 0);
    RecordLookup(fe, 1);
    RecordLookup(fe, 2);
    RecordLookup(fe, 3);
    RecordLookup(fe, 4);
    RecordLookup(fe, 5);
    RecordLookup(fe, 6);
    RecordLookup(fe, 7);
    RecordLookup(fe, 8);
  }

  /** `filter` is sent exactly when some filter flag is truthy, and is then the
      record of the filter assignments. */
  lemma FilterSent(f: SearchFlags)
    ensures var p := SearchParams(f).members;
            (Lookup(p, "filter").Some? <==> Filtered(f)) &&
            (Lookup(p, "filter").Some? ==> Lookup(p, "filter") == Some(JObj(Record(FilterEntries(f)))))
  {
    FilterEmpty(f);
    var pe := ParamEntries(f, Record(FilterEntries(f)));
    assert pe[2].key == "filter";
    RecordLookup(pe, 2);
  }

  /** The first three filter assignments: the text filters. */
  method BuildNameFilters(f: SearchFlags) returns (filter: seq<Member>)
    ensures filter == Built(FilterEntries(f), 3)
  {
    ghost var es := FilterEntries(f);
    assert es[0] == Entry("firstName", TextParam(f.firstName));
    assert es[1] == Entry("lastName", TextParam(f.lastName));
    assert es[2] == Entry("position", TextParam(f.position));
    filter := [];
    if GivenText(f.firstName) { filter := filter + [Member("firstName", JStr(f.firstName.value))]; }
    assert filter == Built(es, 1);
    if GivenText(f.lastName) { filter := filter + [Member("lastName", JStr(f.lastName.value))]; }
    assert filter == Built(es, 2);
    if GivenText(f.position) { filter := filter + [Member("position", JStr(f.position.value))]; }
    assert filter == Built(es, 3);
  }

  /** The next two filter assignments: locations and industries. */
  method AddPlaceFilters(f: SearchFlags, names: seq<Member>) returns (filter: seq<Member>)
    requires names == Built(FilterEntries(f), 3)
    ensures filter == Built(FilterEntries(f), 5)
  {
    ghost var es := FilterEntries(f);
    assert es[3] == Entry("locations", CsvParam(f.locations));
    assert es[4] == Entry("industries", CsvParam(f.industries));
    filter := names;
    if GivenText(f.locations) { filter := filter + [Member("locations", CsvValue(f.locations.value))]; }
    assert filter == Built(es, 4);
    if GivenText(f.industries) { filter := filter + [Member("industries", CsvValue(f.industries.value))]; }
    assert filter == Built(es, 5);
  }

  /** The last four filter assignments: companies, schools and experience. */
  method AddCareerFilters(f: SearchFlags, places: seq<Member>) returns (filter: seq<Member>)
    requires places == Built(FilterEntries(f), 5)
    ensures filter == Record(FilterEntries(f))
  {
    ghost var es := FilterEntries(f);
    assert es[5] == Entry("currentCompanies", CsvParam(f.currentCompanies));
    assert es[6] == Entry("previousCompanies", CsvParam(f.previousCompanies));
    assert es[7] == Entry("schools", CsvParam(f.schools));
    assert es[8] == Entry("yearsOfExperience", CsvParam(f.yearsOfExperience));
    filter := places;
    if GivenText(f.currentCompanies) {
      filter := filter + [Member("currentCompanies", CsvValue(f.currentCompanies.value))];
    }
    assert filter == Built(es, 6);
    if GivenText(f.previousCompanies) {
      filter := filter + [Member("previousCompanies", CsvValue(f.previousCompanies.value))];
    }
    assert filter == Built(es, 7);
    if GivenText(f.schools) { filter := filter + [Member("schools", CsvValue(f.schools.value))]; }
    assert filter == Built(es, 8);
    if GivenText(f.yearsOfExperience) {
      filter := filter + [Member("yearsOfExperience", CsvValue(f.yearsOfExperience.value))];
    }
    assert filter == Built(es, 9);
  }

  /** The filter construction of `run`. */
  method BuildFilter(f: SearchFlags) returns (filter: seq<Member>)
    ensures filter == Record(FilterEntries(f))
  {
    filter := BuildNameFilters(f);
    filter := AddPlaceFilters(f, filter);
    filter := AddCareerFilters(f, filter);
  }

  /** The parameter construction of `run`. The filter is a pure computation,
      built here before `term` and `limit`. */
  method BuildParams(f: SearchFlags) returns (params: Value)
    ensures params == SearchParams(f)
  {
    var filter := BuildFilter(f);
    ghost var es := ParamEntries(f, filter);
    assert es[0] == Entry("term", TextParam(f.term));
    assert es[1] == Entry("limit", NumberParam(f.limit));
    assert es[2] == Entry("filter", NonEmpty(filter));
    var ps: seq<Member> := [];
    if GivenText(f.term) { ps := ps + [Member("term", JStr(f.term.value))]; }
    assert ps == Built(es, 1);
    if GivenNumber(f.limit) { ps := ps + [Member("limit", JNum(f.limit.value))]; }
    assert ps == Built(es, 2);
    if |filter| > 0 {
      ps := ps + [Member("filter", JObj(filter))];
    }
    assert ps == Built(es, 3);
    params := JObj(ps);
  }

  /** `navigator person search`: the workflow runs with the parameters
      specified above. */
  method Run(store: ConfigStore.Store, service: LinkedApi.Service, console: Process.Console, flags: BaseFlags,
             f: SearchFlags)
    requires service.Valid() && console.Open()
    modifies store, service, console
    ensures service.Valid()
    ensures store.disk == ConfigStore.Rewritten(old(store.disk))
    ensures var auth := AuthManager.Resolve(ConfigStore.Load(old(store.disk)), flags.account);
            auth.Err? ==> Unauthenticated(service, console, auth.error)
    ensures var auth := AuthManager.Resolve(ConfigStore.Load(old(store.disk)), flags.account);
            auth.Ok? ==> WorkflowRunner.RanWorkflow(service, console, auth.value, Operation, SearchParams(f), flags)
  {
    var client := BuildAuthenticatedClient(store, console, flags);
    if client.None? {
      return;
    }
    var params := BuildParams(f);
    WorkflowRunner.RunAndFormat(service, console, client.value, Operation, params, flags);
  }
}
