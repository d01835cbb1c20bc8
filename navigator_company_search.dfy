/** `navigator company search` (src/commands/navigator/company/search.ts): the
    Sales Navigator company search, whose filter adds an annual revenue range. */
module NavigatorCompanySearch {

  import opened Wrappers
  import opened Json
  import opened Params
  import Process
  import ConfigStore
  import AuthManager
  import LinkedApi
  import opened BaseCommand
  import WorkflowRunner

  datatype SearchFlags = SearchFlags(
    term: Option<string>, limit: Option<int>,
    sizes: Option<string>, locations: Option<string>, industries: Option<string>,
    revenueMin: Option<string>, revenueMax: Option<string>)

  const Operation := "nvSearchCompanies"

  /** The assignments to `revenue`: `min` and `max` when truthy. */
  function RevenueEntries(f: SearchFlags): seq<Entry>
  {
    [Entry("min", TextParam(f.revenueMin)), Entry("max", TextParam(f.revenueMax))]
  }

  /** The assignments to `filter`: the list flags, comma-split, then the
      revenue range when either bound is truthy. */
  function FilterEntries(f: SearchFlags): seq<Entry>
  {
    [Entry("sizes", CsvParam(f.sizes)),
     Entry("locations", CsvParam(f.locations)),
     Entry("industries", CsvParam(f.industries)),
     Entry("annualRevenue",
           if GivenText(f.revenueMin) || GivenText(f.revenueMax) then Some(JObj(Record(RevenueEntries(f)))) else None)]
  }

  /** The assignments to `params`: `term` and `limit` when truthy, then
      `filter` when it has any key. */
  function ParamEntries(f: SearchFlags, filter: seq<Member>): seq<Entry>
  {
    [Entry("term", TextParam(f.term)),
     Entry("limit", NumberParam(f.limit)),
     Entry("filter", NonEmpty(filter))]
  }

  /** The parameters the workflow receives. */
  function SearchParams(f: SearchFlags): Value
  {
    JObj(Record(ParamEntries(f, Record(FilterEntries(f)))))
  }

  /** `term` and `limit` are sent exactly when truthy, with the flags' values,
      and `params` has no key besides these two and `filter`. */
  lemma QuerySent(f: SearchFlags)
    ensures var p := SearchParams(f).members;
            Lookup(p, "term") == TextParam(f.term) && Lookup(p, "limit") == NumberParam(f.limit)
    ensures var p := SearchParams(f).members;
            forall k :: k != "term" && k != "limit" && k != "filter" ==> Lookup(p, k) == None
  {
    var pe := ParamEntries(f, Record(FilterEntries(f)));
    assert pe[0].key == "term" && pe[1].key == "limit";
    RecordLookup(pe, 0);
    RecordLookup(pe, 1);
    forall k | k != "term" && k != "limit" && k != "filter" ensures Lookup(Record(pe), k) == None {
      RecordAbsent(pe, k);
    }
  }

  /** The filter holds each list flag comma-split, exactly when it is truthy. */
  lemma FilterContents(f: SearchFlags)
    ensures var r := Record(FilterEntries(f));
            Lookup(r, "sizes") == CsvParam(f.sizes) && Lookup(r, "locations") == CsvParam(f.locations) &&
            Lookup(r, "industries") == CsvParam(f.industries)
  {
    var fe := FilterEntries(f);
    assert fe[0].key == "sizes" && fe[1].key == "locations" && fe[2].key == "industries";
    RecordLookup(fe, 0);
    RecordLookup(fe, 1);
    RecordLookup(fe, 2);
  }

  /** `annualRevenue` is set exactly when a bound is truthy, and then holds the
      truthy bounds and nothing else. */
  lemma RevenueSent(f: SearchFlags)
    ensures var filter := Record(FilterEntries(f));
            (Lookup(filter, "annualRevenue").Some? <==> GivenText(f.revenueMin) || GivenText(f.revenueMax)) &&
            (Lookup(filter, "annualRevenue").Some? ==>
               Lookup(filter, "annualRevenue") == Some(JObj(Record(RevenueEntries(f)))))
    ensures var revenue := Record(RevenueEntries(f));
            Lookup(revenue, "min") == TextParam(f.revenueMin) && Lookup(revenue, "max") == TextParam(f.revenueMax) &&
            forall k :: k != "min" && k != "max" ==> Lookup(revenue, k) == None
  {
    var fe := FilterEntries(f);
    assert fe[3].key == "annualRevenue";
    RecordLookup(fe, 3);
    var re := RevenueEntries(f);
    RecordLookup(re, 0);
    RecordLookup(re, 1);
    forall k | k != "min" && k != "max" ensures Lookup(Record(re), k) == None {
      RecordAbsent(re, k);
    }
  }

  /** `filter` is sent exactly when some filter flag or revenue bound is truthy. */
  lemma FilterSent(f: SearchFlags)
    ensures var p := SearchParams(f).members;
            (Lookup(p, "filter").Some? <==>
               GivenText(f.sizes) || GivenText(f.locations) || GivenText(f.industries) ||
               GivenText(f.revenueMin) || GivenText(f.revenueMax)) &&
            (Lookup(p, "filter").Some? ==> Lookup(p, "filter") == Some(JObj(Record(FilterEntries(f)))))
  {
    var fe := FilterEntries(f);
    RecordEmpty(fe);
    assert fe[0].value == CsvParam(f.sizes) && fe[1].value == CsvParam(f.locations);
    assert fe[2].value == CsvParam(f.industries);
    assert fe[3].value.Some? <==> GivenText(f.revenueMin) || GivenText(f.revenueMax);
    var pe := ParamEntries(f, Record(fe));
    assert pe[2].key == "filter";
    RecordLookup(pe, 2);
  }

  /** The revenue range: `{}` and then the truthy bounds. */
  method BuildRevenue(f: SearchFlags) returns (revenue: seq<Member>)
    ensures revenue == Record(RevenueEntries(f))
  {
    ghost var es := RevenueEntries(f);
    assert es[0] == Entry("min", TextParam(f.revenueMin));
    assert es[1] == Entry("max", TextParam(f.revenueMax));
    revenue := [];
    if GivenText(f.revenueMin) { revenue := revenue + [Member("min", JStr(f.revenueMin.value))]; }
    assert revenue == Built(es, 1);
    if GivenText(f.revenueMax) { revenue := revenue + [Member("max", JStr(f.revenueMax.value))]; }
    assert revenue == Built(es, 2);
  }

  /** The filter construction of `run`. */
  method BuildFilter(f: SearchFlags) returns (filter: seq<Member>)
    ensures filter == Record(FilterEntries(f))
  {
    ghost var es := FilterEntries(f);
    assert es[0] == Entry("sizes", CsvParam(f.sizes));
    assert es[1] == Entry("locations", CsvParam(f.locations));
    assert es[2] == Entry("industries", CsvParam(f.industries));
    assert es[3] == Entry("annualRevenue", if GivenText(f.revenueMin) || GivenText(f.revenueMax) then Some(JObj(Record(RevenueEntries(f)))) else None);
    filter := [];
    if GivenText(f.sizes) { filter := filter + [Member("sizes", CsvValue(f.sizes.value))]; }
    assert filter == Built(es, 1);
    if GivenText(f.locations) { filter := filter + [Member("locations", CsvValue(f.locations.value))]; }
    assert filter == Built(es, 2);
    if GivenText(f.industries) { filter := filter + [Member("industries", CsvValue(f.industries.value))]; }
    assert filter == Built(es, 3);
    if GivenText(f.revenueMin) || GivenText(f.revenueMax) {
      var revenue := BuildRevenue(f);
      filter := filter + [Member("annualRevenue", JObj(revenue))];
    }
    assert filter == Built(es, 4);
  }

  /** The parameter construction of `run`. */
  method BuildParams(f: SearchFlags) returns (params: Value)
    ensures params == SearchParams(f)
  {
    var filter := BuildFilter(f);
    ghost var es := ParamEntries(f, filter);
    assert es[0] == Entry("term", TextParam(f.term));
    assert es[1] == Entry("limit", NumberParam(f.limit));
    assert es[2] == Entry("filter", NonEmpty(filter));
    var ps: seq<Member> := [];
    if GivenText(f.term) { ps := ps + [Member("term", JStr(f.term.value))]; }
    assert ps == Built(es, 1);
    if GivenNumber(f.limit) { ps := ps + [Member("limit", JNum(f.limit.value))]; }
    assert ps == Built(es, 2);
    if |filter| > 0 {
      ps := ps + [Member("filter", JObj(filter))];
    }
    assert ps == Built(es, 3);
    params := JObj(ps);
  }

  /** `navigator company search`: the workflow runs with the parameters specified above. */
  method Run(store: ConfigStore.Store, service: LinkedApi.Service, console: Process.Console, flags: BaseFlags,
             f: SearchFlags)
    requires service.Valid() && console.Open()
    modifies store, service, console
    ensures service.Valid()
    ensures store.disk == ConfigStore.Rewritten(old(store.disk))
    ensures var auth := AuthManager.Resolve(ConfigStore.Load(old(store.disk)), flags.account);
            auth.Err? ==> Unauthenticated(service, console, auth.error)
    ensures var auth := AuthManager.Resolve(ConfigStore.Load(old(store.disk)), flags.account);
            auth.Ok? ==> WorkflowRunner.RanWorkflow(service, console, auth.value, Operation, SearchParams(f), flags)
  {
    var client := BuildAuthenticatedClient(store, console, flags);
    if client.None? {
      return;
    }
    var params := BuildParams(f);
    WorkflowRunner.RunAndFormat(service, console, client.value, Operation, params, flags);
  }
}
