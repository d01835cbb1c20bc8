/** What the parameter builders of the fetch and search commands share: the
    truthiness tests of their `if (flags.x)` guards, the comma-split lists,
    and the description of a record by the value each key must have. */
module Params {

  import opened Wrappers
  import Text
  import opened Json

  /** `if (flag)` on a string flag: given and non-empty. */
  predicate GivenText(flag: Option<string>)
  {
    flag.Some? && flag.value != ""
  }

  /** `if (flag)` on an integer flag: given and not 0. */
  predicate GivenNumber(flag: Option<int>)
  {
    flag.Some? && flag.value != 0
  }

  /** `value.split(',').map((s) => s.trim())` as a JSON array. */
  function CsvValue(s: string): (v: Value)
    ensures v.JArr?
  {
    var parts := Text.SplitCsv(s);
    JArr(seq(|parts|, i requires 0 <= i < |parts| => JStr(parts[i])))
  }

  /** One array item per comma-separated piece, each piece trimmed. */
  lemma CsvValueItems(s: string)
    ensures |CsvValue(s).items| == Text.Count(s, ',') + 1
    ensures forall i :: 0 <= i < |CsvValue(s).items| ==>
              CsvValue(s).items[i] == JStr(Text.Trim(Text.Split(s, ',')[i]))
  {
  }

  /** The value a string flag puts under its key: itself, when truthy. */
  function TextParam(flag: Option<string>): (r: Option<Value>)
    ensures r.Some? <==> GivenText(flag)
  {
    if GivenText(flag) then Some(JStr(flag.value)) else None
  }

  /** The value an integer flag puts under its key: itself, when truthy. */
  function NumberParam(flag: Option<int>): (r: Option<Value>)
    ensures r.Some? <==> GivenNumber(flag)
  {
    if GivenNumber(flag) then Some(JNum(flag.value)) else None
  }

  /** The value a list flag puts under its key: its comma-split pieces, when truthy. */
  function CsvParam(flag: Option<string>): (r: Option<Value>)
    ensures r.Some? <==> GivenText(flag)
  {
    if GivenText(flag) then Some(CsvValue(flag.value)) else None
  }

  /** The value a boolean flag puts under its key: `true`, when set. */
  function TrueParam(flag: bool): (r: Option<Value>)
    ensures r.Some? <==> flag
  {
    if flag then Some(JBool(true)) else None
  }

  /** One guarded assignment `if (guard) record.key = value` of a builder:
      the key, and the value it receives (None when the guard is false). */
  datatype Entry = Entry(key: string, value: Option<Value>)

  /** `if (Object.keys(record).length > 0) parent.key = record`: the nested
      record, unless it is empty. */
  function NonEmpty(ms: seq<Member>): (r: Option<Value>)
    ensures r.Some? <==> ms != []
    ensures r.Some? ==> r.value == JObj(ms)
  {
    if |ms| > 0 then Some(JObj(ms)) else None
  }

  /** No key is assigned twice. */
  predicate DistinctKeys(es: seq<Entry>)
  {
    forall i, j :: 0 <= i < j < |es| ==> es[i].key != es[j].key
  }

  /** The members one assignment adds: one, or none when its guard is false. */
  function Assigned(e: Entry): seq<Member>
  {
    if e.value.Some? then [Member(e.key, e.value.value)] else []
  }

  /** The record after running the first n assignments in order on `{}`.
      Each assignment is to a key not yet present, so it adds a member at the
      end. */
  function Built(es: seq<Entry>, n: nat): seq<Member>
    requires n <= |es|
  {
    if n == 0 then [] else Built(es, n - 1) + Assigned(es[n - 1])
  }

  /** The record built by all the assignments. */
  function Record(es: seq<Entry>): seq<Member>
  {
    Built(es, |es|)
  }

  /** The retrieval configuration of posts, comments or reactions:
      `limit` and `since` when truthy. */
  function LimitSinceEntries(limit: Option<int>, since: Option<string>): seq<Entry>
  {
    [Entry("limit", NumberParam(limit)), Entry("since", TextParam(since))]
  }

  /** `const config = {}; if (limit) config.limit = limit; if (since) config.since = since;` */
  method BuildLimitSince(limit: Option<int>, since: Option<string>) returns (config: seq<Member>)
    ensures config == Record(LimitSinceEntries(limit, since))
  {
    ghost var es := LimitSinceEntries(limit, since);
    config := [];
    if GivenNumber(limit) { config := config + [Member("limit", JNum(limit.value))]; }
    assert config == Built(es, 1);
    if GivenText(since) { config := config + [Member("since", JStr(since.value))]; }
    assert config == Built(es, 2);
  }

  /** Such a configuration holds exactly the truthy ones of the two. */
  lemma LimitSinceContents(limit: Option<int>, since: Option<string>)
    ensures Lookup(Record(LimitSinceEntries(limit, since)), "limit") == NumberParam(limit)
    ensures Lookup(Record(LimitSinceEntries(limit, since)), "since") == TextParam(since)
    ensures Record(LimitSinceEntries(limit, since)) != [] <==> GivenNumber(limit) || GivenText(since)
  {
    var es := LimitSinceEntries(limit, since);
    RecordLookup(es, 0);
    RecordLookup(es, 1);
    RecordEmpty(es);
  }

  /** Looking a key up after one more assignment: a key already present keeps
      its value, otherwise the assignment decides. */
  lemma AssignedLookup(prev: seq<Member>, e: Entry, k: string)
    ensures Lookup(prev + Assigned(e), k) ==
            if Lookup(prev, k).Some? then Lookup(prev, k) else if e.key == k then e.value else None
  {
    if e.value.Some? {
      LookupAppend(prev, Member(e.key, e.value.value), k);
    } else {
      assert prev + Assigned(e) == prev;
    }
  }

  /** A key none of the first n assignments names is absent. */
  lemma {:induction false} BuiltAbsent(es: seq<Entry>, n: nat, k: string)
    requires n <= |es|
    requires forall j :: 0 <= j < n ==> es[j].key != k
    ensures Lookup(Built(es, n), k) == None
  {
    if n > 0 {
      BuiltAbsent(es, n - 1, k);
      assert es[n - 1].key != k;
      AssignedLookup(Built(es, n - 1), es[n - 1], k);
    }
  }

  /** Each of the first n assignments leaves its key holding its value
      (or absent, when its guard is false). */
  lemma {:induction false} BuiltLookup(es: seq<Entry>, n: nat, i: nat)
    requires i < n <= |es|
    requires forall j :: 0 <= j < n && j != i ==> es[j].key != es[i].key
    ensures Lookup(Built(es, n), es[i].key) == es[i].value
  {
    var k := es[i].key;
    AssignedLookup(Built(es, n - 1), es[n - 1], k);
    if n - 1 == i {
      BuiltAbsent(es, i, k);
    } else {
      BuiltLookup(es, n - 1, i);
      assert es[n - 1].key != k;
    }
  }

  /** The record of the first n assignments is empty exactly when all their
      guards are false. */
  lemma {:induction false} BuiltEmpty(es: seq<Entry>, n: nat)
    requires n <= |es|
    ensures Built(es, n) == [] <==> forall j :: 0 <= j < n ==> es[j].value.None?
  {
    if n > 0 {
      BuiltEmpty(es, n - 1);
      if es[n - 1].value.Some? {
        assert Built(es, n) != [] by {
          assert |Built(es, n)| == |Built(es, n - 1)| + 1;
        }
        assert !(forall j :: 0 <= j < n ==> es[j].value.None?) by {
          assert es[n - 1].value.Some?;
        }
      } else {
        assert Built(es, n) == Built(es, n - 1) by {
          assert Assigned(es[n - 1]) == [];
        }
        assert (forall j :: 0 <= j < n ==> es[j].value.None?) <==>
               (forall j :: 0 <= j < n - 1 ==> es[j].value.None?);
      }
    }
  }

  /** Each assigned key holds its value. */
  lemma RecordLookup(es: seq<Entry>, i: nat)
    requires DistinctKeys(es) && i < |es|
    ensures Lookup(Record(es), es[i].key) == es[i].value
  {
    assert forall j :: 0 <= j < |es| && j != i ==> es[j].key != es[i].key by {
      forall j | 0 <= j < |es| && j != i ensures es[j].key != es[i].key {
        if j < i {
          assert es[j].key != es[i].key;
        } else {
          assert es[i].key != es[j].key;
        }
      }
    }
    BuiltLookup(es, |es|, i);
  }

  /** A key no assignment names is absent from the record. */
  lemma RecordAbsent(es: seq<Entry>, k: string)
    requires forall j :: 0 <= j < |es| ==> es[j].key != k
    ensures Lookup(Record(es), k) == None
  {
    BuiltAbsent(es, |es|, k);
  }

  /** The record is empty exactly when every guard is false. */
  lemma RecordEmpty(es: seq<Entry>)
    ensures Record(es) == [] <==> forall j :: 0 <= j < |es| ==> es[j].value.None?
  {
    BuiltEmpty(es, |es|);
  }
}
