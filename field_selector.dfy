/** The `--fields` projection (src/core/output/field-selector.ts): keep only the
    requested properties of an object, or of every element of an array. */
module FieldSelector {

  import opened Wrappers
  import Text
  import opened Json

  /** The requested field names: the flag split on commas, each piece trimmed. */
  function FieldList(fields: string): (fs: seq<string>)
    ensures |fs| == Text.Count(fields, ',') + 1
    ensures forall i :: 0 <= i < |fs| ==> fs[i] == Text.Trim(Text.Split(fields, ',')[i])
  {
    Text.SplitCsv(fields)
  }

  /** The members `pickFields` has assigned after visiting `fields` in order:
      each requested field the input has is copied, keeping its value. */
  function PickedMembers(v: Value, fields: seq<string>): seq<Member>
  {
    if fields == [] then []
    else
      var prev := PickedMembers(v, fields[..|fields| - 1]);
      var field := fields[|fields| - 1];
      if IsObject(v) && Has(v, field) then Put(prev, field, Property(v, field).value) else prev
  }

  /** `pickFields`: a non-object (or `null`) gives the empty object. */
  function Picked(v: Value, fields: seq<string>): (r: Value)
    ensures r.JObj?
    ensures !IsObject(v) ==> r.members == []
  {
    if !IsObject(v) then JObj([]) else JObj(PickedMembers(v, fields))
  }

  /** A picked member exists exactly for a requested field the input has, and
      carries the input's value. */
  lemma {:induction false} PickedLemma(v: Value, fields: seq<string>)
    ensures forall k :: Lookup(PickedMembers(v, fields), k) ==
              if k in fields && IsObject(v) then Property(v, k) else None
  {
    if fields != [] {
      var init := fields[..|fields| - 1];
      var field := fields[|fields| - 1];
      PickedLemma(v, init);
      assert forall k :: k in fields <==> k in init || k == field by {
        assert fields == init + [field];
      }
    }
  }

  /** The output's keys are exactly the requested fields present in the input,
      each with its original value. */
  lemma PickedKeys(v: Value, fields: seq<string>, k: string)
    ensures k in Keys(Picked(v, fields).members) <==> IsObject(v) && k in fields && Has(v, k)
    ensures k in Keys(Picked(v, fields).members) ==>
              Lookup(Picked(v, fields).members, k) == Property(v, k)
  {
    PickedLemma(v, fields);
  }

  /** Picking the same fields again changes nothing. */
  lemma PickedIdempotent(v: Value, fields: seq<string>)
    ensures Picked(Picked(v, fields), fields) == Picked(v, fields)
  {
    if IsObject(v) {
      PickedLemma(v, fields);
      ReplayPicked(v, fields, fields);
    } else {
      NothingPickedFromEmpty(fields);
    }
  }

  lemma {:induction false} NothingPickedFromEmpty(fields: seq<string>)
    ensures PickedMembers(JObj([]), fields) == []
  {
    if fields != [] {
      NothingPickedFromEmpty(fields[..|fields| - 1]);
    }
  }

  /** The members picked from a picked object equal those picked from the
      original, for every prefix of the requested fields. */
  lemma {:induction false} ReplayPicked(v: Value, fields: seq<string>, prefix: seq<string>)
    requires forall k :: k in prefix ==> k in fields
    requires forall k :: Lookup(PickedMembers(v, fields), k) == if k in fields && IsObject(v) then Property(v, k) else None
    ensures PickedMembers(JObj(PickedMembers(v, fields)), prefix) == PickedMembers(v, prefix)
  {
    if prefix != [] {
      var init := prefix[..|prefix| - 1];
      assert forall k :: k in init ==> k in prefix;
      ReplayPicked(v, fields, init);
    }
  }

  /** The position of the first request for `k`. */
  function FirstRequest(fields: seq<string>, k: string): (i: nat)
    requires k in fields
    ensures i < |fields| && fields[i] == k && k !in fields[..i]
  {
    if fields[0] == k then 0 else 1 + FirstRequest(fields[1..], k)
  }

  /** Requesting one more field leaves the first requests of the others alone. */
  lemma {:induction false} FirstRequestSnoc(init: seq<string>, f: string, k: string)
    requires k in init
    ensures FirstRequest(init + [f], k) == FirstRequest(init, k)
  {
    if init[0] != k {
      assert (init + [f])[1..] == init[1..] + [f];
      FirstRequestSnoc(init[1..], f, k);
    }
  }

  /** Whether `a` may come right before `b` in the picked object: two keys that
      are no index keys keep the order in which they were first requested. */
  predicate RequestedBefore(a: string, b: string, fields: seq<string>)
  {
    !IsIndexKey(a) && !IsIndexKey(b) ==>
      a in fields && b in fields && FirstRequest(fields, a) < FirstRequest(fields, b)
  }

  /** The order among the keys that are no index keys, stated for neighbours;
      see `RequestOrderPairs` for any two keys. */
  predicate RequestOrder(ks: seq<string>, fields: seq<string>)
  {
    |ks| <= 1 || (RequestedBefore(ks[0], ks[1], fields) && RequestOrder(ks[1..], fields))
  }

  /** In an object whose keys are in JavaScript's order, any two keys that are
      no index keys come in the order of their first request. */
  lemma {:induction false} RequestOrderPairs(ks: seq<string>, fields: seq<string>)
    requires PropertyOrder(ks) && RequestOrder(ks, fields)
    ensures forall i, j :: 0 <= i < j < |ks| ==> RequestedBefore(ks[i], ks[j], fields)
  {
    if |ks| > 1 {
      RequestOrderPairs(ks[1..], fields);
      forall j | 1 <= j < |ks| ensures RequestedBefore(ks[0], ks[j], fields) {
        if j > 1 && !IsIndexKey(ks[0]) && !IsIndexKey(ks[j]) {
          assert RequestedBefore(ks[1..][0], ks[1..][j - 1], fields);
        }
      }
      forall i, j | 1 <= i < j < |ks| ensures RequestedBefore(ks[i], ks[j], fields) {
        assert RequestedBefore(ks[1..][i - 1], ks[1..][j - 1], fields);
      }
    }
  }

  /** The members `pickFields` assigns come in JavaScript's key order: index
      keys first and ascending, then the other keys in the order of their
      first request. */
  lemma {:induction false} PickedOrder(v: Value, fields: seq<string>)
    ensures PropertyOrder(Keys(PickedMembers(v, fields)))
    ensures RequestOrder(Keys(PickedMembers(v, fields)), fields)
  {
    if fields != [] {
      var init := fields[..|fields| - 1];
      var field := fields[|fields| - 1];
      assert fields == init + [field];
      var prev := PickedMembers(v, init);
      PickedOrder(v, init);
      PickedLemma(v, init);
      assert forall k :: k in Keys(prev) ==> k in init by {
        forall k | k in Keys(prev) ensures k in init {
          assert Lookup(prev, k).Some?;
        }
      }
      assert IsObject(v) && Has(v, field) && field in init ==> field in Keys(prev) by {
        if IsObject(v) && Has(v, field) && field in init {
          assert Lookup(prev, field).Some?;
        }
      }
      RequestsWiden(Keys(prev), init, field);
      if IsObject(v) && Has(v, field) {
        PutKeepsRequests(prev, init, field, Property(v, field).value);
      }
    }
  }

  /** One assignment of `pickFields`: keys of earlier requests only, in order,
      and a new key that either goes into its index place or is appended. */
  lemma PutKeepsRequests(prev: seq<Member>, init: seq<string>, field: string, value: Value)
    requires forall k :: k in Keys(prev) ==> k in init
    requires field in init ==> field in Keys(prev)
    requires PropertyOrder(Keys(prev)) && RequestOrder(Keys(prev), init + [field])
    ensures PropertyOrder(Keys(Put(prev, field, value)))
    ensures RequestOrder(Keys(Put(prev, field, value)), init + [field])
  {
    var fields := init + [field];
    PutKeepsOrder(prev, field, value);
    if field !in Keys(prev) && IsIndexKey(field) {
      InsertKeepsRequests(prev, Member(field, value), fields);
    } else if field !in Keys(prev) {
      KeysAppend(prev, Member(field, value));
      forall k | k in Keys(prev) ensures k in fields && FirstRequest(fields, k) < FirstRequest(fields, field) {
        FirstRequestSnoc(init, field, k);
      }
      RequestAppend(Keys(prev), field, fields);
    }
  }

  lemma {:induction false} RequestsWiden(ks: seq<string>, init: seq<string>, f: string)
    requires forall k :: k in ks ==> k in init
    requires RequestOrder(ks, init)
    ensures RequestOrder(ks, init + [f])
  {
    if |ks| > 1 {
      RequestsWiden(ks[1..], init, f);
      FirstRequestSnoc(init, f, ks[0]);
      FirstRequestSnoc(init, f, ks[1]);
    }
  }

  lemma {:induction false} RequestAppend(ks: seq<string>, f: string, fields: seq<string>)
    requires f in fields && RequestOrder(ks, fields)
    requires forall k :: k in ks ==> k in fields && FirstRequest(fields, k) < FirstRequest(fields, f)
    ensures RequestOrder(ks + [f], fields)
  {
    if ks != [] {
      RequestAppend(ks[1..], f, fields);
      assert (ks + [f])[1..] == ks[1..] + [f];
    }
  }

  lemma {:induction false} InsertKeepsRequests(ms: seq<Member>, m: Member, fields: seq<string>)
    requires IsIndexKey(m.key) && RequestOrder(Keys(ms), fields)
    ensures RequestOrder(Keys(InsertIndex(ms, m)), fields)
  {
    if ms == [] || !IsIndexKey(ms[0].key) || IndexValue(m.key) <= IndexValue(ms[0].key) {
      KeysCons(m, ms);
    } else {
      var rest := InsertIndex(ms[1..], m);
      KeysCons(ms[0], ms[1..]);
      assert [ms[0]] + ms[1..] == ms;
      InsertKeepsRequests(ms[1..], m, fields);
      KeysCons(ms[0], rest);
    }
  }

  /** One more requested field: it is assigned when the object has it. */
  lemma PickedSnoc(v: Value, fields: seq<string>, f: string)
    ensures PickedMembers(v, fields + [f]) ==
              if IsObject(v) && Has(v, f) then Put(PickedMembers(v, fields), f, Property(v, f).value)
              else PickedMembers(v, fields)
  {
    assert (fields + [f])[..|fields|] == fields;
  }

  /** `--fields b,1` on `{"1": x, "b": y}`: the index key `1` comes first. */
  lemma IndexFieldComesFirst(x: Value, y: Value)
    ensures Picked(JObj([Member("1", x), Member("b", y)]), ["b", "1"]).members == [Member("1", x), Member("b", y)]
  {
    var ms := [Member("1", x), Member("b", y)];
    assert "1" != "b";
    assert Lookup(ms, "b") == Lookup(ms[1..], "b") == Some(y);
    assert Lookup(ms, "1") == Some(x);
    PickedSnoc(JObj(ms), [], "b");
    assert [] + ["b"] == ["b"];
    PickedSnoc(JObj(ms), ["b"], "1");
    assert ["b"] + ["1"] == ["b", "1"];
    AppendedThenIndex(x, y);
  }

  /** `--fields 10,2` on `{"2": y, "10": x}`: index keys ascend whatever the request order. */
  lemma IndexFieldsAscend(x: Value, y: Value)
    ensures Picked(JObj([Member("2", y), Member("10", x)]), ["10", "2"]).members == [Member("2", y), Member("10", x)]
  {
    var ms := [Member("2", y), Member("10", x)];
    assert "2" != "10";
    assert Lookup(ms, "10") == Lookup(ms[1..], "10") == Some(x);
    assert Lookup(ms, "2") == Some(y);
    PickedSnoc(JObj(ms), [], "10");
    assert [] + ["10"] == ["10"];
    PickedSnoc(JObj(ms), ["10"], "2");
    assert ["10"] + ["2"] == ["10", "2"];
    SmallerIndexFirst(x, y);
  }

  /** `pickFields(obj, fields)`: a loop assigning each present field. */
  method PickFields(obj: Value, fields: seq<string>) returns (r: Value)
    ensures r == Picked(obj, fields)
  {
    if !IsObject(obj) {
      return JObj([]);
    }
    var result: seq<Member> := [];
    var i := 0;
    while i < |fields|
      invariant 0 <= i <= |fields|
      invariant result == PickedMembers(obj, fields[..i])
    {
      var field := fields[i];
      assert fields[..i + 1][..i] == fields[..i];
      if Has(obj, field) {
        result := Put(result, field, Property(obj, field).value);
      }
      i := i + 1;
    }
    assert fields[..|fields|] == fields;
    r := JObj(result);
  }

  /** `selectFields(data, fields)`: elementwise on an array, otherwise on the value. */
  function SelectFields(data: Value, fields: string): (r: Value)
    ensures data.JArr? ==> r.JArr? && |r.items| == |data.items|
    ensures data.JArr? ==> forall i :: 0 <= i < |data.items| ==> r.items[i] == Picked(data.items[i], FieldList(fields))
    ensures !data.JArr? ==> r == Picked(data, FieldList(fields))
  {
    var fieldList := FieldList(fields);
    if data.JArr? then
      JArr(seq(|data.items|, i requires 0 <= i < |data.items| => Picked(data.items[i], fieldList)))
    else
      Picked(data, fieldList)
  }

  /** Selecting the same fields twice equals selecting them once. */
  lemma SelectFieldsIdempotent(data: Value, fields: string)
    ensures SelectFields(SelectFields(data, fields), fields) == SelectFields(data, fields)
  {
    var fieldList := FieldList(fields);
    var once := SelectFields(data, fields);
    if data.JArr? {
      forall i | 0 <= i < |data.items|
        ensures Picked(once.items[i], fieldList) == once.items[i]
      {
        PickedIdempotent(data.items[i], fieldList);
      }
    } else {
      PickedIdempotent(data, fieldList);
    }
  }
}
