/** The JSON-like values the command-line client passes around (`unknown` in the
    source), with the few JavaScript operations on them that the output code
    uses: property lookup, the `in` test, assignment of a property, truthiness,
    `String(value)` and `Object.entries`. Objects are ordered lists of members;
    absence of a value (`undefined`) is `None` wherever it can arise. */
module Json {

  import opened Wrappers
  import Text

  datatype Value =
    | JNull
    | JBool(b: bool)
    | JNum(n: int)
    | JStr(s: string)
    | JArr(items: seq<Value>)
    | JObj(members: seq<Member>)

  datatype Member = Member(key: string, value: Value)

  /** The keys of an object's members, in order. */
  function Keys(ms: seq<Member>): (ks: seq<string>)
    ensures |ks| == |ms|
    ensures forall i :: 0 <= i < |ms| ==> ks[i] == ms[i].key
  {
    if ms == [] then [] else [ms[0].key] + Keys(ms[1..])
  }

  /** `record[key]` on an object: the value of the first member with that key. */
  function Lookup(ms: seq<Member>, key: string): (r: Option<Value>)
    ensures r.Some? <==> key in Keys(ms)
  {
    if ms == [] then None
    else if ms[0].key == key then Some(ms[0].value)
    else Lookup(ms[1..], key)
  }

  /** An array index in the sense of section 6.1.7 of ECMA-262: the decimal
      rendering, without leading zeros, of an integer below 2^32 - 1. */
  predicate IsIndexKey(key: string)
  {
    && Text.IsCanonicalDecimal(key)
    && Text.DecimalValue(key) < 0xFFFF_FFFF
  }

  /** The number an index key names. */
  function IndexValue(key: string): nat
    requires IsIndexKey(key)
  {
    Text.DecimalValue(key)
  }

  /** Two index keys naming the same number are the same key. */
  lemma IndexValueInjective(a: string, b: string)
    requires IsIndexKey(a) && IsIndexKey(b) && IndexValue(a) == IndexValue(b)
    ensures a == b
  {
    Text.DecimalRoundTrip(a);
    Text.DecimalRoundTrip(b);
  }

  /** Every integer below 2^32 - 1 renders as an index key naming it. */
  lemma IndexKeyOf(n: nat)
    requires n < 0xFFFF_FFFF
    ensures IsIndexKey(Text.NatToString(n)) && IndexValue(Text.NatToString(n)) == n
  {
    Text.NatToStringRoundTrip(n);
  }

  /** Whether `a` may come right before `b` among an object's own keys: an index
      key is preceded only by a smaller index key. */
  predicate IndexFirst(a: string, b: string)
  {
    IsIndexKey(b) ==> IsIndexKey(a) && IndexValue(a) < IndexValue(b)
  }

  /** JavaScript's order of an object's own keys (section 10.1.11.1 of ECMA-262,
      OrdinaryOwnPropertyKeys): the array-index keys come first, in ascending
      numeric order, and the other keys follow. Stated for neighbours; see
      `PropertyOrderPairs` for any two keys. */
  predicate PropertyOrder(ks: seq<string>)
  {
    |ks| <= 1 || (IndexFirst(ks[0], ks[1]) && PropertyOrder(ks[1..]))
  }

  /** In JavaScript's key order, every index key comes after the non-index keys
      and the index keys with larger numbers. */
  lemma {:induction false} PropertyOrderPairs(ks: seq<string>)
    requires PropertyOrder(ks)
    ensures forall i, j :: 0 <= i < j < |ks| ==> IndexFirst(ks[i], ks[j])
  {
    if |ks| > 1 {
      PropertyOrderPairs(ks[1..]);
      forall j | 1 <= j < |ks| ensures IndexFirst(ks[0], ks[j]) {
        if j > 1 {
          assert IndexFirst(ks[1..][0], ks[1..][j - 1]);
        }
      }
      forall i, j | 1 <= i < j < |ks| ensures IndexFirst(ks[i], ks[j]) {
        assert IndexFirst(ks[1..][i - 1], ks[1..][j - 1]);
      }
    }
  }

  lemma KeysCons(m: Member, ms: seq<Member>)
    ensures Keys([m] + ms) == [m.key] + Keys(ms)
  {
    assert ([m] + ms)[1..] == ms;
  }

  /** Assignment to a key the object has: its member gets the new value in place. */
  function Assign(ms: seq<Member>, key: string, value: Value): (r: seq<Member>)
    requires key in Keys(ms)
    ensures |r| == |ms| && Keys(r) == Keys(ms)
    ensures Lookup(r, key) == Some(value)
    ensures forall k :: k != key ==> Lookup(r, k) == Lookup(ms, k)
  {
    if ms[0].key == key then [Member(key, value)] + ms[1..]
    else [ms[0]] + Assign(ms[1..], key, value)
  }

  /** Assignment to an absent index key: the new member goes after the index
      keys with smaller numbers and before every other key. */
  function InsertIndex(ms: seq<Member>, m: Member): (r: seq<Member>)
    requires IsIndexKey(m.key)
    ensures |r| == |ms| + 1
    ensures r[0] == m || (ms != [] && r[0] == ms[0])
    ensures m.key !in Keys(ms) ==> Lookup(r, m.key) == Some(m.value)
    ensures forall k :: k != m.key ==> Lookup(r, k) == Lookup(ms, k)
  {
    if ms == [] || !IsIndexKey(ms[0].key) || IndexValue(m.key) <= IndexValue(ms[0].key) then [m] + ms
    else [ms[0]] + InsertIndex(ms[1..], m)
  }

  /** `record[key] = value`: a present key keeps its place; an absent index key
      goes into its numeric place; any other absent key is appended at the end. */
  function Put(ms: seq<Member>, key: string, value: Value): (r: seq<Member>)
    ensures key in Keys(ms) ==> |r| == |ms| && Keys(r) == Keys(ms)
    ensures key !in Keys(ms) && !IsIndexKey(key) ==> r == ms + [Member(key, value)]
    ensures key !in Keys(ms) && IsIndexKey(key) ==> r == InsertIndex(ms, Member(key, value))
    ensures Lookup(r, key) == Some(value)
    ensures forall k :: k != key ==> Lookup(r, k) == Lookup(ms, k)
  {
    if key in Keys(ms) then Assign(ms, key, value)
    else if IsIndexKey(key) then InsertIndex(ms, Member(key, value))
    else
      forall k ensures Lookup(ms + [Member(key, value)], k) == if k == key then Some(value) else Lookup(ms, k) {
        LookupAppend(ms, Member(key, value), k);
      }
      ms + [Member(key, value)]
  }

  /** An assignment keeps an object's keys in JavaScript's order. */
  lemma PutKeepsOrder(ms: seq<Member>, key: string, value: Value)
    requires PropertyOrder(Keys(ms))
    ensures PropertyOrder(Keys(Put(ms, key, value)))
  {
    if key !in Keys(ms) && IsIndexKey(key) {
      InsertKeepsOrder(ms, Member(key, value));
    } else if key !in Keys(ms) {
      KeysAppend(ms, Member(key, value));
      AppendKeepsOrder(Keys(ms), key);
    }
  }

  /** Inserting an absent index key in its place keeps JavaScript's key order. */
  lemma {:induction false} InsertKeepsOrder(ms: seq<Member>, m: Member)
    requires IsIndexKey(m.key) && m.key !in Keys(ms) && PropertyOrder(Keys(ms))
    ensures PropertyOrder(Keys(InsertIndex(ms, m)))
  {
    var r := InsertIndex(ms, m);
    if ms == [] || !IsIndexKey(ms[0].key) || IndexValue(m.key) <= IndexValue(ms[0].key) {
      KeysCons(m, ms);
      if ms != [] && IsIndexKey(ms[0].key) && IndexValue(m.key) == IndexValue(ms[0].key) {
        IndexValueInjective(m.key, ms[0].key);
      }
    } else {
      var rest := InsertIndex(ms[1..], m);
      InsertKeepsOrder(ms[1..], m);
      KeysCons(ms[0], rest);
      KeysCons(ms[0], ms[1..]);
      assert [ms[0]] + ms[1..] == ms;
      if rest[0] != m {
        KeysCons(ms[1..][0], ms[1..][1..]);
        assert [ms[1..][0]] + ms[1..][1..] == ms[1..];
      }
    }
  }

  /** Appending a key that is no index key keeps JavaScript's key order. */
  lemma {:induction false} AppendKeepsOrder(ks: seq<string>, k: string)
    requires !IsIndexKey(k) && PropertyOrder(ks)
    ensures PropertyOrder(ks + [k])
  {
    if |ks| > 1 {
      AppendKeepsOrder(ks[1..], k);
      assert (ks + [k])[1..] == ks[1..] + [k];
    }
  }

  lemma {:induction false} KeysAppend(ms: seq<Member>, m: Member)
    ensures Keys(ms + [m]) == Keys(ms) + [m.key]
  {
    if ms != [] {
      KeysAppend(ms[1..], m);
      assert (ms + [m])[1..] == ms[1..] + [m];
    }
  }

  /** Assigning `b` and then `1` to an empty object puts `1` first. */
  lemma AppendedThenIndex(x: Value, y: Value)
    ensures Put(Put([], "b", y), "1", x) == [Member("1", x), Member("b", y)]
  {
    assert !IsIndexKey("b") by {
      assert !('0' <= "b"[0] <= '9');
    }
    assert IsIndexKey("1");
    assert Put([], "b", y) == [Member("b", y)];
  }

  /** Assigning `10` and then `2` to an empty object puts `2` first. */
  lemma SmallerIndexFirst(x: Value, y: Value)
    ensures Put(Put([], "10", x), "2", y) == [Member("2", y), Member("10", x)]
  {
    assert IsIndexKey("10") && IndexValue("10") == 10;
    assert IsIndexKey("2") && IndexValue("2") == 2;
    assert Put([], "10", x) == [Member("10", x)];
  }

  /** Looking a key up after appending a member: an earlier member with that
      key still wins. */
  lemma {:induction false} LookupAppend(ms: seq<Member>, m: Member, k: string)
    ensures Lookup(ms + [m], k) ==
            if Lookup(ms, k).Some? then Lookup(ms, k) else if m.key == k then Some(m.value) else None
  {
    if ms == [] {
      assert [] + [m] == [m];
    } else {
      assert (ms + [m])[1..] == ms[1..] + [m];
      LookupAppend(ms[1..], m, k);
    }
  }

  /** An object literal whose members are written in this order. */
  function Object(ms: seq<Member>): (v: Value)
    ensures v.JObj? && v.members == ms
  {
    JObj(ms)
  }

  /** The JavaScript `typeof x === 'object' && x !== null` test: objects and arrays. */
  predicate IsObject(v: Value)
  {
    v.JObj? || v.JArr?
  }

  /** JavaScript truthiness of a present value (`undefined` is falsy as well). */
  predicate Truthy(v: Value)
  {
    match v
    case JNull => false
    case JBool(b) => b
    case JNum(n) => n != 0
    case JStr(s) => s != ""
    case JArr(_) => true
    case JObj(_) => true
  }

  /** `value[key]` for any present value: object members, array and string
      elements by decimal index, and the `length` of arrays and strings.
      Numbers, booleans and `null` have no own properties here. */
  function Property(v: Value, key: string): (r: Option<Value>)
    ensures v.JObj? ==> r == Lookup(v.members, key)
    ensures v.JArr? && key == "length" ==> r == Some(JNum(|v.items|))
    ensures v.JArr? && r.Some? && key != "length" ==>
              exists i :: 0 <= i < |v.items| && Text.NatToString(i) == key && r.value == v.items[i]
    ensures v.JStr? && key == "length" ==> r == Some(JNum(|v.s|))
    ensures v.JNull? || v.JBool? || v.JNum? ==> r.None?
  {
    match v
    case JObj(ms) => Lookup(ms, key)
    case JArr(items) =>
      if key == "length" then Some(JNum(|items|))
      else (match Text.IndexNamed(key, |items|)
            case Some(i) => Some(items[i])
            case None => None)
    case JStr(s) =>
      if key == "length" then Some(JNum(|s|))
      else (match Text.IndexNamed(key, |s|)
            case Some(i) => Some(JStr([s[i]]))
            case None => None)
    case _ => None
  }

  /** `key in value` for an object or an array: the key names an own property. */
  predicate Has(v: Value, key: string)
    requires IsObject(v)
  {
    Property(v, key).Some?
  }

  /** `Object.keys(value)` for an object or an array. */
  function ObjectKeys(v: Value): (ks: seq<string>)
    requires IsObject(v)
    ensures v.JObj? ==> ks == Keys(v.members)
    ensures v.JArr? ==> |ks| == |v.items| && forall i :: 0 <= i < |ks| ==> ks[i] == Text.NatToString(i)
  {
    if v.JObj? then Keys(v.members)
    else seq(|v.items|, i requires 0 <= i < |v.items| => Text.NatToString(i))
  }

  /** `Object.entries(value)`: the members of an object, the elements of an array
      or the characters of a string under their indices; nothing for the rest. */
  function Entries(v: Value): (es: seq<Member>)
    ensures v.JObj? ==> es == v.members
    ensures v.JArr? ==> |es| == |v.items|
    ensures v.JArr? ==> forall i :: 0 <= i < |es| ==> es[i] == Member(Text.NatToString(i), v.items[i])
    ensures v.JStr? ==> |es| == |v.s|
    ensures v.JStr? ==> forall i :: 0 <= i < |es| ==> es[i] == Member(Text.NatToString(i), JStr([v.s[i]]))
    ensures v.JNull? || v.JBool? || v.JNum? ==> es == []
  {
    match v
    case JObj(ms) => ms
    case JArr(items) => seq(|items|, i requires 0 <= i < |items| => Member(Text.NatToString(i), items[i]))
    case JStr(s) => seq(|s|, i requires 0 <= i < |s| => Member(Text.NatToString(i), JStr([s[i]])))
    case _ => []
  }

  /** `String(value)`: arrays are their elements' renderings joined with commas,
      where `null` elements render as the empty string. */
  function Display(v: Value): (r: string)
    ensures v.JStr? ==> r == v.s
    ensures v.JNull? ==> r == "null"
    ensures v.JObj? ==> r == "[object Object]"
  {
    match v
    case JNull => "null"
    case JBool(b) => if b then "true" else "false"
    case JNum(n) => Text.IntToString(n)
    case JStr(s) => s
    case JArr(items) => Text.Join(DisplayItems(items), ",")
    case JObj(_) => "[object Object]"
  }

  /** The renderings of array elements that `Array.prototype.join` puts between commas. */
  function DisplayItems(items: seq<Value>): (r: seq<string>)
    ensures |r| == |items|
  {
    if items == [] then []
    else [if items[0].JNull? then "" else Display(items[0])] + DisplayItems(items[1..])
  }

  /** Each element renders as `String(element)`, except `null`, which renders
      as the empty string. */
  lemma {:induction false} DisplayItemsRendered(items: seq<Value>)
    ensures forall i :: 0 <= i < |items| ==>
              DisplayItems(items)[i] == if items[i].JNull? then "" else Display(items[i])
  {
    if items != [] {
      DisplayItemsRendered(items[1..]);
      assert forall i :: 1 <= i < |items| ==> items[i] == items[1..][i - 1];
    }
  }
}
