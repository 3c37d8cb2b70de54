/**
 * The controller's reshaping of upstream JSON: an item's `properties`
 * object is merged into the item's own fields (`flattenResult`), and a
 * response is flattened as a single item or item by item (`flattenResults`).
 *
 * PHP arrays with string keys are ordered lists of fields here; the JSON
 * the upstream client decodes is a `Json` value.
 */
module Json {
  import opened Wrappers

  /** A decoded JSON value; objects keep their fields in order. */
  datatype Json =
    | JNull
    | JBool(b: bool)
    | JInt(i: int)
    | JStr(s: string)
    | JList(items: seq<Json>)
    | JObject(fields: seq<Field>)

  /** One key and its value in an object or associative array. */
  datatype Field = Field(key: string, value: Json)

  /** The key `flattenResult` merges. */
  const PropertiesKey: string := "properties"

  /** The keys of `fs`, in order. */
  function Keys(fs: seq<Field>): (ks: seq<string>)
    ensures |ks| == |fs|
    ensures forall i :: 0 <= i < |fs| ==> ks[i] == fs[i].key
  {
    if fs == [] then [] else [fs[0].key] + Keys(fs[1..])
  }

  /** No key occurs twice, as in every PHP array or decoded object. */
  predicate UniqueKeys(fs: seq<Field>) {
    forall i, j :: 0 <= i < j < |fs| ==> fs[i].key != fs[j].key
  }

  /** `$fs[$k] ?? null`: the value stored under `k`, if any. */
  function Lookup(fs: seq<Field>, k: string): (v: Option<Json>)
    ensures v.None? <==> k !in Keys(fs)
  {
    if fs == [] then None
    else if fs[0].key == k then Some(fs[0].value)
    else Lookup(fs[1..], k)
  }

  /** `$fs[$f->key] = $f->value`: overwrite the value in place, or append a new key. */
  function Put(fs: seq<Field>, f: Field): (r: seq<Field>)
    ensures Keys(fs) <= Keys(r)
    ensures f.key in Keys(fs) ==> |r| == |fs|
    ensures f.key !in Keys(fs) ==> r == fs + [f]
  {
    if fs == [] then [f]
    else if fs[0].key == f.key then [f] + fs[1..]
    else
      var rest := Put(fs[1..], f);
      assert Keys(fs) == [fs[0].key] + Keys(fs[1..]);
      assert Keys([fs[0]] + rest) == [fs[0].key] + Keys(rest);
      [fs[0]] + rest
  }

  /** After `Put`, the key holds the new value and every other key is unchanged. */
  lemma {:induction false} LookupPut(fs: seq<Field>, f: Field, k: string)
    ensures Lookup(Put(fs, f), k) == if k == f.key then Some(f.value) else Lookup(fs, k)
  {
    if fs != [] && fs[0].key != f.key {
      LookupPut(fs[1..], f, k);
    }
  }

  /** `Put` keeps keys unique. */
  lemma {:induction false} PutUnique(fs: seq<Field>, f: Field)
    requires UniqueKeys(fs)
    ensures UniqueKeys(Put(fs, f))
    ensures forall k :: k in Keys(Put(fs, f)) <==> k in Keys(fs) || k == f.key
  {
    if fs != [] && fs[0].key != f.key {
      PutUnique(fs[1..], f);
      var rest := Put(fs[1..], f);
      assert Put(fs, f) == [fs[0]] + rest;
      assert Keys(fs) == [fs[0].key] + Keys(fs[1..]);
      assert Keys(Put(fs, f)) == [fs[0].key] + Keys(rest);
      assert fs[0].key !in Keys(fs[1..]);
    } else if fs != [] {
      assert Keys(fs) == [fs[0].key] + Keys(fs[1..]);
      assert Keys(Put(fs, f)) == [f.key] + Keys(fs[1..]);
    }
  }

  /**
   * `array_merge($a, $b)` for string keys: each field of `b` in turn
   * overwrites the same key of `a` in place or is appended.
   */
  function Merge(a: seq<Field>, b: seq<Field>): seq<Field>
    decreases |b|
  {
    if b == [] then a else Merge(Put(a, b[0]), b[1..])
  }

  /** In a merge, keys of the second array win and every other key keeps its value. */
  lemma {:induction false} LookupMerge(a: seq<Field>, b: seq<Field>, k: string)
    requires UniqueKeys(b)
    ensures Lookup(Merge(a, b), k) == if k in Keys(b) then Lookup(b, k) else Lookup(a, k)
    decreases |b|
  {
    if b != [] {
      LookupMerge(Put(a, b[0]), b[1..], k);
      LookupPut(a, b[0], k);
      assert Keys(b) == [b[0].key] + Keys(b[1..]);
      if k == b[0].key {
        assert k !in Keys(b[1..]);
      }
    }
  }

  /** A merge keeps the first array's keys in their places and adds keys only after them. */
  lemma {:induction false} MergeKeepsOrder(a: seq<Field>, b: seq<Field>)
    ensures Keys(a) <= Keys(Merge(a, b))
    decreases |b|
  {
    if b != [] {
      MergeKeepsOrder(Put(a, b[0]), b[1..]);
    }
  }

  /** A merge of arrays with unique keys has unique keys: those of either array. */
  lemma {:induction false} MergeUnique(a: seq<Field>, b: seq<Field>)
    requires UniqueKeys(a)
    ensures UniqueKeys(Merge(a, b))
    ensures forall k :: k in Keys(Merge(a, b)) <==> k in Keys(a) || k in Keys(b)
    decreases |b|
  {
    if b != [] {
      PutUnique(a, b[0]);
      MergeUnique(Put(a, b[0]), b[1..]);
      assert Keys(b) == [b[0].key] + Keys(b[1..]);
    }
  }

  /** `unset($fs[$k])`: the fields without key `k`, in order. */
  function Remove(fs: seq<Field>, k: string): (r: seq<Field>)
    ensures forall x :: Lookup(r, x) == if x == k then None else Lookup(fs, x)
  {
    if fs == [] then []
    else if fs[0].key == k then Remove(fs[1..], k)
    else [fs[0]] + Remove(fs[1..], k)
  }

  /** The decimal digits of `n`, most significant first, as PHP writes an integer key. */
  function NatToDecimal(n: nat): (s: string)
    ensures |s| > 0
    ensures forall i :: 0 <= i < |s| ==> '0' <= s[i] <= '9'
    decreases n
  {
    var digit := [(('0' as int) + n % 10) as char];
    if n < 10 then digit else NatToDecimal(n / 10) + digit
  }

  /** The number a string of decimal digits denotes. */
  function DecimalValue(s: string): nat
    requires forall i :: 0 <= i < |s| ==> '0' <= s[i] <= '9'
  {
    if s == [] then 0
    else 10 * DecimalValue(s[..|s| - 1]) + (s[|s| - 1] as int - '0' as int)
  }

  /** Reading back the digits of `n` gives `n`. */
  lemma {:induction false} NatToDecimalRoundTrip(n: nat)
    ensures DecimalValue(NatToDecimal(n)) == n
    decreases n
  {
    var s := NatToDecimal(n);
    if n >= 10 {
      NatToDecimalRoundTrip(n / 10);
      assert s[..|s| - 1] == NatToDecimal(n / 10);
    }
  }

  /** Different numbers have different decimal strings. */
  lemma NatToDecimalInjective(m: nat, n: nat)
    requires NatToDecimal(m) == NatToDecimal(n)
    ensures m == n
  {
    NatToDecimalRoundTrip(m);
    NatToDecimalRoundTrip(n);
  }

  /** `(array) $v`: the fields of an object, the elements of a list, or a scalar under key 0. */
  function ToFields(v: Json): (fs: seq<Field>)
    ensures v.JObject? ==> fs == v.fields
  {
    match v
    case JObject(fields) => fields
    case JList(items) => seq(|items|, i requires 0 <= i < |items| => Field(NatToDecimal(i), items[i]))
    case JNull => []
    case _ => [Field("0", v)]
  }

  /** Casting a value to an array gives unique keys whenever an object value has unique keys. */
  lemma ToFieldsUnique(v: Json)
    requires v.JObject? ==> UniqueKeys(v.fields)
    ensures UniqueKeys(ToFields(v))
  {
    if v.JList? {
      var fs := ToFields(v);
      forall i, j | 0 <= i < j < |fs|
        ensures fs[i].key != fs[j].key
      {
        if fs[i].key == fs[j].key {
          NatToDecimalInjective(i, j);
        }
      }
    }
  }

  /** `isset($fs['properties'])`: the key is present and not null. */
  predicate HasProperties(fs: seq<Field>) {
    Lookup(fs, PropertiesKey).Some? && Lookup(fs, PropertiesKey).value != JNull
  }

  /**
   * `flattenResult`: when the item has non-null `properties`, drop that key
   * and merge the properties' fields over the remaining ones; otherwise the
   * item's fields unchanged.
   */
  function FlattenResult(item: seq<Field>): (r: seq<Field>)
    ensures !HasProperties(item) ==> r == item
  {
    if HasProperties(item) then
      Merge(Remove(item, PropertiesKey), ToFields(Lookup(item, PropertiesKey).value))
    else item
  }

  /**
   * What flattening an item with properties does to each key: property keys
   * take the property values (overriding same-named top-level keys), every
   * other key keeps its top-level value, and `properties` itself is gone
   * unless the properties carry such a key of their own.
   */
  lemma FlattenResultLookup(item: seq<Field>, k: string)
    requires HasProperties(item)
    requires Lookup(item, PropertiesKey).value.JObject? ==>
      UniqueKeys(Lookup(item, PropertiesKey).value.fields)
    ensures var props := ToFields(Lookup(item, PropertiesKey).value);
      Lookup(FlattenResult(item), k) ==
        if k in Keys(props) then Lookup(props, k)
        else if k == PropertiesKey then None
        else Lookup(item, k)
  {
    var props := ToFields(Lookup(item, PropertiesKey).value);
    ToFieldsUnique(Lookup(item, PropertiesKey).value);
    LookupMerge(Remove(item, PropertiesKey), props, k);
  }

  /** Flattening keeps the item's other keys where they were, ahead of any new property key. */
  lemma FlattenResultKeepsOrder(item: seq<Field>)
    requires HasProperties(item)
    ensures Keys(Remove(item, PropertiesKey)) <= Keys(FlattenResult(item))
  {
    MergeKeepsOrder(Remove(item, PropertiesKey), ToFields(Lookup(item, PropertiesKey).value));
  }

  /**
   * `flattenResults`: null stays null; an object with properties is
   * flattened; a list is flattened item by item (an item that is not an
   * object is a type error); anything else is cast to an array.
   */
  function FlattenResults(result: Json): (r: Result<Option<Json>, string>)
    ensures result == JNull <==> r == Success(None)
    ensures r.Failure? <==>
      result.JList? && exists i :: 0 <= i < |result.items| && !result.items[i].JObject?
    ensures result.JObject? ==> r == Success(Some(JObject(FlattenResult(result.fields))))
    ensures result.JList? && r.Success? ==>
      r.value.Some? && r.value.value.JList? && |r.value.value.items| == |result.items| &&
      forall i :: 0 <= i < |result.items| ==>
        r.value.value.items[i] == JObject(FlattenResult(result.items[i].fields))
    ensures result.JBool? || result.JInt? || result.JStr? ==> r == Success(Some(JList([result])))
  {
    match result
    case JNull => Success(None)
    case JObject(fields) =>
      if HasProperties(fields) then Success(Some(JObject(FlattenResult(fields))))
      else Success(Some(JObject(fields)))
    case JList(items) =>
      if forall i :: 0 <= i < |items| ==> items[i].JObject? then
        Success(Some(JList(seq(|items|, i requires 0 <= i < |items| => JObject(FlattenResult(items[i].fields))))))
      else Failure("TypeError")
    case _ => Success(Some(JList([result])))
  }

  /**
   * Flattening a properties object that has no `properties` key of its own
   * leaves no `properties` key behind, so flattening again changes nothing.
   */
  lemma FlattenResultIdempotent(item: seq<Field>)
    requires HasProperties(item)
    requires Lookup(item, PropertiesKey).value.JObject?
    requires UniqueKeys(Lookup(item, PropertiesKey).value.fields)
    requires PropertiesKey !in Keys(Lookup(item, PropertiesKey).value.fields)
    ensures !HasProperties(FlattenResult(item))
    ensures FlattenResult(FlattenResult(item)) == FlattenResult(item)
  {
    FlattenResultLookup(item, PropertiesKey);
  }
}
