/** Values produced by JSON.parse, and the few JavaScript operations the page
    code applies to them: truthiness, own-property access, Object.entries and
    the property update of an object literal. */
module JsonValue {
  import opened Wrappers

  /** A parsed JSON value. An object is the list of its own enumerable
      properties in the order Object.entries yields them; a JavaScript object
      never has two properties with the same key (see DistinctKeys). JSON
      numbers are modelled as integers. */
  datatype Json =
    | JNull
    | JBool(b: bool)
    | JNum(n: int)
    | JStr(s: string)
    | JArr(items: seq<Json>)
    | JObj(fields: seq<(string, Json)>)

  /** JavaScript truthiness: `false`, `0`, `""` and `null` are falsy; every
      array and object, even an empty one, is truthy. */
  predicate Truthy(v: Json) {
    match v
    case JNull => false
    case JBool(b) => b
    case JNum(n) => n != 0
    case JStr(s) => s != ""
    case JArr(_) => true
    case JObj(_) => true
  }

  /** No key occurs twice. */
  predicate DistinctKeys(fields: seq<(string, Json)>) {
    forall i, j :: 0 <= i < j < |fields| ==> fields[i].0 != fields[j].0
  }

  /** Some property of `fields` has key `k`. */
  predicate HasKey(fields: seq<(string, Json)>, k: string) {
    exists i :: 0 <= i < |fields| && fields[i].0 == k
  }

  /** The decimal spelling of an array index, as used for index keys. */
  function IndexKey(n: nat): (r: string)
    ensures |r| > 0
    decreases n
  {
    if n < 10 then ["0123456789"[n]] else IndexKey(n / 10) + ["0123456789"[n % 10]]
  }

  /** The own enumerable properties of a value, as Object.entries and object
      spread see them: an object's fields, an array's or a string's indexes,
      and nothing for `null`, booleans and numbers. */
  function OwnEntries(v: Json): seq<(string, Json)> {
    match v
    case JObj(fields) => fields
    case JArr(items) => seq(|items|, i requires 0 <= i < |items| => (IndexKey(i), items[i]))
    case JStr(s) => seq(|s|, i requires 0 <= i < |s| => (IndexKey(i), JStr([s[i]])))
    case _ => []
  }

  /** The value of the first property with key `k`, or None (`undefined`). */
  function Find(fields: seq<(string, Json)>, k: string): (r: Option<Json>)
    ensures r.Some? <==> HasKey(fields, k)
    ensures r.Some? ==> exists i :: 0 <= i < |fields| && fields[i] == (k, r.value)
  {
    if fields == [] then None
    else if fields[0].0 == k then Some(fields[0].1)
    else
      var r := Find(fields[1..], k);
      assert forall i :: 0 <= i < |fields| - 1 ==> fields[1..][i] == fields[i + 1];
      r
  }

  /** Property access `v[k]` on a value that is not `null`; inherited
      properties are not modelled. */
  function Get(v: Json, k: string): Option<Json> {
    Find(OwnEntries(v), k)
  }

  /** Defines property `k` as an object literal does after a spread: an
      existing property keeps its position and takes the new value; a new
      one is appended. */
  function Put(fields: seq<(string, Json)>, k: string, x: Json): (r: seq<(string, Json)>)
    ensures Find(r, k) == Some(x)
    ensures forall k' :: k' != k ==> Find(r, k') == Find(fields, k')
    ensures DistinctKeys(fields) ==> DistinctKeys(r)
  {
    if fields == [] then [(k, x)]
    else if fields[0].0 == k then
      var r := [(k, x)] + fields[1..];
      assert forall i :: 0 < i < |r| ==> r[i] == fields[i];
      r
    else
      var rest := Put(fields[1..], k, x);
      var r := [fields[0]] + rest;
      assert r[1..] == rest;
      assert DistinctKeys(fields) ==> !HasKey(fields[1..], fields[0].0);
      assert Find(rest, fields[0].0) == Find(fields[1..], fields[0].0);
      r
  }

  /** `v.k` is truthy (a missing property is `undefined`, which is falsy). */
  predicate TruthyProp(v: Json, k: string) {
    var p := Get(v, k);
    p.Some? && Truthy(p.value)
  }

  /** Truthiness of a `string | null` state variable. */
  predicate TruthyText(t: Option<string>) {
    t.Some? && t.value != ""
  }

  /** Index 0 of an array is its first element. */
  lemma FirstIndex(v: Json)
    ensures v.JArr? && |v.items| > 0 ==> Get(v, "0") == Some(v.items[0])
  {
    if v.JArr? && |v.items| > 0 {
      assert IndexKey(0) == "0";
      assert OwnEntries(v)[0] == ("0", v.items[0]);
    }
  }
}
