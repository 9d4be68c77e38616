/**
 * JSON values as the HTTP client hands them over, with the three JavaScript operations the
 * decoder applies to them: reading a property, testing truthiness and `Object.entries`.
 */
module Json {
  import opened Wrappers
  import opened Numerals

  /**
   * A parsed JSON value. Numbers are integral; an object is its entries in the order
   * `Object.entries` enumerates them.
   */
  datatype JVal =
    | JNull
    | JBool(b: bool)
    | JNum(n: int)
    | JStr(s: string)
    | JArr(items: seq<JVal>)
    | JObj(entries: seq<(string, JVal)>)

  /** The value stored under `key`, or None (`undefined`) when no entry has that key. */
  function Get<V>(entries: seq<(string, V)>, key: string): (r: Option<V>)
    ensures r.None? <==> forall i :: 0 <= i < |entries| ==> entries[i].0 != key
    ensures r.Some? ==> exists i :: 0 <= i < |entries| && entries[i] == (key, r.value)
  {
    if entries == [] then None
    else if entries[0].0 == key then Some(entries[0].1)
    else
      var r := Get(entries[1..], key);
      assert forall i :: 1 <= i < |entries| ==> entries[i] == entries[1..][i - 1];
      r
  }

  /** JavaScript truthiness: `null`, `false`, `0` and `""` are falsy, everything else truthy. */
  predicate Truthy(v: JVal) {
    match v
    case JNull => false
    case JBool(b) => b
    case JNum(n) => n != 0
    case JStr(s) => s != ""
    case JArr(_) => true
    case JObj(_) => true
  }

  /**
   * `Object.entries(v)`: None where it throws (on `null`); an array or a string yields its
   * elements under their indices, a number or a boolean no entries.
   */
  function ObjectEntries(v: JVal): (r: Option<seq<(string, JVal)>>)
    ensures r.None? <==> v.JNull?
    ensures v.JObj? ==> r == Some(v.entries)
    ensures v.JBool? || v.JNum? ==> r == Some([])
    ensures v.JStr? ==> r.Some? && |r.value| == |v.s| &&
                        forall i :: 0 <= i < |v.s| ==> r.value[i] == (Decimal(i), JStr([v.s[i]]))
    ensures v.JArr? ==> r.Some? && |r.value| == |v.items| &&
                        forall i :: 0 <= i < |v.items| ==> r.value[i] == (Decimal(i), v.items[i])
  {
    match v
    case JNull => None
    case JBool(_) => Some([])
    case JNum(_) => Some([])
    case JStr(s) => Some(seq(|s|, i requires 0 <= i < |s| => (Decimal(i), JStr([s[i]]))))
    case JArr(items) => Some(seq(|items|, i requires 0 <= i < |items| => (Decimal(i), items[i])))
    case JObj(entries) => Some(entries)
  }

  /** The index keys `Object.entries` gives a string or an array are pairwise distinct. */
  lemma ObjectEntriesIndexKeysDistinct(v: JVal, i: int, j: int)
    requires v.JStr? || v.JArr?
    requires 0 <= i < j < |ObjectEntries(v).value|
    ensures ObjectEntries(v).value[i].0 != ObjectEntries(v).value[j].0
  {
    DecimalDigitsInjective(i, j);
  }
}
