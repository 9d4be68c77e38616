/**
 * The shallow BigNumber decoder: every top-level entry of an object whose value has the
 * serialised form `{"type": "BigNumber", "hex": "0x…"}` gets the integer that hex string
 * denotes; every other entry keeps its value.
 */
module BigNumberEntries {
  import opened Wrappers
  import opened Numerals
  import opened Json

  /** A decoded entry value: an ethers BigNumber (an unbounded integer) or the JSON as received. */
  datatype Field = BigNumber(value: int) | Raw(json: JVal)

  /** `BigNumber.from` threw on the `hex` value it was given. */
  datatype DecodeError = InvalidBigNumber(hex: JVal)

  /** The form a BigNumber takes when serialised to JSON. */
  function Wire(hex: string): JVal {
    JObj([("type", JStr("BigNumber")), ("hex", JStr(hex))])
  }

  /** `value?.hex && value?.type === 'BigNumber'`: only an object has either property. */
  predicate IsBigNumberWire(v: JVal) {
    v.JObj?
    && Get(v.entries, "hex").Some? && Truthy(Get(v.entries, "hex").value)
    && Get(v.entries, "type") == Some(JStr("BigNumber"))
  }

  /** `BigNumber.from(hex)` on the forms this model admits: `0x` strings. */
  function BigNumberFrom(hex: JVal): Result<int, DecodeError> {
    if hex.JStr? && HexDecode(hex.s).Some? then Ok(HexDecode(hex.s).value)
    else Err(InvalidBigNumber(hex))
  }

  /** The mapping applied to one entry's value. */
  function ConvertValue(v: JVal): (r: Result<Field, DecodeError>)
    ensures !IsBigNumberWire(v) ==> r == Ok(Raw(v))
    ensures IsBigNumberWire(v) ==> match Get(v.entries, "hex").value
      case JStr(h) =>
        (r.Ok? <==> IsHexString(h)) && (r.Ok? ==> r == Ok(BigNumber(HexDecode(h).value)))
      case _ => r.Err?
  {
    if IsBigNumberWire(v) then
      match BigNumberFrom(Get(v.entries, "hex").value)
      case Ok(n) => Ok(BigNumber(n))
      case Err(e) => Err(e)
    else Ok(Raw(v))
  }

  function Keys<V>(entries: seq<(string, V)>): (ks: seq<string>)
    ensures |ks| == |entries| && forall i :: 0 <= i < |entries| ==> ks[i] == entries[i].0
  {
    seq(|entries|, i requires 0 <= i < |entries| => entries[i].0)
  }

  /**
   * `convertBigNumberEntries(obj)`: the entries mapped one by one, in order. The first entry
   * whose BigNumber string is rejected makes the whole call throw.
   */
  function ConvertBigNumberEntries(obj: seq<(string, JVal)>): (r: Result<seq<(string, Field)>, DecodeError>)
    ensures r.Ok? <==> forall i :: 0 <= i < |obj| ==> ConvertValue(obj[i].1).Ok?
    ensures r.Ok? ==> |r.value| == |obj|
    ensures r.Ok? ==> forall i :: 0 <= i < |obj| ==>
      r.value[i].0 == obj[i].0 && ConvertValue(obj[i].1) == Ok(r.value[i].1)
    ensures r.Err? ==> exists i :: 0 <= i < |obj| && ConvertValue(obj[i].1) == Err(r.error) &&
                                  forall j :: 0 <= j < i ==> ConvertValue(obj[j].1).Ok?
  {
    if obj == [] then Ok([])
    else
      match ConvertValue(obj[0].1)
      case Err(e) => Err(e)
      case Ok(f) =>
        match ConvertBigNumberEntries(obj[1..])
        case Err(e) =>
          assert forall i :: 1 <= i < |obj| ==> obj[i] == obj[1..][i - 1];
          Err(e)
        case Ok(rest) =>
          assert forall i :: 1 <= i < |obj| ==> obj[i] == obj[1..][i - 1];
          Ok([(obj[0].0, f)] + rest)
  }

  /** The output object has exactly the input's keys, in the input's order. */
  lemma ConvertKeepsKeys(obj: seq<(string, JVal)>)
    requires ConvertBigNumberEntries(obj).Ok?
    ensures Keys(ConvertBigNumberEntries(obj).value) == Keys(obj)
  {
  }

  /** Decoding inverts serialisation: the wire form of `n` decodes to `n`. */
  lemma WireRoundTrip(n: nat)
    ensures ConvertValue(Wire(ToHexString(n))) == Ok(BigNumber(n))
  {
    var h := ToHexString(n);
    HexRoundTrip(n);
    assert Wire(h).entries[1..] == [("hex", JStr(h))];
    assert Get(Wire(h).entries, "hex") == Some(JStr(h));
    assert IsBigNumberWire(Wire(h));
  }

  /** `{"type": "BigNumber", "hex": "0x64"}` decodes to 100. */
  lemma WireExample()
    ensures ConvertValue(Wire("0x64")) == Ok(BigNumber(100))
  {
    var h := "0x64";
    assert h[2..] == "64";
    assert "64"[..1] == "6";
    assert HexDigitsValue("6") == 6;
    assert HexDigitsValue("64") == 100;
  }

  /** A `type: 'BigNumber'` object whose `hex` is missing or empty fails the truthiness test. */
  lemma HexMissingOrEmptyPassesThrough(entries: seq<(string, JVal)>)
    requires Get(entries, "type") == Some(JStr("BigNumber"))
    requires Get(entries, "hex").None? || Get(entries, "hex") == Some(JStr(""))
    ensures ConvertValue(JObj(entries)) == Ok(Raw(JObj(entries)))
  {
  }

  /**
   * Decoding is shallow: an entry whose value is not itself of the BigNumber shape comes out
   * as that exact JSON value, BigNumbers nested anywhere inside it included.
   */
  lemma ConvertIsShallow(obj: seq<(string, JVal)>, i: int)
    requires 0 <= i < |obj| && !IsBigNumberWire(obj[i].1)
    requires ConvertBigNumberEntries(obj).Ok?
    ensures ConvertBigNumberEntries(obj).value[i] == (obj[i].0, Raw(obj[i].1))
  {
  }

  /**
   * An entry whose value is an object with no `type` key keeps the BigNumber wire form
   * stored at any position of that object undecoded.
   */
  lemma NestedBigNumberStaysEncoded(obj: seq<(string, JVal)>, i: int, k: int, hex: string)
    requires 0 <= i < |obj| && obj[i].1.JObj?
    requires Get(obj[i].1.entries, "type").None?
    requires 0 <= k < |obj[i].1.entries| && obj[i].1.entries[k].1 == Wire(hex)
    requires ConvertBigNumberEntries(obj).Ok?
    ensures ConvertBigNumberEntries(obj).value[i].1 == Raw(obj[i].1)
    ensures ConvertBigNumberEntries(obj).value[i].1.json.entries[k].1 == Wire(hex)
  {
    assert !IsBigNumberWire(obj[i].1);
    ConvertIsShallow(obj, i);
  }
}
