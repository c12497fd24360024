/** A JSON value as Jackson's JsonNode presents it to the configuration code. */
module Json {

  datatype Json =
    | JString(s: string)
    | JNumber(n: int)
    | JBool(b: bool)
    | JNull
    | JObject(fields: map<string, Json>)
    | JArray(elements: seq<Json>)

  /** JsonNodeType, as printed in error messages. */
  datatype NodeType = ARRAY | BOOLEAN | NULL | NUMBER | OBJECT | STRING

  function TypeOf(j: Json): (t: NodeType)
    ensures t == OBJECT <==> j.JObject?
    ensures t == ARRAY <==> j.JArray?
  {
    match j
    case JString(_) => STRING
    case JNumber(_) => NUMBER
    case JBool(_) => BOOLEAN
    case JNull => NULL
    case JObject(_) => OBJECT
    case JArray(_) => ARRAY
  }

  function TypeName(t: NodeType): string {
    match t
    case ARRAY => "ARRAY"
    case BOOLEAN => "BOOLEAN"
    case NULL => "NULL"
    case NUMBER => "NUMBER"
    case OBJECT => "OBJECT"
    case STRING => "STRING"
  }

  /** The fields of an object node; every other node has none (JsonNode.fields() is empty for them). */
  function Fields(j: Json): map<string, Json> {
    if j.JObject? then j.fields else map[]
  }

  const EmptyObject: Json := JObject(map[])

  function DigitChar(d: nat): (c: char)
    requires d < 10
    ensures '0' <= c <= '9'
  {
    (('0' as int) + d) as char
  }

  /** Decimal text of a natural number, most significant digit first. */
  function NatText(n: nat): (r: string)
    ensures |r| >= 1
    ensures forall i :: 0 <= i < |r| ==> '0' <= r[i] <= '9'
    decreases n
  {
    if n < 10 then [DigitChar(n)] else NatText(n / 10) + [DigitChar(n % 10)]
  }

  /** The digit value of a decimal digit. */
  function DigitValue(c: char): nat
    requires '0' <= c <= '9'
  {
    (c as int) - ('0' as int)
  }

  /** The number a decimal text stands for. */
  function TextValue(s: string): nat
    requires forall i :: 0 <= i < |s| ==> '0' <= s[i] <= '9'
  {
    if s == [] then 0 else TextValue(s[..|s| - 1]) * 10 + DigitValue(s[|s| - 1])
  }

  /** Integer.toString: the decimal text reads back as the number it was made from. */
  lemma {:induction false} NatTextRoundTrip(n: nat)
    ensures TextValue(NatText(n)) == n
  {
    if n >= 10 {
      NatTextRoundTrip(n / 10);
      var s := NatText(n);
      assert s == NatText(n / 10) + [DigitChar(n % 10)];
      assert s[..|s| - 1] == NatText(n / 10);
      assert DigitValue(s[|s| - 1]) == n % 10;
    }
  }

  function IntText(n: int): string {
    if n < 0 then "-" + NatText(-n) else NatText(n)
  }

  /** JsonNode.asText(): value nodes give their text, container nodes give the empty text. */
  function AsText(j: Json): (r: string)
    ensures j.JString? ==> r == j.s
    ensures j.JObject? || j.JArray? ==> r == ""
    ensures j.JBool? ==> r == (if j.b then "true" else "false")
    ensures j.JNull? ==> r == "null"
  {
    match j
    case JString(s) => s
    case JNumber(n) => IntText(n)
    case JBool(b) => if b then "true" else "false"
    case JNull => "null"
    case JObject(_) => ""
    case JArray(_) => ""
  }
}
