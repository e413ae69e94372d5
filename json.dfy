/**
  The values that travel through the hub: what `json.loads` produces
  (None, bools, ints, floats, strings, lists, dicts), plus the leaves a
  document read back from MongoDB can carry (datetime, ObjectId, Timestamp
  and other BSON objects), and the few Python operations the hub applies
  to them: truthiness, `== 1`, `str()` of an int, and `serialize_datetime`.
 */
module Json {
  import opened Wrappers
  import opened Dicts

  datatype Value =
    | Null
    | Bool(b: bool)
    | Int(i: int)
    | Float(f: real)                 // floats are carried, never computed with
    | Str(s: string)
    | List(elems: seq<Value>)
    | Object(fields: Dict<string, Value>)
    | DateTime(iso: string)          // a datetime; `iso` is its isoformat()
    | ObjectId(hex: string)          // `hex` is its str()
    | Timestamp(text: string)        // a BSON Timestamp; `text` is its str()
    | Bson(text: string)             // another BSON object; `text` is its str()

  /** A JSON object, i.e. a Python dict with string keys. */
  type Fields = Dict<string, Value>

  /** A dict display `{"k0": v0, ...}` as a value. */
  function Message(pairs: seq<(string, Value)>): (v: Value)
    ensures v.Object? && v.fields.Valid()
  {
    Object(FromPairs(pairs))
  }

  /** `bool(v)` */
  predicate Truthy(v: Value) {
    match v
    case Null => false
    case Bool(b) => b
    case Int(i) => i != 0
    case Float(f) => f != 0.0
    case Str(s) => s != ""
    case List(elems) => elems != []
    case Object(fields) => fields.Len() != 0
    case _ => true
  }

  /** `v == 1`: Python compares True and 1.0 equal to 1. */
  predicate EqualsOne(v: Value) {
    v == Int(1) || v == Bool(true) || v == Float(1.0)
  }

  /** Every dict anywhere in `v` is a well-formed dict, as every Python dict is. */
  ghost predicate WellFormed(v: Value) {
    match v
    case List(elems) => forall i :: 0 <= i < |elems| ==> WellFormed(elems[i])
    case Object(fields) => fields.Valid() && forall k :: k in fields.items ==> WellFormed(fields.items[k])
    case _ => true
  }

  /** No datetime, ObjectId, Timestamp or BSON leaf anywhere in `v`. */
  ghost predicate Plain(v: Value) {
    match v
    case List(elems) => forall i :: 0 <= i < |elems| ==> Plain(elems[i])
    case Object(fields) => forall k :: k in fields.items ==> Plain(fields.items[k])
    case DateTime(_) => false
    case ObjectId(_) => false
    case Timestamp(_) => false
    case Bson(_) => false
    case _ => true
  }

  /**
    `serialize_datetime`: rebuild dicts and lists, replace every datetime by
    its isoformat() and every ObjectId, Timestamp and BSON object by its
    str(); everything else is returned as it is.
   */
  function SerializeDatetime(v: Value): (r: Value)
    ensures Plain(r)
    ensures v.Object? <==> r.Object?
    ensures v.Object? ==> r.fields.keys == v.fields.keys && r.fields.items.Keys == v.fields.items.Keys
    ensures v.List? <==> r.List?
    ensures v.List? ==> |r.elems| == |v.elems|
  {
    match v
    case Object(fields) =>
      Object(Dict(fields.keys, map k | k in fields.items :: SerializeDatetime(fields.items[k])))
    case List(elems) =>
      List(seq(|elems|, i requires 0 <= i < |elems| => SerializeDatetime(elems[i])))
    case DateTime(iso) => Str(iso)
    case ObjectId(hex) => Str(hex)
    case Timestamp(text) => Str(text)
    case Bson(text) => Str(text)
    case _ => v
  }

  /** A value without special leaves is left exactly as it is. */
  lemma {:induction false} SerializePlainUnchanged(v: Value)
    requires Plain(v)
    ensures SerializeDatetime(v) == v
  {
    match v
    case Object(fields) =>
      forall k | k in fields.items
        ensures SerializeDatetime(fields.items[k]) == fields.items[k]
      {
        SerializePlainUnchanged(fields.items[k]);
      }
      assert (map k | k in fields.items :: SerializeDatetime(fields.items[k])) == fields.items;
    case List(elems) =>
      forall i | 0 <= i < |elems|
        ensures SerializeDatetime(elems[i]) == elems[i]
      {
        SerializePlainUnchanged(elems[i]);
      }
      assert seq(|elems|, i requires 0 <= i < |elems| => SerializeDatetime(elems[i])) == elems;
    case _ =>
  }

  /** Serializing twice is serializing once. */
  lemma SerializeIdempotent(v: Value)
    ensures SerializeDatetime(SerializeDatetime(v)) == SerializeDatetime(v)
  {
    SerializePlainUnchanged(SerializeDatetime(v));
  }

  /** Serializing keeps every key of a dict and maps its value to the value's serialization. */
  lemma SerializeFieldwise(v: Value, k: string)
    requires v.Object? && k in v.fields.items
    ensures k in SerializeDatetime(v).fields.items
    ensures SerializeDatetime(v).fields.items[k] == SerializeDatetime(v.fields.items[k])
  {
  }

  /** `str(n)` for an int: its decimal digits, after a minus sign when negative. */
  function DecimalText(n: int): (s: string)
    ensures |s| >= 1
    ensures (s[0] == '-') <==> n < 0
    ensures forall i :: (if n < 0 then 1 else 0) <= i < |s| ==> '0' <= s[i] <= '9'
    decreases if n < 0 then 1 - n else n
  {
    if n < 0 then "-" + DecimalText(-n)
    else if n < 10 then [Digit(n)]
    else DecimalText(n / 10) + [Digit(n % 10)]
  }

  /** The decimal digit of `d`. */
  function Digit(d: int): (c: char)
    requires 0 <= d < 10
    ensures '0' <= c <= '9'
    ensures c as int - '0' as int == d
  {
    ('0' as int + d) as char
  }

  /** Different integers get different texts, so an id can be read back from its decimal text. */
  lemma {:induction false} DecimalTextInjective(a: int, b: int)
    requires DecimalText(a) == DecimalText(b)
    ensures a == b
    decreases (if a < 0 then 1 - a else a) + (if b < 0 then 1 - b else b)
  {
    var s := DecimalText(a);
    if a < 0 {
      assert s[1..] == DecimalText(-a);
      assert s[1..] == DecimalText(-b);
      DecimalTextInjective(-a, -b);
    } else if a >= 10 && b >= 10 {
      assert |DecimalText(a / 10)| == |DecimalText(b / 10)|;
      var n := |s| - 1;
      assert s[..n] == DecimalText(a / 10) && s[..n] == DecimalText(b / 10);
      DecimalTextInjective(a / 10, b / 10);
    }
  }
}
