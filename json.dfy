/**
 * An abstract JSON value and the parts of serde's derived deserialisation
 * the client's record types use. Parsing JSON text is not modelled: callers
 * receive an already parsed value, or `None` when the text is not JSON.
 * Numbers are integers (serde_json reads a number without fraction or
 * exponent as an integer when it fits 64 bits).
 */
module Json {
  import opened Wrappers

  datatype Json =
    | JNull
    | JBool(b: bool)
    | JNumber(n: int)
    | JString(s: string)
    | JArray(items: seq<Json>)
    | JObject(members: seq<(string, Json)>)

  /** How often a key occurs among an object's members. */
  datatype Member = Absent | Unique(value: Json) | Repeated

  function Lookup(members: seq<(string, Json)>, key: string): Member
  {
    if members == [] then Absent
    else
      var rest := Lookup(members[1..], key);
      if members[0].0 != key then rest
      else if rest.Absent? then Unique(members[0].1)
      else Repeated
  }

  /**
   * A key is `Unique` exactly when one member carries it, with that member's
   * value; `Absent` when none does; `Repeated` when two or more do.
   */
  lemma {:induction false} LookupMeaning(members: seq<(string, Json)>, key: string)
    ensures Lookup(members, key).Absent? <==> forall i :: 0 <= i < |members| ==> members[i].0 != key
    ensures Lookup(members, key).Unique? ==>
              exists i :: 0 <= i < |members| && members[i] == (key, Lookup(members, key).value)
    ensures Lookup(members, key).Unique? ==>
              forall i, k :: 0 <= i < k < |members| && members[i].0 == key ==> members[k].0 != key
    ensures Lookup(members, key).Repeated? ==>
              exists i, k :: 0 <= i < k < |members| && members[i].0 == key && members[k].0 == key
  {
    if members != [] {
      LookupMeaning(members[1..], key);
      assert forall i :: 1 <= i < |members| ==> members[i] == members[1..][i - 1];
      if Lookup(members[1..], key).Unique? {
        var i :| 0 <= i < |members[1..]| && members[1..][i] == (key, Lookup(members[1..], key).value);
        assert members[i + 1] == members[1..][i];
      }
      if Lookup(members[1..], key).Repeated? {
        var i, k :| 0 <= i < k < |members[1..]| && members[1..][i].0 == key && members[1..][k].0 == key;
        assert members[i + 1] == members[1..][i] && members[k + 1] == members[1..][k];
      }
    }
  }

  function ObjectFields(members: seq<(string, Json)>, names: seq<string>): (r: Option<seq<Json>>)
    ensures r.Some? <==> forall i :: 0 <= i < |names| ==> Lookup(members, names[i]).Unique?
    ensures r.Some? ==> |r.value| == |names| &&
                        forall i :: 0 <= i < |names| ==> Lookup(members, names[i]) == Unique(r.value[i])
  {
    if names == [] then Some([])
    else
      match Lookup(members, names[0])
      case Unique(v) =>
        (match ObjectFields(members, names[1..])
         case Some(rest) =>
           assert forall i :: 1 <= i < |names| ==> names[i] == names[1..][i - 1];
           Some([v] + rest)
         case None => None)
      case _ => None
  }

  /** A key held by exactly one member is found, with that member's value. */
  lemma LookupUnique(members: seq<(string, Json)>, key: string, i: nat)
    requires i < |members| && members[i].0 == key
    requires forall k :: 0 <= k < |members| && k != i ==> members[k].0 != key
    ensures Lookup(members, key) == Unique(members[i].1)
  {
    LookupMeaning(members, key);
    if Lookup(members, key).Unique? {
      var a :| 0 <= a < |members| && members[a] == (key, Lookup(members, key).value);
      assert a == i;
    }
  }

  /** When every field is found exactly once, the object's field values are those found. */
  lemma ObjectFieldsFound(members: seq<(string, Json)>, names: seq<string>, values: seq<Json>)
    requires |values| == |names|
    requires forall i :: 0 <= i < |names| ==> Lookup(members, names[i]) == Unique(values[i])
    ensures ObjectFields(members, names) == Some(values)
  {
    var r := ObjectFields(members, names);
    assert r.Some?;
    assert forall i :: 0 <= i < |names| ==> r.value[i] == values[i] by {
      forall i | 0 <= i < |names| ensures r.value[i] == values[i] {
        assert Lookup(members, names[i]) == Unique(r.value[i]);
      }
    }
    assert r.value == values;
  }

  /** When some field is absent or repeated, the object does not decode. */
  lemma ObjectFieldsMissing(members: seq<(string, Json)>, names: seq<string>, i: nat)
    requires i < |names| && !Lookup(members, names[i]).Unique?
    ensures ObjectFields(members, names) == None
  {
  }

  /**
   * The field values, in declaration order, of a derived `Deserialize`
   * struct with fields `names`. From an object: every field present exactly
   * once (a repeated field is an error), other keys ignored. From an array:
   * exactly one element per field, in order.
   */
  function StructFields(j: Json, names: seq<string>): (r: Option<seq<Json>>)
    ensures r.Some? ==> |r.value| == |names| && (j.JObject? || j.JArray?)
    ensures j.JObject? ==> r == ObjectFields(j.members, names)
    ensures j.JArray? ==> r == (if |j.items| == |names| then Some(j.items) else None)
    ensures !j.JObject? && !j.JArray? ==> r.None?
  {
    match j
    case JObject(ms) => ObjectFields(ms, names)
    case JArray(items) => if |items| == |names| then Some(items) else None
    case _ => None
  }

  function AsString(j: Json): Option<string>
  {
    if j.JString? then Some(j.s) else None
  }

  function AsBool(j: Json): Option<bool>
  {
    if j.JBool? then Some(j.b) else None
  }

  const U64_LIMIT: int := 0x1_0000_0000_0000_0000
  const I64_MIN: int := -0x8000_0000_0000_0000
  const I64_LIMIT: int := 0x8000_0000_0000_0000
  const I16_MIN: int := -0x8000
  const I16_LIMIT: int := 0x8000

  /** A `u64`: an integer in [0, 2^64). */
  function AsU64(j: Json): (r: Option<nat>)
    ensures r.Some? <==> j.JNumber? && 0 <= j.n < U64_LIMIT
    ensures r.Some? ==> r.value == j.n
  {
    if j.JNumber? && 0 <= j.n < U64_LIMIT then Some(j.n as nat) else None
  }

  /** An `i64`: an integer in [-2^63, 2^63). */
  function AsI64(j: Json): (r: Option<int>)
    ensures r.Some? <==> j.JNumber? && I64_MIN <= j.n < I64_LIMIT
    ensures r.Some? ==> r.value == j.n
  {
    if j.JNumber? && I64_MIN <= j.n < I64_LIMIT then Some(j.n) else None
  }

  /** An `i16`: an integer in [-2^15, 2^15). */
  function AsI16(j: Json): (r: Option<int>)
    ensures r.Some? <==> j.JNumber? && I16_MIN <= j.n < I16_LIMIT
    ensures r.Some? ==> r.value == j.n
  {
    if j.JNumber? && I16_MIN <= j.n < I16_LIMIT then Some(j.n) else None
  }

  /** Decodes every item, failing as soon as one item fails. */
  function DecodeAll<T>(items: seq<Json>, elem: Json -> Option<T>): (r: Option<seq<T>>)
    ensures r.Some? <==> forall i :: 0 <= i < |items| ==> elem(items[i]).Some?
    ensures r.Some? ==> |r.value| == |items| &&
                        forall i :: 0 <= i < |items| ==> elem(items[i]) == Some(r.value[i])
  {
    if items == [] then Some([])
    else
      match elem(items[0])
      case None => None
      case Some(x) =>
        match DecodeAll(items[1..], elem)
        case None =>
          assert forall i :: 1 <= i < |items| ==> items[i] == items[1..][i - 1];
          None
        case Some(rest) =>
          assert forall i :: 1 <= i < |items| ==> items[i] == items[1..][i - 1];
          Some([x] + rest)
  }

  /** A `Vec<T>`: an array whose every item decodes as `T`. */
  function AsVec<T>(j: Json, elem: Json -> Option<T>): (r: Option<seq<T>>)
    ensures r.Some? ==> j.JArray? && r == DecodeAll(j.items, elem)
  {
    if j.JArray? then DecodeAll(j.items, elem) else None
  }

  /** The keys of an object's members, in order. */
  function Keys(members: seq<(string, Json)>): seq<string>
  {
    seq(|members|, i requires 0 <= i < |members| => members[i].0)
  }
}
