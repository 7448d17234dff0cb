/** JSON values as they reach the engine, and the strict comparison used for joint-action payloads. */
module Json {
  datatype Json =
    | JNull
    | JBool(b: bool)
    | JInt(i: int)
    | JFloat(r: real)
    | JString(s: string)
    | JList(items: seq<Json>)
    | JObject(fields: map<string, Json>)

  /** `True == 1 == 1.0` in Python: the plain comparison the strict one refines. */
  predicate LooselyEqual(a: Json, b: Json)
    decreases a
  {
    match (a, b)
    case (JNull, JNull) => true
    case (JString(s), JString(t)) => s == t
    case (JList(s), JList(t)) => |s| == |t| && forall i | 0 <= i < |s| :: LooselyEqual(s[i], t[i])
    case (JObject(m), JObject(n)) => m.Keys == n.Keys && forall k | k in m :: LooselyEqual(m[k], n[k])
    case _ => IsNumeric(a) && IsNumeric(b) && NumericValue(a) == NumericValue(b)
  }

  predicate IsNumeric(j: Json) { j.JBool? || j.JInt? || j.JFloat? }

  function NumericValue(j: Json): real
    requires IsNumeric(j)
  {
    match j
    case JBool(b) => if b then 1.0 else 0.0
    case JInt(i) => i as real
    case JFloat(r) => r
  }

  predicate SameType(a: Json, b: Json) {
    match a
    case JNull => b.JNull?
    case JBool(_) => b.JBool?
    case JInt(_) => b.JInt?
    case JFloat(_) => b.JFloat?
    case JString(_) => b.JString?
    case JList(_) => b.JList?
    case JObject(_) => b.JObject?
  }

  /** `_same_json_value`: type first, then structure, falling back on Python's `==` for scalars. */
  predicate SameJson(a: Json, b: Json)
    decreases a
  {
    if !SameType(a, b) then false
    else if a.JObject? then a.fields.Keys == b.fields.Keys && forall k | k in a.fields ::
      SameJson(a.fields[k], b.fields[k])
    else if a.JList? then |a.items| == |b.items| && forall i | 0 <= i < |a.items| :: SameJson(a.items[i], b.items[i])
    else LooselyEqual(a, b)
  }

  /** The strict comparison never coerces: it accepts a payload iff it is the expected one, to the type. */
  lemma {:induction false} SameJsonIsEquality(a: Json, b: Json)
    ensures SameJson(a, b) <==> a == b
    decreases a
  {
    match a
    case JList(s) =>
      if b.JList? && |s| == |b.items| {
        forall i | 0 <= i < |s| ensures SameJson(s[i], b.items[i]) <==> s[i] == b.items[i] {
          SameJsonIsEquality(s[i], b.items[i]);
        }
        if SameJson(a, b) {
          assert s == b.items;
        }
      }
    case JObject(m) =>
      if b.JObject? && m.Keys == b.fields.Keys {
        forall k | k in m ensures SameJson(m[k], b.fields[k]) <==> m[k] == b.fields[k] {
          SameJsonIsEquality(m[k], b.fields[k]);
        }
        if SameJson(a, b) {
          assert m == b.fields;
        }
      }
    case JNull =>
    case JBool(_) =>
    case JInt(_) =>
    case JFloat(_) =>
    case JString(_) =>
  }
}
