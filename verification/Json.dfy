/**
 * JSON values as the gateway sees them after parsing, and fingerprints over them.
 *
 * `Digest(v)` stands for the string "sha256:..." computed over the canonical JSON of `v`.
 * Being a constructor it is injective and never equal to an ordinary string.
 */
module Json {
  datatype Json =
    | Null
    | Bool(b: bool)
    | Int(n: int)
    | Real(r: real)
    | Str(s: string)
    | Arr(items: seq<Json>)
    | Obj(fields: map<string, Json>)
    | Digest(of: Json)

  type Object = map<string, Json>

  /** dict.get: a missing key reads as None. */
  function Get(o: Object, key: string): Json {
    if key in o then o[key] else Null
  }

  /** A fingerprint separated by a contract label. */
  function Fingerprint(contract: string, value: Json): Json {
    Digest(Obj(map["contract" := Str(contract), "value" := value]))
  }

  /** The one-field form used by the result scanner. */
  function FieldFingerprint(field: string, value: Json): Json {
    Digest(Obj(map[field := value]))
  }

  /** The numeric reading Python uses when it compares booleans, integers and floats. */
  function Number(j: Json): real
    requires j.Bool? || j.Int? || j.Real?
  {
    match j
    case Bool(b) => if b then 1.0 else 0.0
    case Int(n) => n as real
    case Real(r) => r
  }

  predicate Numeric(j: Json) {
    j.Bool? || j.Int? || j.Real?
  }

  /** Python's `==` on the scalar values a request id is compared with. */
  predicate PyEqual(a: Json, b: Json) {
    if Numeric(a) && Numeric(b) then Number(a) == Number(b) else a == b
  }

  /** Lists and objects cannot be set members or dict keys in Python. */
  predicate Hashable(j: Json) {
    !j.Arr? && !j.Obj?
  }

  lemma {:induction false} FingerprintInjective(c1: string, v1: Json, c2: string, v2: Json)
    requires Fingerprint(c1, v1) == Fingerprint(c2, v2)
    ensures c1 == c2 && v1 == v2
  {
    var m1: Object := map["contract" := Str(c1), "value" := v1];
    var m2: Object := map["contract" := Str(c2), "value" := v2];
    assert m1 == m2;
    assert m1["contract"] == m2["contract"] && m1["value"] == m2["value"];
  }
}
