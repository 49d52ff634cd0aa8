/** JSON values as `serde_json::Value` holds them. */
module Json {
  import opened Wrappers
  import opened Bytes

  /** The negative half of a signed 64-bit integer. */
  type NegI64 = x: int | -0x8000_0000_0000_0000 <= x < 0 witness -1

  /** The bit pattern of a finite double: its exponent is not all ones. */
  type FiniteBits = x: u64 | x / 0x10_0000_0000_0000 % 0x800 != 0x7FF

  /** Non-negative integers, negative integers, and finite doubles by their bit pattern. */
  datatype Number = PosInt(n: u64) | NegInt(i: NegI64) | Float(bits: FiniteBits)

  datatype Json =
    | Null
    | Bool(b: bool)
    | Num(num: Number)
    | Str(s: string)
    | Arr(items: seq<Json>)
    | Obj(fields: Object)

  type Object = map<string, Json>

  /** One `serialize_entry` call. */
  type Entry = (string, Json)

  function AsU64(j: Json): Option<u64> {
    if j.Num? && j.num.PosInt? then Some(j.num.n) else None
  }

  function AsBool(j: Json): Option<bool> {
    if j.Bool? then Some(j.b) else None
  }

  function Get(m: Object, key: string): Option<Json> {
    if key in m then Some(m[key]) else None
  }

  function Uint(n: u64): Json {
    Num(PosInt(n))
  }

  /** The object that a parser rebuilds from entries written in order; a later key wins. */
  function Fields(entries: seq<Entry>): Object {
    if entries == [] then map[]
    else Fields(entries[..|entries| - 1])[entries[|entries| - 1].0 := entries[|entries| - 1].1]
  }

  predicate DistinctKeys(entries: seq<Entry>) {
    forall i, j :: 0 <= i < j < |entries| ==> entries[i].0 != entries[j].0
  }

  /** The field of a distinct key is the value written under it. */
  lemma {:induction false} FieldsLookup(entries: seq<Entry>, key: string)
    ensures key in Fields(entries) <==> exists i :: 0 <= i < |entries| && entries[i].0 == key
    ensures DistinctKeys(entries) ==>
              forall i :: 0 <= i < |entries| && entries[i].0 == key ==>
                key in Fields(entries) && Fields(entries)[key] == entries[i].1
  {
    if entries == [] {
    } else {
      var front := entries[..|entries| - 1];
      FieldsLookup(front, key);
      assert forall i :: 0 <= i < |front| ==> front[i] == entries[i];
      if key in Fields(front) {
        var i :| 0 <= i < |front| && front[i].0 == key;
        assert entries[i].0 == key;
      }
    }
  }
}
