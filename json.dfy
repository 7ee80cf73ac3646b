/** The tree of values a JSON parser hands to the decoders. Numbers are
    integers: the model has no floating point. An object keeps its members in
    document order; looking a key up finds its first occurrence. */
module Json {
  import opened Wrappers

  datatype Json =
    | Null
    | Bool(b: bool)
    | Num(n: int)
    | Str(s: string)
    | Arr(elems: seq<Json>)
    | Obj(fields: seq<(string, Json)>)

  /** The value stored under `key`, if any. */
  function Lookup(fields: seq<(string, Json)>, key: string): Option<Json> {
    if |fields| == 0 then None
    else if fields[0].0 == key then Some(fields[0].1)
    else Lookup(fields[1..], key)
  }

  /** A key is found exactly when some member has it, and what is found is
      that member's value. */
  lemma {:induction false} LookupFindsMember(fields: seq<(string, Json)>, key: string)
    ensures Lookup(fields, key).Some? <==> exists i :: 0 <= i < |fields| && fields[i].0 == key
    ensures Lookup(fields, key).Some? ==> exists i :: 0 <= i < |fields| && fields[i] == (key, Lookup(fields, key).value)
  {
    if |fields| > 0 && fields[0].0 != key {
      LookupFindsMember(fields[1..], key);
      assert forall i :: 1 <= i < |fields| ==> fields[i] == fields[1..][i - 1];
    }
  }

  /** The first member with a given key is the one found. */
  lemma {:induction false} LookupFirst(fields: seq<(string, Json)>, i: nat)
    requires i < |fields|
    requires forall i' :: 0 <= i' < i ==> fields[i'].0 != fields[i].0
    ensures Lookup(fields, fields[i].0) == Some(fields[i].1)
  {
    if i > 0 {
      assert fields[0].0 != fields[i].0;
      assert fields[1..][i - 1] == fields[i];
      LookupFirst(fields[1..], i - 1);
    }
  }
}
