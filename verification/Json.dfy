/** JSON values as the program holds them: an object keeps its fields in insertion order. */
module JsonValues {
  datatype Json =
    | Null
    | Bool(flag: bool)
    | Num(number: real)
    | Str(text: string)
    | Arr(items: seq<Json>)
    | Obj(fields: seq<(string, Json)>)

  predicate IsScalar(j: Json) {
    !j.Arr? && !j.Obj?
  }

  /** The place of a key among an object's own fields, or their number when it has none. */
  function IndexOf(fields: seq<(string, Json)>, key: string): (i: nat)
    ensures i <= |fields|
    ensures i < |fields| ==> fields[i].0 == key
    ensures forall k :: 0 <= k < i ==> fields[k].0 != key
  {
    if fields == [] then 0
    else if fields[0].0 == key then 0
    else 1 + IndexOf(fields[1..], key)
  }

  predicate HasKey(fields: seq<(string, Json)>, key: string) {
    exists i :: 0 <= i < |fields| && fields[i].0 == key
  }

  predicate DistinctKeys(fields: seq<(string, Json)>) {
    forall i, j :: 0 <= i < j < |fields| ==> fields[i].0 != fields[j].0
  }
}
