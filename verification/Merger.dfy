/**
 JSON trees and their merge. A patch object is merged into an object member by member and into an
 array element by element; anything else replaces what it meets, except that an object gives way only
 to an object.
 */
module Merger {
  import opened Options
  import opened Decimal

  datatype Json =
    | Scalar(token: string)
    | Arr(items: seq<Json>)
    | Obj(fields: map<string, Json>)

  function Merge(data: Json, patch: Json): Option<Json>
    decreases data, 0
  {
    if !patch.Obj? then Some(data)
    else
      match data
      case Scalar(_) => Some(data)
      case Arr(items) =>
        if forall i | 0 <= i < |items| :: MergeValue(patch.fields, Itoa(i), items[i]).Some? then
          Some(Arr(seq(|items|, i requires 0 <= i < |items| && MergeValue(patch.fields, Itoa(i), items[i]).Some? =>
            MergeValue(patch.fields, Itoa(i), items[i]).value)))
        else None
      case Obj(fields) =>
        if forall k | k in fields :: MergeValue(patch.fields, k, fields[k]).Some? then
          Some(Obj(map k | k in fields.Keys + patch.fields.Keys ::
            if k in fields then MergeValue(patch.fields, k, fields[k]).value else patch.fields[k]))
        else None
  }

  function MergeValue(patch: map<string, Json>, key: string, value: Json): Option<Json>
    decreases value, 1
  {
    if key !in patch then Some(value)
    else if value.Obj? && !patch[key].Obj? then None
    else if !value.Scalar? && patch[key].Obj? then Merge(value, patch[key])
    else Some(patch[key])
  }

  /** A merge never turns a container into something else. */
  lemma KindKept(d: Json, p: Json)
    ensures Merge(d, p).Some? ==> Merge(d, p).value.Obj? == d.Obj? && Merge(d, p).value.Arr? == d.Arr?
  {
  }

  // The value of Merge on two containers, one key at a time.

  lemma ObjectMerges(fields: map<string, Json>, patch: map<string, Json>, merged: map<string, Json>)
    requires merged.Keys == fields.Keys + patch.Keys
    requires forall k | k in fields :: MergeValue(patch, k, fields[k]) == Some(merged[k])
    requires forall k | k in patch && k !in fields :: merged[k] == patch[k]
    ensures Merge(Obj(fields), Obj(patch)) == Some(Obj(merged))
  {
    assert Merge(Obj(fields), Obj(patch)).value.fields == merged;
  }

  lemma ArrayMerges(items: seq<Json>, patch: map<string, Json>, merged: seq<Json>)
    requires |merged| == |items|
    requires forall i | 0 <= i < |items| :: MergeValue(patch, Itoa(i), items[i]) == Some(merged[i])
    ensures Merge(Arr(items), Obj(patch)) == Some(Arr(merged))
  {
    assert Merge(Arr(items), Obj(patch)).value.items == merged;
  }

  lemma {:induction false} MergeSelf(x: Json)
    ensures Merge(x, x) == Some(x)
  {
    if x.Obj? {
      forall k | k in x.fields
        ensures MergeValue(x.fields, k, x.fields[k]) == Some(x.fields[k])
      {
        MergeSelf(x.fields[k]);
      }
      assert Merge(x, x).value.fields == x.fields;
    }
  }
}
