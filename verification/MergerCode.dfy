/** The looping code of the merger, proved against the function Merge for every order of visiting keys. */
module MergerCode {
  import opened Options
  import opened Decimal
  import opened Merger
  import opened MergePaths

  /** A merged tree, or the path named in the error. */
  datatype Outcome = Merged(tree: Json) | Rejected(at: Path)

  method MergeObjects(data: Json, patch: Json, path: Path) returns (r: Outcome)
    ensures r.Merged? ==> Merge(data, patch) == Some(r.tree)
    ensures r.Rejected? ==> Merge(data, patch).None? && path <= r.at && Conflict(data, patch, r.at[|path|..])
    decreases data, 1
  {
    if patch.Obj? {
      if data.Arr? {
        r := MergeElements(data, patch, path);
        return;
      } else if data.Obj? {
        r := MergeMembers(data, patch, path);
        return;
      }
    }
    return Merged(data);
  }

  /** The loop of MergeObjects over an array. */
  method MergeElements(data: Json, patch: Json, path: Path) returns (r: Outcome)
    requires data.Arr? && patch.Obj?
    ensures r.Merged? ==> Merge(data, patch) == Some(r.tree)
    ensures r.Rejected? ==> Merge(data, patch).None? && path <= r.at && Conflict(data, patch, r.at[|path|..])
    decreases data, 0
  {
    var ret := new Json[|data.items|](_ => Scalar("null"));
    for i := 0 to |data.items|
      invariant forall j | 0 <= j < i :: MergeValue(patch.fields, Itoa(j), data.items[j]) == Some(ret[j])
    {
      ChildOfArray(data.items, i);
      var v := MergeValueAt(path, patch.fields, Itoa(i), data.items[i]);
      if v.Rejected? {
        RejectedBelow(data, patch, path, Itoa(i), v.at);
        return v;
      }
      ret[i] := v.tree;
    }
    ArrayMerges(data.items, patch.fields, ret[..]);
    return Merged(Arr(ret[..]));
  }

  /** The loops of MergeObjects over an object. */
  method MergeMembers(data: Json, patch: Json, path: Path) returns (r: Outcome)
    requires data.Obj? && patch.Obj?
    ensures r.Merged? ==> Merge(data, patch) == Some(r.tree)
    ensures r.Rejected? ==> Merge(data, patch).None? && path <= r.at && Conflict(data, patch, r.at[|path|..])
    decreases data, 0
  {
    var ret: map<string, Json> := map[];
    var visited: seq<string> := [];
    var keys := data.fields.Keys;
    while keys != {}
      invariant keys <= data.fields.Keys && ret.Keys == data.fields.Keys - keys
      invariant forall k | k in ret :: MergeValue(patch.fields, k, data.fields[k]) == Some(ret[k])
      invariant forall k :: k in visited <==> k in ret
      decreases keys
    {
      var k :| k in keys;
      keys := keys - {k};
      var v := MergeValueAt(path, patch.fields, k, data.fields[k]);
      if v.Rejected? {
        RejectedBelow(data, patch, path, k, v.at);
        return v;
      }
      ret := ret[k := v.tree];
      visited := visited + [k];
    }
    ghost var kept := ret;
    keys := patch.fields.Keys;
    while keys != {}
      invariant keys <= patch.fields.Keys
      invariant ret.Keys == data.fields.Keys + (patch.fields.Keys - keys)
      invariant forall k | k in ret :: ret[k] == if k in data.fields then kept[k] else patch.fields[k]
      decreases keys
    {
      var k :| k in keys;
      keys := keys - {k};
      if k !in visited {
        ret := ret[k := patch.fields[k]];
      }
    }
    ObjectMerges(data.fields, patch.fields, ret);
    return Merged(Obj(ret));
  }

  method MergeValueAt(path: Path, patch: map<string, Json>, key: string, value: Json) returns (r: Outcome)
    ensures r.Merged? ==> MergeValue(patch, key, value) == Some(r.tree)
    ensures r.Rejected? ==> RejectedAt(path, patch, key, value, r.at)
    decreases value, 2
  {
    if key !in patch {
      return Merged(value);
    }
    var patchValue := patch[key];
    var path' := path + [key];
    if value.Obj? {
      if !patchValue.Obj? {
        return Rejected(path');
      }
      r := MergeObjects(value, patchValue, path');
      return;
    }
    if value.Arr? && patchValue.Obj? {
      r := MergeObjects(value, patchValue, path');
      return;
    }
    return Merged(patchValue);
  }

  /** The reported path extends the path so far by key and then by a conflict below value. */
  predicate RejectedAt(path: Path, patch: map<string, Json>, key: string, value: Json, at: Path) {
    && key in patch && path + [key] <= at
    && if at == path + [key] then value.Obj? && !patch[key].Obj? else Conflict(value, patch[key], at[|path| + 1..])
  }

  lemma RejectedBelow(data: Json, patch: Json, path: Path, key: string, at: Path)
    requires patch.Obj? && Child(data, key).Some?
    requires RejectedAt(path, patch.fields, key, Child(data, key).value, at)
    ensures path <= at && Conflict(data, patch, at[|path|..]) && Merge(data, patch).None?
  {
    var rest := at[|path|..];
    assert at == path + rest;
    assert rest[0] == (path + [key])[|path|] == key;
    assert rest[1..] == at[|path| + 1..];
    ConflictFails(data, patch, rest);
  }
}
