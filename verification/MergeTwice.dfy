/** Two merges in a row, described one key at a time. */
module MergeTwice {
  import opened Options
  import opened Decimal
  import opened Merger

  function Then(r: Option<Json>, p: Json): Option<Json> {
    if r.None? then None else Merge(r.value, p)
  }

  /** The value at one key after both patches. */
  ghost function Twice(k: string, v: Json, p: map<string, Json>, q: map<string, Json>): Option<Json> {
    var e := MergeValue(p, k, v);
    if e.None? then None else MergeValue(q, k, e.value)
  }

  lemma ArrayFails(items: seq<Json>, p: map<string, Json>, q: map<string, Json>, i: nat)
    requires i < |items| && Twice(Itoa(i), items[i], p, q).None?
    ensures Then(Merge(Arr(items), Obj(p)), Obj(q)).None?
  {
  }

  lemma ArrayTwice(items: seq<Json>, p: map<string, Json>, q: map<string, Json>, r: seq<Json>)
    requires |r| == |items|
    requires forall i | 0 <= i < |items| :: Twice(Itoa(i), items[i], p, q) == Some(r[i])
    ensures Then(Merge(Arr(items), Obj(p)), Obj(q)) == Some(Arr(r))
  {
    var e := seq(|items|, i requires 0 <= i < |items| => MergeValue(p, Itoa(i), items[i]).value);
    ArrayMerges(items, p, e);
    ArrayMerges(e, q, r);
  }

  lemma ObjectFails(fields: map<string, Json>, p: map<string, Json>, q: map<string, Json>, k: string)
    requires k in fields && Twice(k, fields[k], p, q).None?
    ensures Then(Merge(Obj(fields), Obj(p)), Obj(q)).None?
  {
  }

  lemma ObjectTwice(fields: map<string, Json>, p: map<string, Json>, q: map<string, Json>, r: map<string, Json>)
    requires forall k | k in fields :: Twice(k, fields[k], p, q).Some?
    requires Merge(Obj(p), Obj(q)).Some?
    requires r.Keys == fields.Keys + p.Keys + q.Keys
    requires forall k | k in r ::
      Some(r[k]) == if k in fields then Twice(k, fields[k], p, q) else Some(Merge(Obj(p), Obj(q)).value.fields[k])
    ensures Then(Merge(Obj(fields), Obj(p)), Obj(q)) == Some(Obj(r))
  {
    var e := map k | k in fields.Keys + p.Keys :: if k in fields then MergeValue(p, k, fields[k]).value else p[k];
    ObjectMerges(fields, p, e);
    forall k | k in e
      ensures MergeValue(q, k, e[k]) == Some(r[k])
    {
      if k !in fields {
        assert MergeValue(q, k, p[k]).Some?;
      }
    }
    ObjectMerges(e, q, r);
  }
}
