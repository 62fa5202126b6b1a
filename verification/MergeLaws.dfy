/** Merging twice: the same patch again, and two patches against their merge. */
module MergeLaws {
  import opened Options
  import opened Decimal
  import opened Merger
  import opened MergePaths
  import opened MergeTwice

  /** A repeated patch changes nothing. */
  lemma {:induction false} MergeIdempotent(d: Json, p: Json)
    requires Merge(d, p).Some?
    ensures Merge(Merge(d, p).value, p) == Merge(d, p)
    decreases d, 0
  {
    if p.Obj? && !d.Scalar? {
      var r := Merge(d, p).value;
      if d.Arr? {
        forall i | 0 <= i < |d.items|
          ensures MergeValue(p.fields, Itoa(i), r.items[i]) == Some(r.items[i])
        {
          ValueIdempotent(p.fields, Itoa(i), d.items[i]);
        }
        assert Merge(r, p).value.items == r.items;
      } else {
        forall k | k in r.fields
          ensures MergeValue(p.fields, k, r.fields[k]) == Some(r.fields[k])
        {
          if k in d.fields {
            ValueIdempotent(p.fields, k, d.fields[k]);
          } else {
            MergeSelf(p.fields[k]);
          }
        }
        assert Merge(r, p).value.fields == r.fields;
      }
    }
  }

  lemma {:induction false} ValueIdempotent(p: map<string, Json>, k: string, v: Json)
    requires MergeValue(p, k, v).Some?
    ensures MergeValue(p, k, MergeValue(p, k, v).value) == MergeValue(p, k, v)
    decreases v, 1
  {
    if k in p {
      MergeSelf(p[k]);
      if !v.Scalar? && p[k].Obj? {
        MergeIdempotent(v, p[k]);
      }
    }
  }

  // ---- Composition ----

  /**
   Somewhere below, the first patch replaces an array by a scalar where the second has an object: applied
   in turn the object replaces the scalar, applied at once it patches the array.
   */
  ghost predicate Exposed(d: Json, p1: Json, p2: Json)
    decreases d, 0
  {
    && p1.Obj? && p2.Obj?
    && match d
       case Scalar(_) => false
       case Arr(items) => exists i | 0 <= i < |items| :: ExposedAt(Itoa(i), items[i], p1.fields, p2.fields)
       case Obj(fields) => exists k | k in fields :: ExposedAt(k, fields[k], p1.fields, p2.fields)
  }

  ghost predicate ExposedAt(k: string, v: Json, p1: map<string, Json>, p2: map<string, Json>)
    decreases v, 1
  {
    && k in p1 && k in p2 && p2[k].Obj?
    && ((v.Arr? && p1[k].Scalar?) || Exposed(v, p1[k], p2[k]))
  }

  /** The equation for two patches, given whether the second step fails. */
  lemma {:induction false} ComposesUnlessExposed(d: Json, p1: Json, p2: Json)
    requires p1.Obj?
    requires Merge(d, p1).Some? && Merge(p1, p2).Some?
    ensures Then(Merge(d, p1), p2) == Merge(d, Merge(p1, p2).value)
       <==> Then(Merge(d, p1), p2).None? || !Exposed(d, p1, p2)
    decreases d, 0, 1
  {
    if p2.Obj? && d.Arr? {
      ItemsCompose(d.items, p1, p2);
    } else if p2.Obj? && d.Obj? {
      FieldsCompose(d.fields, p1, p2);
    }
  }

  lemma {:induction false} ItemsCompose(items: seq<Json>, p1: Json, p2: Json)
    requires p1.Obj? && p2.Obj?
    requires Merge(Arr(items), p1).Some? && Merge(p1, p2).Some?
    ensures Then(Merge(Arr(items), p1), p2) == Merge(Arr(items), Merge(p1, p2).value)
       <==> Then(Merge(Arr(items), p1), p2).None? || !Exposed(Arr(items), p1, p2)
    decreases Arr(items), 0, 0
  {
    var q := Merge(p1, p2).value.fields;
    forall i | 0 <= i < |items|
      ensures Twice(Itoa(i), items[i], p1.fields, p2.fields) == MergeValue(q, Itoa(i), items[i])
         <==> Twice(Itoa(i), items[i], p1.fields, p2.fields).None?
              || !ExposedAt(Itoa(i), items[i], p1.fields, p2.fields)
    {
      ValueComposes(Itoa(i), items[i], p1, p2);
    }
    if i :| 0 <= i < |items| && Twice(Itoa(i), items[i], p1.fields, p2.fields).None? {
      ArrayFails(items, p1.fields, p2.fields, i);
    } else {
      var r := seq(|items|, i requires 0 <= i < |items| => Twice(Itoa(i), items[i], p1.fields, p2.fields).value);
      ArrayTwice(items, p1.fields, p2.fields, r);
      if i :| 0 <= i < |items| && ExposedAt(Itoa(i), items[i], p1.fields, p2.fields) {
        assert MergeValue(q, Itoa(i), items[i]) != Some(r[i]);
      } else {
        ArrayMerges(items, q, r);
      }
    }
  }

  lemma {:induction false} FieldsCompose(fields: map<string, Json>, p1: Json, p2: Json)
    requires p1.Obj? && p2.Obj?
    requires Merge(Obj(fields), p1).Some? && Merge(p1, p2).Some?
    ensures Then(Merge(Obj(fields), p1), p2) == Merge(Obj(fields), Merge(p1, p2).value)
       <==> Then(Merge(Obj(fields), p1), p2).None? || !Exposed(Obj(fields), p1, p2)
    decreases Obj(fields), 0, 0
  {
    var q := Merge(p1, p2).value.fields;
    forall k | k in fields
      ensures Twice(k, fields[k], p1.fields, p2.fields) == MergeValue(q, k, fields[k])
         <==> Twice(k, fields[k], p1.fields, p2.fields).None? || !ExposedAt(k, fields[k], p1.fields, p2.fields)
    {
      ValueComposes(k, fields[k], p1, p2);
    }
    if k :| k in fields && Twice(k, fields[k], p1.fields, p2.fields).None? {
      ObjectFails(fields, p1.fields, p2.fields, k);
    } else {
      var r := map k | k in fields.Keys + q.Keys ::
        if k in fields then Twice(k, fields[k], p1.fields, p2.fields).value else q[k];
      ObjectTwice(fields, p1.fields, p2.fields, r);
      if k :| k in fields && ExposedAt(k, fields[k], p1.fields, p2.fields) {
        assert MergeValue(q, k, fields[k]) != Some(r[k]);
      } else {
        ObjectMerges(fields, q, r);
      }
    }
  }

  lemma {:induction false} ValueComposes(k: string, v: Json, p1: Json, p2: Json)
    requires p1.Obj? && p2.Obj? && Merge(p1, p2).Some?
    requires MergeValue(p1.fields, k, v).Some?
    ensures Twice(k, v, p1.fields, p2.fields) == MergeValue(Merge(p1, p2).value.fields, k, v)
       <==> Twice(k, v, p1.fields, p2.fields).None? || !ExposedAt(k, v, p1.fields, p2.fields)
    decreases v, 1
  {
    if k in p1.fields && k in p2.fields {
      var q := Merge(p1, p2).value.fields[k];
      assert MergeValue(p2.fields, k, p1.fields[k]) == Some(q);
      KindKept(v, p2.fields[k]);
      KindKept(p1.fields[k], p2.fields[k]);
      if !v.Scalar? && p1.fields[k].Obj? && p2.fields[k].Obj? {
        ComposesUnlessExposed(v, p1.fields[k], p2.fields[k]);
      }
    }
  }

  // ---- When the second step fails ----

  /** The data and the second patch conflict where the first patch does not reach. */
  ghost predicate Clash(d: Json, p1: Json, p2: Json) {
    exists path :: Conflict(d, p2, path) && Untouched(p1, path)
  }

  lemma {:induction false} ConflictSurvives(d: Json, p1: Json, p2: Json, path: Path)
    requires Merge(d, p1).Some? && Conflict(d, p2, path) && Untouched(p1, path)
    ensures Conflict(Merge(d, p1).value, p2, path)
    decreases path
  {
    MergedChild(d, p1, path[0]);
    if path[0] in p1.fields {
      ConflictSurvives(Child(d, path[0]).value, p1.fields[path[0]], p2.fields[path[0]], path[1..]);
    }
  }

  lemma {:induction false} ConflictWasThere(d: Json, p1: Json, p2: Json, path: Path)
    requires p1.Obj? && Merge(d, p1).Some? && Merge(p1, p2).Some?
    requires Conflict(Merge(d, p1).value, p2, path)
    ensures Conflict(d, p2, path) && Untouched(p1, path)
    decreases path
  {
    var k := path[0];
    if k in p1.fields && Conflict(p1, p2, path) {
      ConflictFails(p1, p2, path);
      assert false;
    }
    if Child(d, k).None? && !d.Obj? {
      NoNewChild(d, p1, k);
    }
    if Child(d, k).Some? {
      MergedChild(d, p1, k);
      if k in p1.fields {
        MergedChild(p1, p2, k);
        ConflictWasThere(Child(d, k).value, p1.fields[k], p2.fields[k], path[1..]);
      }
    }
  }

  lemma ClashFails(d: Json, p1: Json, p2: Json)
    requires Merge(d, p1).Some? && Clash(d, p1, p2)
    ensures Then(Merge(d, p1), p2).None?
  {
    var path :| Conflict(d, p2, path) && Untouched(p1, path);
    ConflictSurvives(d, p1, p2, path);
    ConflictFails(Merge(d, p1).value, p2, path);
  }

  lemma FailureClashes(d: Json, p1: Json, p2: Json)
    requires p1.Obj? && Merge(d, p1).Some? && Merge(p1, p2).Some?
    requires Then(Merge(d, p1), p2).None?
    ensures Clash(d, p1, p2)
  {
    var path := FailureHasConflict(Merge(d, p1).value, p2);
    ConflictWasThere(d, p1, p2, path);
  }

  /** Merging two patches in turn is merging their merge, exactly when they clash with the data or expose no array. */
  lemma MergeComposes(d: Json, p1: Json, p2: Json)
    requires p1.Obj?
    requires Merge(d, p1).Some? && Merge(p1, p2).Some?
    ensures Then(Merge(d, p1), p2) == Merge(d, Merge(p1, p2).value) <==> Clash(d, p1, p2) || !Exposed(d, p1, p2)
  {
    ComposesUnlessExposed(d, p1, p2);
    if Clash(d, p1, p2) {
      ClashFails(d, p1, p2);
    } else if Then(Merge(d, p1), p2).None? {
      FailureClashes(d, p1, p2);
    }
  }

  /** Along common objects p1 holds no scalar where p2 holds an object. */
  predicate KeepsObjects(p1: Json, p2: Json) {
    p1.Obj? && p2.Obj? ==>
      forall k | k in p1.fields && k in p2.fields ::
        !(p1.fields[k].Scalar? && p2.fields[k].Obj?) && KeepsObjects(p1.fields[k], p2.fields[k])
  }

  lemma {:induction false} KeepsObjectsExposesNothing(d: Json, p1: Json, p2: Json)
    requires KeepsObjects(p1, p2)
    ensures !Exposed(d, p1, p2)
    decreases p1
  {
    if p1.Obj? && p2.Obj? {
      forall k, v | k in p1.fields && k in p2.fields
        ensures !ExposedAt(k, v, p1.fields, p2.fields)
      {
        KeepsObjectsExposesNothing(v, p1.fields[k], p2.fields[k]);
      }
    }
  }

  /** A condition on the patches alone under which their merge stands for both, on all data the first merges into. */
  lemma PatchesCompose(d: Json, p1: Json, p2: Json)
    requires p1.Obj? && KeepsObjects(p1, p2)
    requires Merge(d, p1).Some? && Merge(p1, p2).Some?
    ensures Then(Merge(d, p1), p2) == Merge(d, Merge(p1, p2).value)
  {
    KeepsObjectsExposesNothing(d, p1, p2);
    MergeComposes(d, p1, p2);
  }

  /** A scalar over an array, then an object: in turn the object stands, at once the array does. */
  lemma CompositionCanFail()
    ensures
      var d := Obj(map["a" := Arr([])]);
      var p1, p2 := Obj(map["a" := Scalar("1")]), Obj(map["a" := Obj(map[])]);
      && Merge(d, p1).Some? && Merge(p1, p2).Some?
      && Then(Merge(d, p1), p2) != Merge(d, Merge(p1, p2).value)
  {
    var d := Obj(map["a" := Arr([])]);
    var p1, p2 := Obj(map["a" := Scalar("1")]), Obj(map["a" := Obj(map[])]);
    ObjectMerges(d.fields, p1.fields, p1.fields);
    ObjectMerges(p1.fields, p2.fields, p2.fields);
    assert ExposedAt("a", d.fields["a"], p1.fields, p2.fields);
    ComposesUnlessExposed(d, p1, p2);
  }
}
