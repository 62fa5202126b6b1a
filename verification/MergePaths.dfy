/** Where a merge fails, what it keeps and what it replaces, path by path. */
module MergePaths {
  import opened Options
  import opened Decimal
  import opened Merger

  type Path = seq<string>

  /** The member of a container a path step leads to; an array is entered by the decimal of an index. */
  function Child(d: Json, key: string): Option<Json> {
    match d
    case Scalar(_) => None
    case Arr(items) => if Canonical(key) && Value(key) < |items| then Some(items[Value(key)]) else None
    case Obj(fields) => if key in fields then Some(fields[key]) else None
  }

  function Lookup(d: Json, path: Path): Option<Json> {
    if path == [] then Some(d)
    else
      var c := Child(d, path[0]);
      if c.None? then None else Lookup(c.value, path[1..])
  }

  lemma ChildOfArray(items: seq<Json>, i: nat)
    requires i < |items|
    ensures Child(Arr(items), Itoa(i)) == Some(items[i])
  {
    ItoaRoundTrip(i);
  }

  /** Every member of the merged container is the merged member. */
  lemma MergedChild(d: Json, p: Json, key: string)
    requires p.Obj? && Child(d, key).Some?
    ensures Merge(d, p).Some? ==>
      MergeValue(p.fields, key, Child(d, key).value).Some?
      && Child(Merge(d, p).value, key) == MergeValue(p.fields, key, Child(d, key).value)
  {
    if d.Arr? {
      ValueRoundTrip(key);
      assert Itoa(Value(key)) == key;
    }
  }

  // ---- Failure ----

  /** Data and patch meet at path, with an object in the data and something else in the patch. */
  predicate Conflict(d: Json, p: Json, path: Path)
    decreases path
  {
    && path != [] && p.Obj? && path[0] in p.fields && Child(d, path[0]).Some?
    && var v, pv := Child(d, path[0]).value, p.fields[path[0]];
       if |path| == 1 then v.Obj? && !pv.Obj? else Conflict(v, pv, path[1..])
  }

  lemma {:induction false} ConflictFails(d: Json, p: Json, path: Path)
    requires Conflict(d, p, path)
    ensures Merge(d, p).None?
    decreases path
  {
    MergedChild(d, p, path[0]);
    if |path| > 1 {
      ConflictFails(Child(d, path[0]).value, p.fields[path[0]], path[1..]);
    }
  }

  lemma {:induction false} FailureHasConflict(d: Json, p: Json) returns (path: Path)
    requires Merge(d, p).None?
    ensures Conflict(d, p, path)
    decreases d
  {
    var key;
    if d.Arr? {
      var i :| 0 <= i < |d.items| && MergeValue(p.fields, Itoa(i), d.items[i]).None?;
      key := Itoa(i);
      ChildOfArray(d.items, i);
    } else {
      key :| key in d.fields && MergeValue(p.fields, key, d.fields[key]).None?;
    }
    var v := Child(d, key).value;
    if v.Obj? && !p.fields[key].Obj? {
      path := [key];
    } else {
      var rest := FailureHasConflict(v, p.fields[key]);
      path := [key] + rest;
      assert path[1..] == rest;
    }
  }

  lemma FailsExactlyOnConflict(d: Json, p: Json)
    ensures Merge(d, p).None? <==> exists path :: Conflict(d, p, path)
  {
    if Merge(d, p).None? {
      var path := FailureHasConflict(d, p);
      assert exists path' :: Conflict(d, p, path');
    }
    forall path | Conflict(d, p, path)
      ensures Merge(d, p).None?
    {
      ConflictFails(d, p, path);
    }
  }

  // ---- What a successful merge keeps ----

  /** Walking down path, the patch's objects end at a missing key. */
  predicate Untouched(p: Json, path: Path)
    decreases path
  {
    path != [] && p.Obj? && (path[0] in p.fields ==> Untouched(p.fields[path[0]], path[1..]))
  }

  lemma {:induction false} UntouchedKept(d: Json, p: Json, path: Path)
    requires Merge(d, p).Some? && Lookup(d, path).Some? && Untouched(p, path)
    ensures Lookup(Merge(d, p).value, path) == Lookup(d, path)
    decreases path
  {
    MergedChild(d, p, path[0]);
    if path[0] in p.fields {
      UntouchedKept(Child(d, path[0]).value, p.fields[path[0]], path[1..]);
    }
  }

  /** Walking down path, the patch's objects lead to pv. */
  predicate Holds(p: Json, path: Path, pv: Json)
    decreases path
  {
    if path == [] then p == pv
    else p.Obj? && path[0] in p.fields && Holds(p.fields[path[0]], path[1..], pv)
  }

  /** Walking down path, the data ends at a scalar below the root or at an object that lacks the next key. */
  predicate Admits(d: Json, path: Path)
    decreases path
  {
    path == [] || (if Child(d, path[0]).None? then d.Obj?
                   else Child(d, path[0]).value.Scalar? || Admits(Child(d, path[0]).value, path[1..]))
  }

  /** A non-object of the patch appears in the result exactly where the data lets its path in. */
  lemma {:induction false} PatchWins(d: Json, p: Json, path: Path, pv: Json)
    requires Merge(d, p).Some? && path != [] && Holds(p, path, pv) && !pv.Obj?
    ensures Lookup(Merge(d, p).value, path) == Some(pv) <==> Admits(d, path)
    decreases path
  {
    var k, rest := path[0], path[1..];
    if Child(d, k).Some? {
      MergedChild(d, p, k);
      if rest != [] {
        if Child(d, k).value.Scalar? {
          HeldIsFound(p.fields[k], rest, pv);
        } else {
          PatchWins(Child(d, k).value, p.fields[k], rest, pv);
        }
      }
    } else if d.Obj? {
      HeldIsFound(p.fields[k], rest, pv);
    } else {
      NoNewChild(d, p, k);
    }
  }

  /** Walking down path, the data ends at a scalar below the root, or at an object that lacks the next key. */
  predicate Opens(d: Json, path: Path)
    decreases path
  {
    path != [] && (if Child(d, path[0]).None? then d.Obj?
                   else Child(d, path[0]).value.Scalar? || Opens(Child(d, path[0]).value, path[1..]))
  }

  /** There, whatever the patch has, objects included, is taken over as it is. */
  lemma {:induction false} TakenWhole(d: Json, p: Json, path: Path, pv: Json)
    requires Merge(d, p).Some? && Holds(p, path, pv) && Opens(d, path)
    ensures Lookup(Merge(d, p).value, path) == Some(pv)
    decreases path
  {
    var k, rest := path[0], path[1..];
    HeldIsFound(p.fields[k], rest, pv);
    if Child(d, k).Some? {
      MergedChild(d, p, k);
      if !Child(d, k).value.Scalar? {
        TakenWhole(Child(d, k).value, p.fields[k], rest, pv);
      }
    }
  }

  lemma {:induction false} HeldIsFound(p: Json, path: Path, pv: Json)
    requires Holds(p, path, pv)
    ensures Lookup(p, path) == Some(pv)
    decreases path
  {
    if path != [] {
      HeldIsFound(p.fields[path[0]], path[1..], pv);
    }
  }

  /** Arrays and scalars get no new members. */
  lemma NoNewChild(d: Json, p: Json, key: string)
    requires Merge(d, p).Some? && !d.Obj? && Child(d, key).None?
    ensures Child(Merge(d, p).value, key).None?
  {
  }

  /** What the result holds at a path the data or the patch has there, and a scalar comes from one of them. */
  lemma {:induction false} NothingInvented(d: Json, p: Json, path: Path)
    requires Merge(d, p).Some? && Lookup(Merge(d, p).value, path).Some?
    ensures Lookup(d, path).Some? || Lookup(p, path).Some?
    ensures Lookup(Merge(d, p).value, path).value.Scalar? ==>
      Lookup(Merge(d, p).value, path) == Lookup(d, path) || Lookup(Merge(d, p).value, path) == Lookup(p, path)
    decreases path
  {
    if p.Obj? && !d.Scalar? && path != [] {
      if Child(d, path[0]).Some? {
        MergedChild(d, p, path[0]);
        var v := Child(d, path[0]).value;
        if path[0] in p.fields && !v.Scalar? && p.fields[path[0]].Obj? {
          NothingInvented(v, p.fields[path[0]], path[1..]);
        }
      }
    }
  }

  /** Walking down path, the patch's objects lead to something else in which the rest of path does not exist. */
  predicate Severed(p: Json, path: Path)
    decreases path
  {
    && path != [] && p.Obj? && path[0] in p.fields
    && if p.fields[path[0]].Obj? then Severed(p.fields[path[0]], path[1..])
       else Lookup(p.fields[path[0]], path[1..]).None?
  }

  /** An existing path survives the merge unless the patch severs it, and then it does not. */
  lemma {:induction false} SurvivesUnlessSevered(d: Json, p: Json, path: Path)
    requires Merge(d, p).Some? && Lookup(d, path).Some?
    ensures Lookup(Merge(d, p).value, path).Some? <==> !Severed(p, path)
    decreases path
  {
    if path != [] && p.Obj? {
      MergedChild(d, p, path[0]);
      var v := Child(d, path[0]).value;
      if path[0] in p.fields && p.fields[path[0]].Obj? && !v.Scalar? {
        SurvivesUnlessSevered(v, p.fields[path[0]], path[1..]);
      }
    }
  }

  /** A field inside an array element is lost when the patch replaces the array. */
  lemma FieldCanBeLost()
    ensures
      var d := Obj(map["a" := Arr([Obj(map["x" := Scalar("1")])])]);
      var p := Obj(map["a" := Arr([])]);
      var path := ["a", Itoa(0), "x"];
      && Merge(d, p).Some? && Lookup(d, path) == Some(Scalar("1")) && Lookup(Merge(d, p).value, path).None?
  {
    var items := [Obj(map["x" := Scalar("1")])];
    var d, p := Obj(map["a" := Arr(items)]), Obj(map["a" := Arr([])]);
    var path := ["a", Itoa(0), "x"];
    ObjectMerges(d.fields, p.fields, p.fields);
    ChildOfArray(items, 0);
    assert path[1..] == [Itoa(0), "x"] && path[1..][1..] == ["x"] && path[1..][1..][1..] == [];
    assert Lookup(items[0], ["x"]) == Some(Scalar("1"));
    assert Lookup(Arr(items), path[1..]) == Some(Scalar("1"));
  }

  /** path leads from object to object in d. */
  predicate ObjectPath(d: Json, path: Path) {
    path == [] || (d.Obj? && path[0] in d.fields && ObjectPath(d.fields[path[0]], path[1..]))
  }

  lemma {:induction false} SkeletonKept(d: Json, p: Json, path: Path)
    requires Merge(d, p).Some? && ObjectPath(d, path)
    ensures Lookup(d, path).Some?
    ensures ObjectPath(Merge(d, p).value, path)
    ensures Lookup(Merge(d, p).value, path).Some?
    ensures Lookup(d, path).value.Obj? ==> Lookup(Merge(d, p).value, path).value.Obj?
    decreases path
  {
    KindKept(d, p);
    if path != [] {
      var v := d.fields[path[0]];
      if p.Obj? {
        MergedChild(d, p, path[0]);
      }
      if p.Obj? && path[0] in p.fields && v.Obj? {
        SkeletonKept(v, p.fields[path[0]], path[1..]);
      } else {
        MergeSelf(v);
        SkeletonKept(v, v, path[1..]);
      }
    }
  }

  // ---- Arrays ----

  /** The keys of an object patch that address an element of an array of the given length. */
  predicate Addresses(key: string, length: nat) {
    Canonical(key) && Value(key) < length
  }

  lemma ArrayPatchLocal(items: seq<Json>, p: map<string, Json>, p': map<string, Json>)
    requires forall key | Addresses(key, |items|) ::
      (key in p <==> key in p') && (key in p ==> p[key] == p'[key])
    ensures Merge(Arr(items), Obj(p)) == Merge(Arr(items), Obj(p'))
  {
    forall i | 0 <= i < |items|
      ensures MergeValue(p, Itoa(i), items[i]) == MergeValue(p', Itoa(i), items[i])
    {
      ItoaRoundTrip(i);
    }
    if Merge(Arr(items), Obj(p)).Some? {
      ArrayMerges(items, p', Merge(Arr(items), Obj(p)).value.items);
    }
  }

  lemma ArrayPatchElement(items: seq<Json>, p: map<string, Json>, i: nat, pv: Json)
    requires i < |items| && Merge(Arr(items), Obj(p)).Some?
    requires MergeValue(p[Itoa(i) := pv], Itoa(i), items[i]).Some?
    ensures Merge(Arr(items), Obj(p[Itoa(i) := pv]))
         == Some(Arr(Merge(Arr(items), Obj(p)).value.items[i := MergeValue(p[Itoa(i) := pv], Itoa(i), items[i]).value]))
  {
    forall j | 0 <= j < |items| && j != i
      ensures Itoa(j) != Itoa(i)
    {
      if Itoa(j) == Itoa(i) {
        ItoaInjective(j, i);
      }
    }
    ArrayMerges(items, p[Itoa(i) := pv],
      Merge(Arr(items), Obj(p)).value.items[i := MergeValue(p[Itoa(i) := pv], Itoa(i), items[i]).value]);
  }
}
