/** What the error list and its category say about a request. */
module MapValidatorLaws {
  import opened Decimal
  import opened MapValidator

  // ---- Empty exactly when every rule holds ----

  lemma BothEmpty(a: seq<ValidationError>, b: seq<ValidationError>)
    ensures a + b == [] <==> a == [] && b == []
  {
    assert |a + b| == |a| + |b|;
  }

  lemma PlacementErrorsEmpty(index: nat, p: Placement)
    ensures PlacementErrors(index, p) == [] <==> PlacementOK(p)
  {
    var q := Prefix(index);
    var e1, e2 := Report(p.id != "", q + ".id", EmptyID), Report(p.tileID != "", q + ".tileId", EmptyTileID);
    var e3, e4 := OffsetErrors(p.x, q + ".x"), OffsetErrors(p.y, q + ".y");
    var e5 := Report(MIN_ROTATION <= p.rot <= MAX_ROTATION, q + ".rot", RotationRange);
    BothEmpty(e1, e2);
    BothEmpty(e1 + e2, e3);
    BothEmpty(e1 + e2 + e3, e4);
    BothEmpty(e1 + e2 + e3 + e4, e5);
    assert PlacementErrors(index, p) == e1 + e2 + e3 + e4 + e5;
  }

  lemma {:induction false} PlacementsErrorsEmpty(placements: seq<Placement>, n: nat)
    requires n <= |placements|
    ensures PlacementsErrors(placements, n) == [] <==> forall i | 0 <= i < n :: PlacementOK(placements[i])
  {
    if n > 0 {
      PlacementsErrorsEmpty(placements, n - 1);
      PlacementErrorsEmpty(n - 1, placements[n - 1]);
      BothEmpty(PlacementsErrors(placements, n - 1), PlacementErrors(n - 1, placements[n - 1]));
    }
  }

  lemma AcceptedExactlyWhenAllRulesHold(name: string, data: MapData)
    ensures Errors(name, data) == [] <==> NameOK(name) && SchemaOK(data) && DimensionsOK(data) && PlacementsOK(data)
  {
    PlacementsErrorsEmpty(data.placements, |data.placements|);
  }

  // ---- No field twice ----

  ghost predicate DistinctFields(errors: seq<ValidationError>) {
    forall i, j | 0 <= i < j < |errors| :: errors[i].field != errors[j].field
  }

  /** field belongs to the placement at index. */
  predicate Of(field: string, index: nat) {
    Prefix(index) <= field
  }

  lemma PrefixInjective(field: string, i: nat, j: nat)
    requires Of(field, i) && Of(field, j)
    ensures i == j
  {
    ItoaRoundTrip(i);
    ItoaRoundTrip(j);
    AfterBracket(PLACEMENTS + "[", Itoa(i), field);
    AfterBracket(PLACEMENTS + "[", Itoa(j), field);
    SameDigits(Itoa(i), Itoa(j), field[|PLACEMENTS + "["|..]);
    ItoaInjective(i, j);
  }

  lemma AfterBracket(opening: string, digits: string, s: string)
    requires opening + digits + "]" <= s
    ensures |opening| <= |s| && digits + "]" <= s[|opening|..]
  {
    assert opening + digits + "]" == opening + (digits + "]");
    assert (opening + (digits + "]"))[|opening|..] == digits + "]";
  }

  /** A run of digits closed by a bracket is read one way only. */
  lemma SameDigits(a: string, b: string, s: string)
    requires Canonical(a) && Canonical(b)
    requires a + "]" <= s && b + "]" <= s
    ensures a == b
  {
    assert forall k | 0 <= k < |a| :: s[k] == (a + "]")[k] == a[k];
    assert forall k | 0 <= k < |b| :: s[k] == (b + "]")[k] == b[k];
    assert s[|a|] == (a + "]")[|a|] == ']' == (b + "]")[|b|] == s[|b|];
    assert |a| == |b|;
  }

  function Fields(errors: seq<ValidationError>): set<string> {
    set i | 0 <= i < |errors| :: errors[i].field
  }

  lemma Appended(a: seq<ValidationError>, b: seq<ValidationError>)
    requires DistinctFields(a) && DistinctFields(b) && Fields(a) !! Fields(b)
    ensures DistinctFields(a + b)
  {
    forall i, j | 0 <= i < j < |a + b|
      ensures (a + b)[i].field != (a + b)[j].field
    {
      if i < |a| <= j {
        assert a[i].field in Fields(a) && b[j - |a|].field in Fields(b);
      }
    }
  }

  lemma FieldsAppended(a: seq<ValidationError>, b: seq<ValidationError>)
    ensures Fields(a + b) == Fields(a) + Fields(b)
  {
    forall i | 0 <= i < |b|
      ensures b[i].field in Fields(a + b)
    {
      assert (a + b)[|a| + i] == b[i];
    }
    forall i | 0 <= i < |a|
      ensures a[i].field in Fields(a + b)
    {
      assert (a + b)[i] == a[i];
    }
  }

  lemma SuffixesDiffer(prefix: string, s: string, t: string)
    requires s != t
    ensures prefix + s != prefix + t
  {
    assert (prefix + s)[|prefix|..] == s && (prefix + t)[|prefix|..] == t;
  }

  /** Appending a report under a new field keeps the fields distinct. */
  lemma Reported(errors: seq<ValidationError>, fields: set<string>, ok: bool, field: string, message: Message)
    requires DistinctFields(errors) && Fields(errors) <= fields && field !in fields
    ensures DistinctFields(errors + Report(ok, field, message))
    ensures Fields(errors + Report(ok, field, message)) <= fields + {field}
  {
    assert Fields(Report(ok, field, message)) <= {field};
    Appended(errors, Report(ok, field, message));
    FieldsAppended(errors, Report(ok, field, message));
  }

  lemma PlacementFields(index: nat, p: Placement)
    ensures DistinctFields(PlacementErrors(index, p))
    ensures forall f | f in Fields(PlacementErrors(index, p)) :: Of(f, index)
  {
    var q := Prefix(index);
    var id, tile, x, y, rot := q + ".id", q + ".tileId", q + ".x", q + ".y", q + ".rot";
    SuffixesDiffer(q, ".id", ".tileId");
    SuffixesDiffer(q, ".id", ".x");
    SuffixesDiffer(q, ".id", ".y");
    SuffixesDiffer(q, ".id", ".rot");
    SuffixesDiffer(q, ".tileId", ".x");
    SuffixesDiffer(q, ".tileId", ".y");
    SuffixesDiffer(q, ".tileId", ".rot");
    SuffixesDiffer(q, ".x", ".y");
    SuffixesDiffer(q, ".x", ".rot");
    SuffixesDiffer(q, ".y", ".rot");
    var e1 := Report(p.id != "", id, EmptyID);
    var e2 := e1 + Report(p.tileID != "", tile, EmptyTileID);
    var e3 := e2 + OffsetErrors(p.x, x);
    var e4 := e3 + OffsetErrors(p.y, y);
    assert Fields(e1) <= {id};
    Reported(e1, {id}, p.tileID != "", tile, EmptyTileID);
    Reported(e2, {id, tile}, OffsetOK(p.x), x, if p.x < 0 then Negative else NotMultiple);
    Reported(e3, {id, tile, x}, OffsetOK(p.y), y, if p.y < 0 then Negative else NotMultiple);
    Reported(e4, {id, tile, x, y}, MIN_ROTATION <= p.rot <= MAX_ROTATION, rot, RotationRange);
  }

  lemma HeadFields(name: string, data: MapData)
    ensures DistinctFields(HeadErrors(name, data))
    ensures forall f, i: nat | f in Fields(HeadErrors(name, data)) :: !Of(f, i)
  {
    HeadNamesDiffer();
    FourFields(NAME_FIELD, SCHEMA_FIELD, WIDTH_FIELD, HEIGHT_FIELD, name, data);
    forall f, i: nat | f in Fields(HeadErrors(name, data))
      ensures !Of(f, i)
    {
      NotOfPlacement(f, i);
    }
  }

  lemma HeadNamesDiffer()
    ensures NAME_FIELD != SCHEMA_FIELD && WIDTH_FIELD != HEIGHT_FIELD
    ensures {NAME_FIELD, SCHEMA_FIELD} !! {WIDTH_FIELD, HEIGHT_FIELD}
  {
    assert |NAME_FIELD| == 4 && |SCHEMA_FIELD| == 18 && |WIDTH_FIELD| == 15 && |HEIGHT_FIELD| == 16;
  }

  lemma NotOfPlacement(f: string, i: nat)
    requires f in {NAME_FIELD, SCHEMA_FIELD, WIDTH_FIELD, HEIGHT_FIELD}
    ensures !Of(f, i)
  {
    assert Prefix(i)[5] == 'p';
  }

  lemma FourFields(a: string, b: string, c: string, d: string, name: string, data: MapData)
    requires a != b && c != d && {a, b} !! {c, d}
    ensures
      var errors := Report(NameOK(name), a, NameLength) + Report(SchemaOK(data), b, SchemaVersion)
                    + SizeErrors(data.widthUnits, c) + SizeErrors(data.heightUnits, d);
      DistinctFields(errors) && Fields(errors) <= {a, b, c, d}
  {
    var e1 := Report(NameOK(name), a, NameLength);
    var e2 := e1 + Report(SchemaOK(data), b, SchemaVersion);
    var e3 := e2 + SizeErrors(data.widthUnits, c);
    assert Fields(e1) <= {a};
    Reported(e1, {a}, SchemaOK(data), b, SchemaVersion);
    Reported(e2, {a, b}, SizeOK(data.widthUnits), c, if data.widthUnits <= 0 then NotPositive else NotMultiple);
    Reported(e3, {a, b, c}, SizeOK(data.heightUnits), d, if data.heightUnits <= 0 then NotPositive else NotMultiple);
  }

  lemma {:induction false} PlacementsFields(placements: seq<Placement>, n: nat)
    requires n <= |placements|
    ensures DistinctFields(PlacementsErrors(placements, n))
    ensures forall f | f in Fields(PlacementsErrors(placements, n)) :: exists i: nat | i < n :: Of(f, i)
  {
    if n > 0 {
      var before, more := PlacementsErrors(placements, n - 1), PlacementErrors(n - 1, placements[n - 1]);
      PlacementsFields(placements, n - 1);
      PlacementFields(n - 1, placements[n - 1]);
      forall f | f in Fields(before) && f in Fields(more)
        ensures false
      {
        var i: nat :| i < n - 1 && Of(f, i);
        PrefixInjective(f, i, n - 1);
      }
      Appended(before, more);
      FieldsAppended(before, more);
    }
  }

  /** No two errors of one request name the same field. */
  lemma NoFieldTwice(name: string, data: MapData)
    ensures DistinctFields(Errors(name, data))
  {
    var head, tail := HeadErrors(name, data), PlacementsErrors(data.placements, |data.placements|);
    HeadFields(name, data);
    PlacementsFields(data.placements, |data.placements|);
    forall f | f in Fields(tail)
      ensures f !in Fields(head)
    {
      var i: nat :| i < |data.placements| && Of(f, i);
    }
    Appended(head, tail);
  }

  // ---- A field is named exactly when its rule is broken ----

  predicate BrokenAt(index: nat, p: Placement, field: string) {
    || (field == Prefix(index) + ".id" && p.id == "")
    || (field == Prefix(index) + ".tileId" && p.tileID == "")
    || (field == Prefix(index) + ".x" && !OffsetOK(p.x))
    || (field == Prefix(index) + ".y" && !OffsetOK(p.y))
    || (field == Prefix(index) + ".rot" && !(MIN_ROTATION <= p.rot <= MAX_ROTATION))
  }

  ghost predicate Broken(name: string, data: MapData, field: string) {
    || (field == NAME_FIELD && !NameOK(name))
    || (field == SCHEMA_FIELD && !SchemaOK(data))
    || (field == WIDTH_FIELD && !SizeOK(data.widthUnits))
    || (field == HEIGHT_FIELD && !SizeOK(data.heightUnits))
    || SomeBroken(data.placements, |data.placements|, field)
  }

  /** One more report names one more field, if its rule is broken. */
  lemma Names(errors: seq<ValidationError>, named: bool, ok: bool, at: string, message: Message, field: string)
    requires field in Fields(errors) <==> named
    ensures field in Fields(errors + Report(ok, at, message)) <==> named || (field == at && !ok)
  {
    FieldsAppended(errors, Report(ok, at, message));
    if !ok {
      assert Report(ok, at, message)[0].field == at;
    }
  }

  lemma PlacementBroken(index: nat, p: Placement, field: string)
    ensures field in Fields(PlacementErrors(index, p)) <==> BrokenAt(index, p, field)
  {
    var q := Prefix(index);
    FiveNames(q + ".id", q + ".tileId", q + ".x", q + ".y", q + ".rot", p, field);
  }

  lemma FiveNames(id: string, tile: string, x: string, y: string, rot: string, p: Placement, field: string)
    ensures
      field in Fields(Report(p.id != "", id, EmptyID) + Report(p.tileID != "", tile, EmptyTileID)
                      + OffsetErrors(p.x, x) + OffsetErrors(p.y, y)
                      + Report(MIN_ROTATION <= p.rot <= MAX_ROTATION, rot, RotationRange))
      <==>
      || (field == id && p.id == "")
      || (field == tile && p.tileID == "")
      || (field == x && !OffsetOK(p.x))
      || (field == y && !OffsetOK(p.y))
      || (field == rot && !(MIN_ROTATION <= p.rot <= MAX_ROTATION))
  {
    var e1 := Report(p.id != "", id, EmptyID);
    var e2 := e1 + Report(p.tileID != "", tile, EmptyTileID);
    var e3 := e2 + OffsetErrors(p.x, x);
    var e4 := e3 + OffsetErrors(p.y, y);
    assert [] + e1 == e1;
    Names([], false, p.id != "", id, EmptyID, field);
    Names(e1, field in Fields(e1), p.tileID != "", tile, EmptyTileID, field);
    Names(e2, field in Fields(e2), OffsetOK(p.x), x, if p.x < 0 then Negative else NotMultiple, field);
    Names(e3, field in Fields(e3), OffsetOK(p.y), y, if p.y < 0 then Negative else NotMultiple, field);
    Names(e4, field in Fields(e4), MIN_ROTATION <= p.rot <= MAX_ROTATION, rot, RotationRange, field);
  }

  lemma HeadBroken(name: string, data: MapData, field: string)
    ensures field in Fields(HeadErrors(name, data)) <==>
      Broken(name, data.(placements := []), field)
  {
    var b1 := field == NAME_FIELD && !NameOK(name);
    var b2 := b1 || (field == SCHEMA_FIELD && !SchemaOK(data));
    var b3 := b2 || (field == WIDTH_FIELD && !SizeOK(data.widthUnits));
    var e1 := Report(NameOK(name), NAME_FIELD, NameLength);
    var e2 := e1 + Report(SchemaOK(data), SCHEMA_FIELD, SchemaVersion);
    var e3 := e2 + SizeErrors(data.widthUnits, WIDTH_FIELD);
    assert [] + e1 == e1;
    Names([], false, NameOK(name), NAME_FIELD, NameLength, field);
    Names(e1, b1, SchemaOK(data), SCHEMA_FIELD, SchemaVersion, field);
    Names(e2, b2, SizeOK(data.widthUnits), WIDTH_FIELD, if data.widthUnits <= 0 then NotPositive else NotMultiple,
          field);
    Names(e3, b3, SizeOK(data.heightUnits), HEIGHT_FIELD, if data.heightUnits <= 0 then NotPositive else NotMultiple,
          field);
  }

  ghost predicate SomeBroken(placements: seq<Placement>, n: nat, field: string)
    requires n <= |placements|
  {
    exists i | 0 <= i < n :: BrokenAt(i, placements[i], field)
  }

  lemma OneMoreBroken(placements: seq<Placement>, n: nat, field: string)
    requires n < |placements|
    ensures SomeBroken(placements, n + 1, field) <==>
      SomeBroken(placements, n, field) || BrokenAt(n, placements[n], field)
  {
  }

  lemma {:induction false} PlacementsBroken(placements: seq<Placement>, n: nat, field: string)
    requires n <= |placements|
    ensures field in Fields(PlacementsErrors(placements, n)) <==> SomeBroken(placements, n, field)
  {
    if n > 0 {
      var before, more := PlacementsErrors(placements, n - 1), PlacementErrors(n - 1, placements[n - 1]);
      PlacementsBroken(placements, n - 1, field);
      OneMoreBroken(placements, n - 1, field);
      assert field in Fields(more) <==> BrokenAt(n - 1, placements[n - 1], field) by {
        PlacementBroken(n - 1, placements[n - 1], field);
      }
      assert Fields(before + more) == Fields(before) + Fields(more) by {
        FieldsAppended(before, more);
      }
    }
  }

  /** The errors name exactly the fields whose rule is broken. */
  lemma FieldsNameBrokenRules(name: string, data: MapData, field: string)
    ensures field in Fields(Errors(name, data)) <==> Broken(name, data, field)
  {
    FieldsAppended(HeadErrors(name, data), PlacementsErrors(data.placements, |data.placements|));
    HeadBroken(name, data, field);
    PlacementsBroken(data.placements, |data.placements|, field);
  }

  // ---- The category is the highest broken class ----

  lemma CategoryOfPlacement(field: string, i: nat)
    requires Of(field, i)
    ensures CategoryOf(field).InvalidPlacement?
  {
    assert |Prefix(i)| > 15 && Prefix(i)[..15] == PLACEMENTS;
    assert field[..15] == PLACEMENTS;
    assert field[5] == 'p';
  }

  lemma {:induction false} CategorizeAppend(a: seq<ValidationError>, b: seq<ValidationError>)
    ensures Categorize(a + b) == if Categorize(a).BadRequest? then Categorize(b) else Categorize(a)
  {
    if a == [] {
      assert a + b == b;
    } else {
      assert (a + b)[1..] == a[1..] + b;
      CategorizeAppend(a[1..], b);
    }
  }

  lemma {:induction false} PlacementsCategory(errors: seq<ValidationError>)
    requires forall f | f in Fields(errors) :: exists i: nat :: Of(f, i)
    ensures Categorize(errors) == if errors == [] then BadRequest else InvalidPlacement
  {
    if errors != [] {
      assert errors[0].field in Fields(errors);
      var i: nat :| Of(errors[0].field, i);
      CategoryOfPlacement(errors[0].field, i);
    }
  }

  lemma HeadCategory(name: string, data: MapData)
    ensures Categorize(HeadErrors(name, data)) ==
      if !SchemaOK(data) then InvalidSchemaVersion else if !DimensionsOK(data) then InvalidDimensions else BadRequest
  {
    var e1 := Report(NameOK(name), NAME_FIELD, NameLength);
    var e2 := Report(SchemaOK(data), SCHEMA_FIELD, SchemaVersion);
    var e3, e4 := SizeErrors(data.widthUnits, WIDTH_FIELD), SizeErrors(data.heightUnits, HEIGHT_FIELD);
    CategorizeAppend(e1 + e2 + e3, e4);
    CategorizeAppend(e1 + e2, e3);
    CategorizeAppend(e1, e2);
    assert CategoryOf(NAME_FIELD).BadRequest? && CategoryOf(SCHEMA_FIELD).InvalidSchemaVersion?;
    assert CategoryOf(WIDTH_FIELD).InvalidDimensions? && CategoryOf(HEIGHT_FIELD).InvalidDimensions?;
  }

  /** The category of a request's errors is its highest broken class. */
  lemma HighestBrokenClass(name: string, data: MapData)
    ensures Categorize(Errors(name, data)) ==
      if !SchemaOK(data) then InvalidSchemaVersion
      else if !DimensionsOK(data) then InvalidDimensions
      else if !PlacementsOK(data) then InvalidPlacement
      else BadRequest
  {
    var head, tail := HeadErrors(name, data), PlacementsErrors(data.placements, |data.placements|);
    CategorizeAppend(head, tail);
    HeadCategory(name, data);
    PlacementsFields(data.placements, |data.placements|);
    PlacementsCategory(tail);
    PlacementsErrorsEmpty(data.placements, |data.placements|);
  }
}
