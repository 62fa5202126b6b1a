/** Which errors a request gets, with which messages and in which order. */
module MapValidatorErrors {
  import opened Decimal
  import opened MapValidator

  // ---- The messages ----

  predicate SaysSize(units: int, field: string, e: ValidationError) {
    || (e == ValidationError(field, NotPositive) && units <= 0)
    || (e == ValidationError(field, NotMultiple) && units > 0 && units % 6 != 0)
  }

  predicate SaysOffset(units: int, field: string, e: ValidationError) {
    || (e == ValidationError(field, Negative) && units < 0)
    || (e == ValidationError(field, NotMultiple) && units >= 0 && units % 6 != 0)
  }

  predicate SaysHead(name: string, data: MapData, e: ValidationError) {
    || (e == ValidationError("name", NameLength) && !(1 <= |name| <= 255))
    || (e == ValidationError("data.schemaVersion", SchemaVersion) && data.schemaVersion != 1)
    || SaysSize(data.widthUnits, "data.widthUnits", e)
    || SaysSize(data.heightUnits, "data.heightUnits", e)
  }

  function Place(index: nat): string {
    "data.placements[" + Itoa(index) + "]"
  }

  predicate SaysPlacement(index: nat, p: Placement, e: ValidationError) {
    || (e == ValidationError(Place(index) + ".id", EmptyID) && |p.id| == 0)
    || (e == ValidationError(Place(index) + ".tileId", EmptyTileID) && |p.tileID| == 0)
    || SaysOffset(p.x, Place(index) + ".x", e)
    || SaysOffset(p.y, Place(index) + ".y", e)
    || (e == ValidationError(Place(index) + ".rot", RotationRange) && !(0 <= p.rot <= 3))
  }

  ghost predicate SomePlacement(placements: seq<Placement>, n: nat, e: ValidationError)
    requires n <= |placements|
  {
    exists i | 0 <= i < n :: SaysPlacement(i, placements[i], e)
  }

  lemma PlacementSays(index: nat, p: Placement, e: ValidationError)
    ensures e in PlacementErrors(index, p) <==> SaysPlacement(index, p, e)
  {
    var q := Place(index);
    assert PLACEMENTS + "[" == "data.placements[";
    assert Prefix(index) == q;
    FiveSay(q + ".id", q + ".tileId", q + ".x", q + ".y", q + ".rot", p, e);
  }

  lemma FiveSay(id: string, tile: string, x: string, y: string, rot: string, p: Placement, e: ValidationError)
    ensures
      e in FiveReports(p, id, tile, x, y, rot)
      <==>
      || (e == ValidationError(id, EmptyID) && |p.id| == 0)
      || (e == ValidationError(tile, EmptyTileID) && |p.tileID| == 0)
      || SaysOffset(p.x, x, e)
      || SaysOffset(p.y, y, e)
      || (e == ValidationError(rot, RotationRange) && !(0 <= p.rot <= 3))
  {
    OffsetSays(p.x, x, e);
    OffsetSays(p.y, y, e);
  }

  lemma OffsetSays(units: int, field: string, e: ValidationError)
    ensures e in OffsetErrors(units, field) <==> SaysOffset(units, field, e)
  {
  }

  lemma {:induction false} PlacementsSay(placements: seq<Placement>, n: nat, e: ValidationError)
    requires n <= |placements|
    ensures e in PlacementsErrors(placements, n) <==> SomePlacement(placements, n, e)
  {
    if n > 0 {
      PlacementsSay(placements, n - 1, e);
      PlacementSays(n - 1, placements[n - 1], e);
      OneMoreSays(placements, n - 1, e);
    }
  }

  lemma OneMoreSays(placements: seq<Placement>, n: nat, e: ValidationError)
    requires n < |placements|
    ensures SomePlacement(placements, n + 1, e) <==>
      SomePlacement(placements, n, e) || SaysPlacement(n, placements[n], e)
  {
  }

  lemma HeadSays(name: string, data: MapData, e: ValidationError)
    ensures e in HeadErrors(name, data) <==> SaysHead(name, data, e)
  {
    FourSay(NAME_FIELD, SCHEMA_FIELD, WIDTH_FIELD, HEIGHT_FIELD, name, data, e);
  }

  lemma FourSay(a: string, b: string, c: string, d: string, name: string, data: MapData, e: ValidationError)
    ensures
      e in Report(NameOK(name), a, NameLength) + Report(SchemaOK(data), b, SchemaVersion)
           + SizeErrors(data.widthUnits, c) + SizeErrors(data.heightUnits, d)
      <==>
      || (e == ValidationError(a, NameLength) && !(1 <= |name| <= 255))
      || (e == ValidationError(b, SchemaVersion) && data.schemaVersion != 1)
      || SaysSize(data.widthUnits, c, e)
      || SaysSize(data.heightUnits, d, e)
  {
    SizeSays(data.widthUnits, c, e);
    SizeSays(data.heightUnits, d, e);
  }

  lemma SizeSays(units: int, field: string, e: ValidationError)
    ensures e in SizeErrors(units, field) <==> SaysSize(units, field, e)
  {
  }

  /** An error is in the list exactly when its field breaks the rule of its message. */
  lemma ErrorsExactly(name: string, data: MapData, e: ValidationError)
    ensures e in Errors(name, data) <==>
      SaysHead(name, data, e) || SomePlacement(data.placements, |data.placements|, e)
  {
    HeadSays(name, data, e);
    PlacementsSay(data.placements, |data.placements|, e);
  }

  // ---- The order ----

  /** All fields a request can have, in the order in which their errors come. */
  function FieldAt(rank: nat): string {
    if rank < 4 then HeadField(rank) else Prefix((rank - 4) / 5) + Suffix((rank - 4) % 5)
  }

  function HeadField(rank: nat): string {
    if rank == 0 then NAME_FIELD else if rank == 1 then SCHEMA_FIELD else if rank == 2 then WIDTH_FIELD
    else HEIGHT_FIELD
  }

  function Suffix(j: nat): string {
    if j == 0 then ".id" else if j == 1 then ".tileId" else if j == 2 then ".x" else if j == 3 then ".y" else ".rot"
  }

  lemma FieldOf(index: nat, j: nat)
    requires j < 5
    ensures FieldAt(4 + 5 * index + j) == Prefix(index) + Suffix(j)
  {
    DivMod(index, j);
  }

  lemma DivMod(index: nat, j: nat)
    requires j < 5
    ensures (4 + 5 * index + j - 4) / 5 == index && (4 + 5 * index + j - 4) % 5 == j
  {
  }

  /** ranks are increasing, from lo on and below hi, and name the errors' fields. */
  predicate Ranks(errors: seq<ValidationError>, ranks: seq<nat>, lo: nat, hi: nat) {
    && |ranks| == |errors|
    && (forall k | 0 <= k < |ranks| :: lo <= ranks[k] < hi && errors[k].field == FieldAt(ranks[k]))
    && (forall k, m | 0 <= k < m < |ranks| :: ranks[k] < ranks[m])
  }

  ghost predicate InOrder(errors: seq<ValidationError>, lo: nat, hi: nat) {
    lo <= hi && exists ranks :: Ranks(errors, ranks, lo, hi)
  }

  lemma InOrderAppended(a: seq<ValidationError>, b: seq<ValidationError>, lo: nat, mid: nat, hi: nat)
    requires InOrder(a, lo, mid) && InOrder(b, mid, hi)
    ensures InOrder(a + b, lo, hi)
  {
    var r :| Ranks(a, r, lo, mid);
    var q :| Ranks(b, q, mid, hi);
    assert Ranks(a + b, r + q, lo, hi);
  }

  lemma ReportInOrder(ok: bool, rank: nat, message: Message)
    ensures InOrder(Report(ok, FieldAt(rank), message), rank, rank + 1)
  {
    assert Ranks(Report(ok, FieldAt(rank), message), if ok then [] else [rank], rank, rank + 1);
  }

  lemma PlacementInOrder(index: nat, p: Placement)
    ensures InOrder(PlacementErrors(index, p), 4 + 5 * index, 4 + 5 * (index + 1))
  {
    var q := Prefix(index);
    assert PlacementErrors(index, p) == FiveReports(p, q + Suffix(0), q + Suffix(1), q + Suffix(2), q + Suffix(3),
                                                    q + Suffix(4));
    RanksInOrder(index, p);
  }

  function FiveReports(p: Placement, id: string, tile: string, x: string, y: string, rot: string): seq<ValidationError>
  {
    Report(p.id != "", id, EmptyID) + Report(p.tileID != "", tile, EmptyTileID)
    + OffsetErrors(p.x, x) + OffsetErrors(p.y, y)
    + Report(MIN_ROTATION <= p.rot <= MAX_ROTATION, rot, RotationRange)
  }

  lemma RanksInOrder(index: nat, p: Placement)
    ensures
      var q := Prefix(index);
      InOrder(FiveReports(p, q + Suffix(0), q + Suffix(1), q + Suffix(2), q + Suffix(3), q + Suffix(4)),
              4 + 5 * index, 4 + 5 * index + 5)
  {
    var q := Prefix(index);
    FieldOf(index, 0);
    FieldOf(index, 1);
    FieldOf(index, 2);
    FieldOf(index, 3);
    FieldOf(index, 4);
    FiveInOrder(4 + 5 * index, p, q + Suffix(0), q + Suffix(1), q + Suffix(2), q + Suffix(3), q + Suffix(4));
  }

  lemma FiveInOrder(base: nat, p: Placement, id: string, tile: string, x: string, y: string, rot: string)
    requires FieldAt(base) == id && FieldAt(base + 1) == tile && FieldAt(base + 2) == x && FieldAt(base + 3) == y
    requires FieldAt(base + 4) == rot
    ensures InOrder(FiveReports(p, id, tile, x, y, rot), base, base + 5)
  {
    var e1, e2 := Report(p.id != "", id, EmptyID), Report(p.tileID != "", tile, EmptyTileID);
    var e3, e4 := OffsetErrors(p.x, x), OffsetErrors(p.y, y);
    var e5 := Report(MIN_ROTATION <= p.rot <= MAX_ROTATION, rot, RotationRange);
    ReportInOrder(p.id != "", base, EmptyID);
    ReportInOrder(p.tileID != "", base + 1, EmptyTileID);
    ReportInOrder(OffsetOK(p.x), base + 2, if p.x < 0 then Negative else NotMultiple);
    ReportInOrder(OffsetOK(p.y), base + 3, if p.y < 0 then Negative else NotMultiple);
    ReportInOrder(MIN_ROTATION <= p.rot <= MAX_ROTATION, base + 4, RotationRange);
    InOrderAppended(e1, e2, base, base + 1, base + 2);
    InOrderAppended(e1 + e2, e3, base, base + 2, base + 3);
    InOrderAppended(e1 + e2 + e3, e4, base, base + 3, base + 4);
    InOrderAppended(e1 + e2 + e3 + e4, e5, base, base + 4, base + 5);
  }

  lemma {:induction false} PlacementsInOrder(placements: seq<Placement>, n: nat)
    requires n <= |placements|
    ensures InOrder(PlacementsErrors(placements, n), 4, 4 + 5 * n)
  {
    if n == 0 {
      assert Ranks([], [], 4, 4);
    } else {
      PlacementsInOrder(placements, n - 1);
      PlacementInOrder(n - 1, placements[n - 1]);
      InOrderAppended(PlacementsErrors(placements, n - 1), PlacementErrors(n - 1, placements[n - 1]),
                      4, 4 + 5 * (n - 1), 4 + 5 * n);
    }
  }

  lemma HeadInOrder(name: string, data: MapData)
    ensures InOrder(HeadErrors(name, data), 0, 4)
  {
    var e1, e2 := Report(NameOK(name), FieldAt(0), NameLength), Report(SchemaOK(data), FieldAt(1), SchemaVersion);
    var e3, e4 := SizeErrors(data.widthUnits, FieldAt(2)), SizeErrors(data.heightUnits, FieldAt(3));
    ReportInOrder(NameOK(name), 0, NameLength);
    ReportInOrder(SchemaOK(data), 1, SchemaVersion);
    ReportInOrder(SizeOK(data.widthUnits), 2, if data.widthUnits <= 0 then NotPositive else NotMultiple);
    ReportInOrder(SizeOK(data.heightUnits), 3, if data.heightUnits <= 0 then NotPositive else NotMultiple);
    InOrderAppended(e1, e2, 0, 1, 2);
    InOrderAppended(e1 + e2, e3, 0, 2, 3);
    InOrderAppended(e1 + e2 + e3, e4, 0, 3, 4);
  }

  /** The errors come in the order of their fields: the head's four, then each placement's five. */
  lemma ErrorsInOrder(name: string, data: MapData)
    ensures InOrder(Errors(name, data), 0, 4 + 5 * |data.placements|)
  {
    HeadInOrder(name, data);
    PlacementsInOrder(data.placements, |data.placements|);
    InOrderAppended(HeadErrors(name, data), PlacementsErrors(data.placements, |data.placements|),
                    0, 4, 4 + 5 * |data.placements|);
  }
}
