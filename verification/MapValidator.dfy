/** Validation of map requests: an error list with one field per broken rule, and its category. */
module MapValidator {
  import opened Decimal

  const MIN_NAME_LENGTH: nat := 1
  const MAX_NAME_LENGTH: nat := 255
  const REQUIRED_SCHEMA: int := 1
  const MIN_ROTATION: int := 0
  const MAX_ROTATION: int := 3
  const UNITS_PER_TILE: int := 6

  datatype Placement = Placement(id: string, tileID: string, x: int, y: int, rot: int, layer: int)

  datatype MapData = MapData(schemaVersion: int, widthUnits: int, heightUnits: int, placements: seq<Placement>)

  /** One value for each message text. */
  datatype Message =
    | NameLength | SchemaVersion | NotPositive | Negative | NotMultiple
    | EmptyID | EmptyTileID | RotationRange

  datatype ValidationError = ValidationError(field: string, message: Message)

  const NAME_FIELD: string := "name"
  const SCHEMA_FIELD: string := "data.schemaVersion"
  const WIDTH_FIELD: string := "data.widthUnits"
  const HEIGHT_FIELD: string := "data.heightUnits"
  const PLACEMENTS: string := "data.placements"

  // ---- The rules; a name has one character for each byte ----

  predicate NameOK(name: string) {
    MIN_NAME_LENGTH <= |name| <= MAX_NAME_LENGTH
  }

  predicate SchemaOK(data: MapData) {
    data.schemaVersion == REQUIRED_SCHEMA
  }

  predicate SizeOK(units: int) {
    units > 0 && units % UNITS_PER_TILE == 0
  }

  predicate OffsetOK(units: int) {
    units >= 0 && units % UNITS_PER_TILE == 0
  }

  predicate PlacementOK(p: Placement) {
    p.id != "" && p.tileID != "" && OffsetOK(p.x) && OffsetOK(p.y) && MIN_ROTATION <= p.rot <= MAX_ROTATION
  }

  predicate DimensionsOK(data: MapData) {
    SizeOK(data.widthUnits) && SizeOK(data.heightUnits)
  }

  predicate PlacementsOK(data: MapData) {
    forall i | 0 <= i < |data.placements| :: PlacementOK(data.placements[i])
  }

  // ---- The error list ----

  function Report(ok: bool, field: string, message: Message): seq<ValidationError> {
    if ok then [] else [ValidationError(field, message)]
  }

  function SizeErrors(units: int, field: string): seq<ValidationError> {
    Report(SizeOK(units), field, if units <= 0 then NotPositive else NotMultiple)
  }

  function OffsetErrors(units: int, field: string): seq<ValidationError> {
    Report(OffsetOK(units), field, if units < 0 then Negative else NotMultiple)
  }

  function HeadErrors(name: string, data: MapData): seq<ValidationError> {
    Report(NameOK(name), NAME_FIELD, NameLength)
    + Report(SchemaOK(data), SCHEMA_FIELD, SchemaVersion)
    + SizeErrors(data.widthUnits, WIDTH_FIELD)
    + SizeErrors(data.heightUnits, HEIGHT_FIELD)
  }

  function Prefix(index: nat): string {
    PLACEMENTS + "[" + Itoa(index) + "]"
  }

  function PlacementErrors(index: nat, p: Placement): seq<ValidationError> {
    Report(p.id != "", Prefix(index) + ".id", EmptyID)
    + Report(p.tileID != "", Prefix(index) + ".tileId", EmptyTileID)
    + OffsetErrors(p.x, Prefix(index) + ".x")
    + OffsetErrors(p.y, Prefix(index) + ".y")
    + Report(MIN_ROTATION <= p.rot <= MAX_ROTATION, Prefix(index) + ".rot", RotationRange)
  }

  /** The errors of the first n placements. */
  function PlacementsErrors(placements: seq<Placement>, n: nat): seq<ValidationError>
    requires n <= |placements|
  {
    if n == 0 then [] else PlacementsErrors(placements, n - 1) + PlacementErrors(n - 1, placements[n - 1])
  }

  function Errors(name: string, data: MapData): seq<ValidationError> {
    HeadErrors(name, data) + PlacementsErrors(data.placements, |data.placements|)
  }

  // ---- The code ----

  method ValidatePlacement(index: nat, p: Placement) returns (errors: seq<ValidationError>)
    ensures errors == PlacementErrors(index, p)
  {
    errors := [];
    var prefix := Prefix(index);
    if p.id == "" {
      errors := errors + [ValidationError(prefix + ".id", EmptyID)];
    }
    ghost var e1 := Report(p.id != "", prefix + ".id", EmptyID);
    assert errors == e1;
    if p.tileID == "" {
      errors := errors + [ValidationError(prefix + ".tileId", EmptyTileID)];
    }
    ghost var e2 := e1 + Report(p.tileID != "", prefix + ".tileId", EmptyTileID);
    assert errors == e2;
    if p.x < 0 {
      errors := errors + [ValidationError(prefix + ".x", Negative)];
    } else if p.x % UNITS_PER_TILE != 0 {
      errors := errors + [ValidationError(prefix + ".x", NotMultiple)];
    }
    ghost var e3 := e2 + OffsetErrors(p.x, prefix + ".x");
    assert errors == e3;
    if p.y < 0 {
      errors := errors + [ValidationError(prefix + ".y", Negative)];
    } else if p.y % UNITS_PER_TILE != 0 {
      errors := errors + [ValidationError(prefix + ".y", NotMultiple)];
    }
    ghost var e4 := e3 + OffsetErrors(p.y, prefix + ".y");
    assert errors == e4;
    if p.rot < MIN_ROTATION || p.rot > MAX_ROTATION {
      errors := errors + [ValidationError(prefix + ".rot", RotationRange)];
    }
  }

  method ValidateMapRequest(name: string, data: MapData) returns (errors: seq<ValidationError>)
    ensures errors == Errors(name, data)
  {
    errors := [];
    if |name| < MIN_NAME_LENGTH || |name| > MAX_NAME_LENGTH {
      errors := errors + [ValidationError(NAME_FIELD, NameLength)];
    }
    ghost var e1 := Report(NameOK(name), NAME_FIELD, NameLength);
    assert errors == e1;
    if data.schemaVersion != REQUIRED_SCHEMA {
      errors := errors + [ValidationError(SCHEMA_FIELD, SchemaVersion)];
    }
    ghost var e2 := e1 + Report(SchemaOK(data), SCHEMA_FIELD, SchemaVersion);
    assert errors == e2;
    if data.widthUnits <= 0 {
      errors := errors + [ValidationError(WIDTH_FIELD, NotPositive)];
    } else if data.widthUnits % UNITS_PER_TILE != 0 {
      errors := errors + [ValidationError(WIDTH_FIELD, NotMultiple)];
    }
    ghost var e3 := e2 + SizeErrors(data.widthUnits, WIDTH_FIELD);
    assert errors == e3;
    if data.heightUnits <= 0 {
      errors := errors + [ValidationError(HEIGHT_FIELD, NotPositive)];
    } else if data.heightUnits % UNITS_PER_TILE != 0 {
      errors := errors + [ValidationError(HEIGHT_FIELD, NotMultiple)];
    }
    ghost var head := e3 + SizeErrors(data.heightUnits, HEIGHT_FIELD);
    assert errors == head + [];
    for i := 0 to |data.placements|
      invariant errors == head + PlacementsErrors(data.placements, i)
    {
      var placementErrors := ValidatePlacement(i, data.placements[i]);
      Associative(head, PlacementsErrors(data.placements, i), placementErrors);
      errors := errors + placementErrors;
    }
  }

  lemma Associative<T>(a: seq<T>, b: seq<T>, c: seq<T>)
    ensures (a + b) + c == a + (b + c)
  {
  }

  datatype Category = InvalidSchemaVersion | InvalidDimensions | InvalidPlacement | BadRequest

  function CategoryOf(field: string): Category {
    if field == SCHEMA_FIELD then InvalidSchemaVersion
    else if field == WIDTH_FIELD || field == HEIGHT_FIELD then InvalidDimensions
    else if |field| > 15 && field[..15] == PLACEMENTS then InvalidPlacement
    else BadRequest
  }

  function Categorize(errors: seq<ValidationError>): Category {
    if errors == [] then BadRequest
    else if !CategoryOf(errors[0].field).BadRequest? then CategoryOf(errors[0].field)
    else Categorize(errors[1..])
  }

  method CategorizeValidationErrors(errors: seq<ValidationError>) returns (c: Category)
    ensures c == Categorize(errors)
  {
    for i := 0 to |errors|
      invariant Categorize(errors) == Categorize(errors[i..])
    {
      var field := errors[i].field;
      if field == SCHEMA_FIELD {
        return InvalidSchemaVersion;
      }
      if field == WIDTH_FIELD || field == HEIGHT_FIELD {
        return InvalidDimensions;
      }
      if |field| > 15 && field[..15] == PLACEMENTS {
        return InvalidPlacement;
      }
      assert errors[i..][1..] == errors[i + 1..];
    }
    return BadRequest;
  }
}
