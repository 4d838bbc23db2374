/** The four-vehicle sample table of the engine's tests and the results the
    tests expect of it. Battery health is in tenths of a percent, so the
    test threshold of 90 percent is `Num(900)`.

    Each scenario is proved for any four rows that carry the sample's
    readings (`Sampled`), and `FleetSampled` shows the sample table itself
    is such a table. */
module Sample {
  import opened QueryTypes
  import opened Frames
  import opened Engine

  const VehicleId := "vehicle_id"
  const Timestamp := "timestamp"
  const Battery := "battery_health_percent"
  const Odometer := "odometer_km"

  function Vehicle(id: string, time: string, battery: int, odometer: int): Row {
    map[VehicleId := Str(id), Timestamp := Str(time), Battery := Num(battery), Odometer := Num(odometer)]
  }

  const Car040: Row := Vehicle("CAR040TYT7D5", "2024-11-22T13:00:00Z", 924, 36744)
  const Vin0466: Row := Vehicle("VIN0466HID25", "2024-11-21T15:00:00Z", 977, 87392)
  const Vin035: Row := Vehicle("VIN035O7UUBC", "2024-11-20T16:00:00Z", 946, 41831)
  const Car001: Row := Vehicle("CAR001DPBHSA", "2024-11-20T09:00:00Z", 774, 115326)

  const Fleet: seq<Row> := [Car040, Vin0466, Vin035, Car001]

  const FleetSchema: Schema := map[VehicleId := StrKind, Timestamp := StrKind, Battery := NumKind, Odometer := NumKind]

  /** The row carries the given vehicle id, battery reading and odometer. */
  predicate Readings(row: Row, id: string, battery: int, odometer: int) {
    VehicleId in row && row[VehicleId] == Str(id) &&
    Battery in row && row[Battery] == Num(battery) &&
    Odometer in row && row[Odometer] == Num(odometer)
  }

  /** Four rows with the readings of the sample table, in its order. */
  predicate Sampled(a: Row, b: Row, c: Row, d: Row) {
    Readings(a, "CAR040TYT7D5", 924, 36744) && Readings(b, "VIN0466HID25", 977, 87392) &&
    Readings(c, "VIN035O7UUBC", 946, 41831) && Readings(d, "CAR001DPBHSA", 774, 115326)
  }

  lemma VehicleCells(id: string, time: string, battery: int, odometer: int)
    ensures Vehicle(id, time, battery, odometer).Keys == FleetSchema.Keys
    ensures Readings(Vehicle(id, time, battery, odometer), id, battery, odometer)
  {
    assert |VehicleId| == 10 && |Timestamp| == 9 && |Battery| == 22 && |Odometer| == 11;
  }

  /** The sample table has the sample's readings and the schema's columns. */
  lemma FleetSampled()
    ensures Sampled(Fleet[0], Fleet[1], Fleet[2], Fleet[3])
    ensures forall r | r in Fleet :: r.Keys == FleetSchema.Keys
  {
    VehicleCells("CAR040TYT7D5", "2024-11-22T13:00:00Z", 924, 36744);
    VehicleCells("VIN0466HID25", "2024-11-21T15:00:00Z", 977, 87392);
    VehicleCells("VIN035O7UUBC", "2024-11-20T16:00:00Z", 946, 41831);
    VehicleCells("CAR001DPBHSA", "2024-11-20T09:00:00Z", 774, 115326);
  }

  /** The sample table is a well-formed table of the schema: every row has
      the four columns, each holding a value of the column's kind. */
  lemma FleetWellFormed()
    ensures WellFormed(FleetSchema, Fleet)
  {
    forall r | r in Fleet ensures r.Keys == FleetSchema.Keys && forall c | c in r :: KindOf(r[c]) == FleetSchema[c] {
      assert r == Car040 || r == Vin0466 || r == Vin035 || r == Car001;
      VehicleCells("CAR040TYT7D5", "2024-11-22T13:00:00Z", 924, 36744);
      VehicleCells("VIN0466HID25", "2024-11-21T15:00:00Z", 977, 87392);
      VehicleCells("VIN035O7UUBC", "2024-11-20T16:00:00Z", 946, 41831);
      VehicleCells("CAR001DPBHSA", "2024-11-20T09:00:00Z", 774, 115326);
    }
  }

  lemma ColumnNames()
    ensures FleetSchema.Keys == {VehicleId, Timestamp, Battery, Odometer}
    ensures FleetSchema[VehicleId] == StrKind && FleetSchema[Battery] == NumKind && FleetSchema[Odometer] == NumKind
    ensures "non_existent_col" !in FleetSchema && "random_col" !in FleetSchema
  {
    assert |VehicleId| == 10 && |Timestamp| == 9 && |Battery| == 22 && |Odometer| == 11;
    assert |"non_existent_col"| == 16 && |"random_col"| == 10;
    assert "random_col"[0] != VehicleId[0];
  }

  // ----- Steps of the filter stage over a concrete table -----

  lemma SelectKeep(s: seq<Row>, fs: seq<FilterCondition>, tail: seq<Row>)
    requires s != [] && SatisfiesAll(s[0], fs) && Select(s[1..], fs) == tail
    ensures Select(s, fs) == [s[0]] + tail
  {
  }

  lemma SelectDrop(s: seq<Row>, fs: seq<FilterCondition>, tail: seq<Row>)
    requires s != [] && !SatisfiesAll(s[0], fs) && Select(s[1..], fs) == tail
    ensures Select(s, fs) == tail
  {
  }

  lemma SatisfiesOne(row: Row, f: FilterCondition)
    ensures SatisfiesAll(row, [f]) <==> Satisfies(row, f)
  {
    assert [f][0] == f;
  }

  lemma SatisfiesTwo(row: Row, f: FilterCondition, g: FilterCondition)
    ensures SatisfiesAll(row, [f, g]) <==> Satisfies(row, f) && Satisfies(row, g)
  {
    assert [f, g][0] == f && [f, g][1] == g;
  }

  /** An intent without sort column or limit whose conditions can all be
      evaluated executes to the selected rows. */
  lemma ExecuteUnsorted(rows: seq<Row>, intent: QueryIntent)
    requires forall i | 0 <= i < |intent.filters| :: StepError(FleetSchema, intent.filters[i]).None?
    requires SortColumn(intent).None? && intent.limit.None?
    ensures Execute(FleetSchema, rows, intent) == Ok(Select(rows, intent.filters))
  {
  }

  // ----- Validation -----

  /** Existing filter and sort columns pass validation. */
  lemma ValidIntentScenario()
    ensures Validate(FleetSchema.Keys,
      QueryIntent("Test valid", [FilterCondition(Battery, GT, Num(900))], Some(Odometer))) == Pass
  {
    ColumnNames();
  }

  /** A missing filter column is reported by name. */
  lemma InvalidFilterColumnScenario()
    ensures Validate(FleetSchema.Keys,
      QueryIntent("Test invalid filter", [FilterCondition("non_existent_col", EQ, Num(10))]))
      == Fail(MissingFilterColumn("non_existent_col"))
  {
    ColumnNames();
  }

  /** A missing sort column is reported by name. */
  lemma InvalidSortColumnScenario()
    ensures Validate(FleetSchema.Keys, QueryIntent("Test invalid sort", sortBy := Some("random_col")))
      == Fail(MissingSortColumn("random_col"))
  {
    ColumnNames();
  }

  // ----- Filtering -----

  lemma FilterEqualScenario(a: Row, b: Row, c: Row, d: Row)
    requires Sampled(a, b, c, d)
    ensures Execute(FleetSchema, [a, b, c, d],
      QueryIntent("Filter equality", [FilterCondition(VehicleId, EQ, Str("CAR040TYT7D5"))])) == Ok([a])
  {
    ColumnNames();
    var t, fs := [a, b, c, d], [FilterCondition(VehicleId, EQ, Str("CAR040TYT7D5"))];
    SatisfiesOne(a, fs[0]);
    SatisfiesOne(b, fs[0]);
    SatisfiesOne(c, fs[0]);
    SatisfiesOne(d, fs[0]);
    assert "CAR040TYT7D5"[0] != "VIN0466HID25"[0] && "CAR040TYT7D5"[4] != "CAR001DPBHSA"[4];
    assert t[4..] == [];
    SelectDrop(t[3..], fs, []);
    SelectDrop(t[2..], fs, []);
    SelectDrop(t[1..], fs, []);
    SelectKeep(t, fs, []);
    assert [t[0]] + [] == [a];
    ExecuteUnsorted(t, QueryIntent("Filter equality", fs));
  }

  lemma FilterGreaterScenario(a: Row, b: Row, c: Row, d: Row)
    requires Sampled(a, b, c, d)
    ensures Execute(FleetSchema, [a, b, c, d],
      QueryIntent("Filter greater than", [FilterCondition(Battery, GT, Num(950))])) == Ok([b])
  {
    ColumnNames();
    var t, fs := [a, b, c, d], [FilterCondition(Battery, GT, Num(950))];
    SatisfiesOne(a, fs[0]);
    SatisfiesOne(b, fs[0]);
    SatisfiesOne(c, fs[0]);
    SatisfiesOne(d, fs[0]);
    assert t[4..] == [];
    SelectDrop(t[3..], fs, []);
    SelectDrop(t[2..], fs, []);
    SelectKeep(t[1..], fs, []);
    SelectDrop(t, fs, [b]);
    ExecuteUnsorted(t, QueryIntent("Filter greater than", fs));
  }

  lemma FilterAtMostScenario(a: Row, b: Row, c: Row, d: Row)
    requires Sampled(a, b, c, d)
    ensures Execute(FleetSchema, [a, b, c, d],
      QueryIntent("Filter less than or equal", [FilterCondition(Odometer, LTE, Num(41831))])) == Ok([a, c])
  {
    ColumnNames();
    var t, fs := [a, b, c, d], [FilterCondition(Odometer, LTE, Num(41831))];
    SatisfiesOne(a, fs[0]);
    SatisfiesOne(b, fs[0]);
    SatisfiesOne(c, fs[0]);
    SatisfiesOne(d, fs[0]);
    assert t[4..] == [];
    SelectDrop(t[3..], fs, []);
    SelectKeep(t[2..], fs, []);
    assert [t[2..][0]] + [] == [c];
    SelectDrop(t[1..], fs, [c]);
    SelectKeep(t, fs, [c]);
    assert [t[0]] + [c] == [a, c];
    ExecuteUnsorted(t, QueryIntent("Filter less than or equal", fs));
  }

  lemma FilterNotEqualScenario(a: Row, b: Row, c: Row, d: Row)
    requires Sampled(a, b, c, d)
    ensures Execute(FleetSchema, [a, b, c, d],
      QueryIntent("Filter not equal", [FilterCondition(VehicleId, NEQ, Str("CAR001DPBHSA"))])) == Ok([a, b, c])
  {
    ColumnNames();
    var t, fs := [a, b, c, d], [FilterCondition(VehicleId, NEQ, Str("CAR001DPBHSA"))];
    SatisfiesOne(a, fs[0]);
    SatisfiesOne(b, fs[0]);
    SatisfiesOne(c, fs[0]);
    SatisfiesOne(d, fs[0]);
    assert "CAR001DPBHSA"[4] != "CAR040TYT7D5"[4] && "CAR001DPBHSA"[0] != "VIN0466HID25"[0];
    assert "CAR001DPBHSA"[0] != "VIN035O7UUBC"[0];
    assert t[4..] == [];
    SelectDrop(t[3..], fs, []);
    SelectKeep(t[2..], fs, []);
    assert [t[2..][0]] + [] == [c];
    SelectKeep(t[1..], fs, [c]);
    assert [t[1..][0]] + [c] == [b, c];
    SelectKeep(t, fs, [b, c]);
    assert [t[0]] + [b, c] == [a, b, c];
    ExecuteUnsorted(t, QueryIntent("Filter not equal", fs));
  }

  /** Two conditions are AND-ed. */
  lemma MultipleFiltersScenario(a: Row, b: Row, c: Row, d: Row)
    requires Sampled(a, b, c, d)
    ensures Execute(FleetSchema, [a, b, c, d],
      QueryIntent("Multiple filters", [FilterCondition(Battery, GT, Num(900)), FilterCondition(Odometer, LT, Num(50000))]))
      == Ok([a, c])
  {
    ColumnNames();
    var t, fs := [a, b, c, d], [FilterCondition(Battery, GT, Num(900)), FilterCondition(Odometer, LT, Num(50000))];
    SatisfiesTwo(a, fs[0], fs[1]);
    SatisfiesTwo(b, fs[0], fs[1]);
    SatisfiesTwo(c, fs[0], fs[1]);
    SatisfiesTwo(d, fs[0], fs[1]);
    assert t[4..] == [];
    SelectDrop(t[3..], fs, []);
    SelectKeep(t[2..], fs, []);
    assert [t[2..][0]] + [] == [c];
    SelectDrop(t[1..], fs, [c]);
    SelectKeep(t, fs, [c]);
    assert [t[0]] + [c] == [a, c];
    ExecuteUnsorted(t, QueryIntent("Multiple filters", fs));
  }

  // ----- Sorting and truncation -----

  /** Row `i` of `t` comes strictly before every other row of `t` by `col`
      in the given direction. */
  predicate StrictlyFirst(t: seq<Row>, col: string, ascending: bool, i: nat) {
    i < |t| && forall k | 0 <= k < |t| && k != i :: !InOrder(Key(t[k], col), Key(t[i], col), ascending)
  }

  /** The sample's batteries, weakest to strongest, are rows 3, 0, 2, 1; its
      odometers, lowest to highest, are rows 0, 2, 1, 3. */
  lemma SampleOrders(t: seq<Row>)
    requires |t| == 4 && Sampled(t[0], t[1], t[2], t[3])
    ensures StrictlyFirst(t, Battery, true, 3) && StrictlyFirst(t, Battery, false, 1)
    ensures StrictlyFirst(t, Odometer, false, 3) && StrictlyFirst(t, Odometer, true, 0)
    ensures StrictlyFirst(t[..3], Odometer, true, 0) && StrictlyFirst(t[..3], Odometer, false, 1)
  {
  }

  /** A sorted permutation of `t` starts with the row of `t` that comes
      strictly before all others, and ends with the one that comes strictly
      after all others. */
  lemma SortedEnds(s: seq<Row>, t: seq<Row>, col: string, ascending: bool, first: nat, last: nat)
    requires multiset(s) == multiset(t) && SortedBy(s, col, ascending) && first < |t| && last < |t|
    requires StrictlyFirst(t, col, ascending, first) && StrictlyFirst(t, col, !ascending, last)
    ensures |s| == |t| && s[0] == t[first] && s[|s| - 1] == t[last]
  {
    assert |s| == |t| by {
      assert |multiset(s)| == |multiset(t)|;
    }
    assert t[first] in multiset(s) && t[last] in multiset(s);
    var i :| 0 <= i < |s| && s[i] == t[first];
    var j :| 0 <= j < |s| && s[j] == t[last];
    assert s[0] in multiset(t) && s[|s| - 1] in multiset(t);
    var m :| 0 <= m < |t| && t[m] == s[0];
    var n :| 0 <= n < |t| && t[n] == s[|s| - 1];
    InOrderTotal(Key(s[0], col), Key(s[0], col), Key(s[0], col), ascending);
    InOrderTotal(Key(s[|s| - 1], col), Key(s[|s| - 1], col), Key(s[|s| - 1], col), ascending);
    if i != 0 {
      assert InOrder(Key(s[0], col), Key(s[i], col), ascending);
    }
    if j != |s| - 1 {
      assert InOrder(Key(s[j], col), Key(s[|s| - 1], col), ascending);
    }
  }

  /** An intent without conditions that sorts by a column of the table and
      sets no limit executes to a sorted permutation of the table. */
  lemma ExecuteSortedOnly(rows: seq<Row>, intent: QueryIntent, col: string)
    requires intent.filters == [] && SortColumn(intent) == Some(col) && col in FleetSchema && intent.limit.None?
    ensures Execute(FleetSchema, rows, intent).Ok?
    ensures multiset(Execute(FleetSchema, rows, intent).value) == multiset(rows)
    ensures SortedBy(Execute(FleetSchema, rows, intent).value, col, intent.sortOrder == ASC)
  {
    SelectAllOfNone(rows);
  }

  /** Ascending by battery puts the weakest battery first and the strongest
      last. */
  lemma SortAscendingScenario(t: seq<Row>)
    requires |t| == 4 && Sampled(t[0], t[1], t[2], t[3])
    ensures var r := Execute(FleetSchema, t, QueryIntent("Sort ascending", sortBy := Some(Battery), sortOrder := ASC));
      r.Ok? && |r.value| == 4 && r.value[0] == t[3] && r.value[3] == t[1]
  {
    ColumnNames();
    SampleOrders(t);
    var intent := QueryIntent("Sort ascending", sortBy := Some(Battery), sortOrder := ASC);
    ExecuteSortedOnly(t, intent, Battery);
    SortedEnds(Execute(FleetSchema, t, intent).value, t, Battery, true, 3, 1);
  }

  /** Descending by odometer puts the highest mileage first and the lowest
      last. */
  lemma SortDescendingScenario(t: seq<Row>)
    requires |t| == 4 && Sampled(t[0], t[1], t[2], t[3])
    ensures var r := Execute(FleetSchema, t, QueryIntent("Sort descending", sortBy := Some(Odometer), sortOrder := DESC));
      r.Ok? && |r.value| == 4 && r.value[0] == t[3] && r.value[3] == t[0]
  {
    ColumnNames();
    SampleOrders(t);
    var intent := QueryIntent("Sort descending", sortBy := Some(Odometer), sortOrder := DESC);
    ExecuteSortedOnly(t, intent, Odometer);
    SortedEnds(Execute(FleetSchema, t, intent).value, t, Odometer, false, 3, 0);
  }

  /** A limit of two keeps the first two rows. */
  lemma LimitScenario(a: Row, b: Row, c: Row, d: Row)
    ensures Execute(FleetSchema, [a, b, c, d], QueryIntent("Test limit", limit := Some(2))) == Ok([a, b])
  {
    SelectAllOfNone([a, b, c, d]);
    assert [a, b, c, d][..2] == [a, b];
  }

  /** Batteries above 90% are those of the first three sample rows. */
  lemma GoodBatteries(t: seq<Row>)
    requires |t| == 4 && Sampled(t[0], t[1], t[2], t[3])
    ensures Select(t, [FilterCondition(Battery, GT, Num(900))]) == t[..3]
  {
    var fs := [FilterCondition(Battery, GT, Num(900))];
    SatisfiesOne(t[0], fs[0]);
    SatisfiesOne(t[1], fs[0]);
    SatisfiesOne(t[2], fs[0]);
    SatisfiesOne(t[3], fs[0]);
    assert t[4..] == [];
    SelectDrop(t[3..], fs, []);
    SelectKeep(t[2..], fs, []);
    SelectKeep(t[1..], fs, [t[2]]);
    SelectKeep(t, fs, [t[1], t[2]]);
  }

  /** Filter, ascending sort and a limit of one give the low-mileage vehicle
      with a good battery. */
  lemma CombinedScenario(t: seq<Row>)
    requires |t| == 4 && Sampled(t[0], t[1], t[2], t[3])
    ensures Execute(FleetSchema, t,
      QueryIntent("Complex query", [FilterCondition(Battery, GT, Num(900))], Some(Odometer), ASC, Some(1)))
      == Ok([t[0]])
  {
    ColumnNames();
    var fs := [FilterCondition(Battery, GT, Num(900))];
    var intent := QueryIntent("Complex query", fs, Some(Odometer), ASC, Some(1));
    GoodBatteries(t);
    var f := t[..3];
    SampleOrders(t);
    var s := SortRows(f, Odometer, true);
    SortedEnds(s, f, Odometer, true, 0, 1);
    assert StepError(FleetSchema, fs[0]).None?;
    assert ApplyFilters(FleetSchema, t, fs) == Ok(f);
    assert SortStage(FleetSchema, f, intent) == Ok(s);
    assert s[..1] == [t[0]];
  }

  /** The engine's test expectations on the sample table itself. */
  lemma SampleTableScenarios()
    ensures Execute(FleetSchema, Fleet,
      QueryIntent("Filter equality", [FilterCondition(VehicleId, EQ, Str("CAR040TYT7D5"))])) == Ok([Car040])
    ensures Execute(FleetSchema, Fleet,
      QueryIntent("Filter greater than", [FilterCondition(Battery, GT, Num(950))])) == Ok([Vin0466])
    ensures Execute(FleetSchema, Fleet,
      QueryIntent("Filter less than or equal", [FilterCondition(Odometer, LTE, Num(41831))])) == Ok([Car040, Vin035])
    ensures Execute(FleetSchema, Fleet,
      QueryIntent("Filter not equal", [FilterCondition(VehicleId, NEQ, Str("CAR001DPBHSA"))]))
      == Ok([Car040, Vin0466, Vin035])
    ensures Execute(FleetSchema, Fleet,
      QueryIntent("Multiple filters", [FilterCondition(Battery, GT, Num(900)), FilterCondition(Odometer, LT, Num(50000))]))
      == Ok([Car040, Vin035])
    ensures var r := Execute(FleetSchema, Fleet, QueryIntent("Sort ascending", sortBy := Some(Battery), sortOrder := ASC));
      r.Ok? && |r.value| == 4 && r.value[0] == Car001 && r.value[3] == Vin0466
    ensures var r := Execute(FleetSchema, Fleet, QueryIntent("Sort descending", sortBy := Some(Odometer), sortOrder := DESC));
      r.Ok? && |r.value| == 4 && r.value[0] == Car001 && r.value[3] == Car040
    ensures Execute(FleetSchema, Fleet, QueryIntent("Test limit", limit := Some(2))) == Ok([Car040, Vin0466])
    ensures Execute(FleetSchema, Fleet,
      QueryIntent("Complex query", [FilterCondition(Battery, GT, Num(900))], Some(Odometer), ASC, Some(1)))
      == Ok([Car040])
  {
    FleetSampled();
    FilterEqualScenario(Car040, Vin0466, Vin035, Car001);
    FilterGreaterScenario(Car040, Vin0466, Vin035, Car001);
    FilterAtMostScenario(Car040, Vin0466, Vin035, Car001);
    FilterNotEqualScenario(Car040, Vin0466, Vin035, Car001);
    MultipleFiltersScenario(Car040, Vin0466, Vin035, Car001);
    SortAscendingScenario(Fleet);
    SortDescendingScenario(Fleet);
    LimitScenario(Car040, Vin0466, Vin035, Car001);
    CombinedScenario(Fleet);
  }

  // ----- The engine on the sample table -----

  /** The engine of the tests' fixture: a frame over the sample table. */
  method SampleEngine() returns (engine: QueryEngine)
    ensures fresh(engine) && fresh(engine.data) && engine.Valid()
    ensures engine.data.schema == FleetSchema && engine.data.rows == Fleet
  {
    FleetWellFormed();
    var df := new DataFrame(FleetSchema, Fleet);
    engine := new QueryEngine(df);
  }

  /** The validation tests, run on the engine. */
  method ValidationOnEngine() returns (valid: Outcome<ValidationError>, badFilter: Outcome<ValidationError>,
                                       badSort: Outcome<ValidationError>)
    ensures valid == Pass
    ensures badFilter == Fail(MissingFilterColumn("non_existent_col"))
    ensures badSort == Fail(MissingSortColumn("random_col"))
  {
    var engine := SampleEngine();
    ValidIntentScenario();
    InvalidFilterColumnScenario();
    InvalidSortColumnScenario();
    valid := engine.ValidateQueryIntent(
      QueryIntent("Test valid", [FilterCondition(Battery, GT, Num(900))], Some(Odometer)));
    badFilter := engine.ValidateQueryIntent(
      QueryIntent("Test invalid filter", [FilterCondition("non_existent_col", EQ, Num(10))]));
    badSort := engine.ValidateQueryIntent(QueryIntent("Test invalid sort", sortBy := Some("random_col")));
  }

  /** The filtering tests, run on the engine: each result frame holds the
      rows the test expects, and the engine's own frame still holds the
      whole sample table afterwards. */
  method FilteringOnEngine() returns (equal: Result<DataFrame, ExecError>, greater: Result<DataFrame, ExecError>,
                                      atMost: Result<DataFrame, ExecError>, notEqual: Result<DataFrame, ExecError>,
                                      both: Result<DataFrame, ExecError>, rest: seq<Row>)
    ensures equal.Ok? && equal.value.rows == [Car040]
    ensures greater.Ok? && greater.value.rows == [Vin0466]
    ensures atMost.Ok? && atMost.value.rows == [Car040, Vin035]
    ensures notEqual.Ok? && notEqual.value.rows == [Car040, Vin0466, Vin035]
    ensures both.Ok? && both.value.rows == [Car040, Vin035]
    ensures rest == Fleet
  {
    var engine := SampleEngine();
    SampleTableScenarios();
    equal := engine.ExecuteQuery(
      QueryIntent("Filter equality", [FilterCondition(VehicleId, EQ, Str("CAR040TYT7D5"))]));
    greater := engine.ExecuteQuery(
      QueryIntent("Filter greater than", [FilterCondition(Battery, GT, Num(950))]));
    atMost := engine.ExecuteQuery(
      QueryIntent("Filter less than or equal", [FilterCondition(Odometer, LTE, Num(41831))]));
    notEqual := engine.ExecuteQuery(
      QueryIntent("Filter not equal", [FilterCondition(VehicleId, NEQ, Str("CAR001DPBHSA"))]));
    both := engine.ExecuteQuery(
      QueryIntent("Multiple filters", [FilterCondition(Battery, GT, Num(900)), FilterCondition(Odometer, LT, Num(50000))]));
    rest := engine.data.rows;
  }

  /** The sorting, limit and combined tests, run on the engine. */
  method SortingOnEngine() returns (ascending: Result<DataFrame, ExecError>, descending: Result<DataFrame, ExecError>,
                                    limited: Result<DataFrame, ExecError>, complex: Result<DataFrame, ExecError>,
                                    rest: seq<Row>)
    ensures ascending.Ok? && |ascending.value.rows| == 4
    ensures ascending.value.rows[0] == Car001 && ascending.value.rows[3] == Vin0466
    ensures descending.Ok? && |descending.value.rows| == 4
    ensures descending.value.rows[0] == Car001 && descending.value.rows[3] == Car040
    ensures limited.Ok? && limited.value.rows == [Car040, Vin0466]
    ensures complex.Ok? && complex.value.rows == [Car040]
    ensures rest == Fleet
  {
    var engine := SampleEngine();
    SampleTableScenarios();
    ascending := engine.ExecuteQuery(QueryIntent("Sort ascending", sortBy := Some(Battery), sortOrder := ASC));
    descending := engine.ExecuteQuery(QueryIntent("Sort descending", sortBy := Some(Odometer), sortOrder := DESC));
    limited := engine.ExecuteQuery(QueryIntent("Test limit", limit := Some(2)));
    complex := engine.ExecuteQuery(
      QueryIntent("Complex query", [FilterCondition(Battery, GT, Num(900))], Some(Odometer), ASC, Some(1)));
    rest := engine.data.rows;
  }
}
