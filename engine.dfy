/**
  The emissions engine of class `LFG` (lfg_calc_py/lfg_calc_py.py): the
  first-order-decay form of LandGEM and the IPCC 2006 Guidelines (Volume 5,
  Chapter 3) evaluated on a grid of (operation year, input year) pairs, with
  a collection-efficiency schedule held flat after operation year 15, and
  the generated, captured and emitted methane summed per operation year and
  material.

  The method file is the `Config` record: a key the file lacks is `None`. The
  two CSV tables the engine reads are the `Inputs`; `exp` is a parameter.
*/
module LfgEngine {
  import opened Wrappers
  import opened YearRanges
  import opened WasteRates
  import opened Frames
  import Text
  import opened ColumnLabels

  /** The keys of the method file the engine reads. */
  datatype Config = Config(
    wasteAcceptanceRate: Option<seq<(Key, real)>>,
    materialRatios: Option<Dict<real>>,
    calcYear: Option<int>,
    landfillClose: Option<int>,
    landfillLifespan: Option<int>,
    materialDecayRates: Option<Dict<real>>,
    defaultDecayRates: Option<string>,
    moistureConditions: Option<string>,
    lfgCollectionScenario: Option<string>,
    methaneFraction: Option<real>,
    degradableOrganicCarbon: Option<real>,
    degradableOrganicCarbonFraction: Option<real>,
    methaneContent: Option<real>,
    methaneOxidationFraction: Option<real>,
    unit: Option<string>)

  /** The method file `{}`. */
  const EmptyConfig := Config(None, None, None, None, None, None, None, None, None, None, None, None, None, None, None)

  /** A row of the Barlaz decay-rate table. */
  datatype DecayRateRow = DecayRateRow(material: string, moistureConditions: string, decayRate: real)

  /** A row of the table of collection efficiencies by scenario and operation year. */
  datatype CollectionRow = CollectionRow(scenario: string, year: int, efficiency: real)

  /** The contents of the two CSV files the engine reads. */
  datatype Inputs = Inputs(barlazDecayRates: seq<DecayRateRow>, collectionEfficiencies: seq<CollectionRow>)

  // ---------------------------------------------------------------- decay rates

  /**
    `load_default_decay_rates`: the Barlaz table; any other source leaves
    `path` unbound (the IPCC branch is commented out).
  */
  function LoadDefaultDecayRates(source: Option<string>, barlaz: seq<DecayRateRow>): (r: Result<seq<DecayRateRow>>)
    ensures r.Ok? <==> source == Some("Barlaz")
    ensures r.Err? ==> r.error == UnboundLocalError
  {
    if source == Some("Barlaz") then Ok(barlaz) else Err(UnboundLocalError)
  }

  /** `.query("Landfill_Moisture_Conditions == '<moisture_conditions>'")` */
  function RowsForMoisture(rows: seq<DecayRateRow>, moisture: Option<string>): (r: seq<DecayRateRow>)
    ensures forall row :: row in r <==> row in rows && moisture == Some(row.moistureConditions)
  {
    if rows == [] then []
    else
      assert rows == [rows[0]] + rows[1..];
      (if moisture == Some(rows[0].moistureConditions) then [rows[0]] else []) + RowsForMoisture(rows[1..], moisture)
  }

  /** The decay rate of the first row for `material`; an IndexError when there is none. */
  function FirstDecayRate(rows: seq<DecayRateRow>, material: string): (r: Result<real>)
    ensures r.Ok? <==> exists row :: row in rows && row.material == material
    ensures r.Err? ==> r.error == IndexError
  {
    if rows == [] then Err(IndexError)
    else if rows[0].material == material then Ok(rows[0].decayRate)
    else
      assert rows == [rows[0]] + rows[1..];
      FirstDecayRate(rows[1..], material)
  }

  /**
    `return_material_decay_rates`: the method file's own `material_decay_rates`
    when it has that key, else the default table filtered by the moisture condition.
  */
  function DecayRate(c: Config, barlaz: seq<DecayRateRow>, material: string): Result<real> {
    if c.materialDecayRates.Some? then LocFirst(c.materialDecayRates.value, material)
    else
      var rows :- LoadDefaultDecayRates(c.defaultDecayRates, barlaz);
      FirstDecayRate(RowsForMoisture(rows, c.moistureConditions), material)
  }

  /**
    The method file's decay rates take precedence: with them the default
    table and its source are never consulted; without them only the Barlaz
    source works, and it finds a rate exactly when a row for the material has
    the configured moisture condition.
  */
  lemma DecayRatePrecedence(c: Config, barlaz: seq<DecayRateRow>, material: string)
    ensures c.materialDecayRates.Some? ==>
      && DecayRate(c, barlaz, material) == LocFirst(c.materialDecayRates.value, material)
      && DecayRate(c, barlaz, material) == DecayRate(c.(defaultDecayRates := None), [], material)
    ensures c.materialDecayRates.None? && c.defaultDecayRates != Some("Barlaz") ==>
      DecayRate(c, barlaz, material) == Err(UnboundLocalError)
    ensures c.materialDecayRates.None? && c.defaultDecayRates == Some("Barlaz") ==>
      (DecayRate(c, barlaz, material).Ok?
       <==> exists row :: row in barlaz && row.material == material && c.moistureConditions == Some(row.moistureConditions))
  {
    if c.materialDecayRates.None? && c.defaultDecayRates == Some("Barlaz") {
      var rows := RowsForMoisture(barlaz, c.moistureConditions);
      if DecayRate(c, barlaz, material).Ok? {
        var row :| row in rows && row.material == material;
        assert row in barlaz;
      }
    }
  }

  // ---------------------------------------------------------------- collection efficiencies

  /** A row of the collection schedule: an operation year and its efficiency. */
  datatype ScheduleRow = ScheduleRow(operationYear: int, efficiency: real)

  /** The efficiency of the first row for `year`; an IndexError when there is none. */
  function FirstEfficiency(rows: seq<CollectionRow>, year: int): (r: Result<real>)
    ensures r.Ok? <==> exists row :: row in rows && row.year == year
    ensures r.Ok? ==> CollectionRow(rows[FirstYearIndex(rows, year)].scenario, year, r.value) in rows
    ensures r.Err? ==> r.error == IndexError
  {
    var i := FirstYearIndex(rows, year);
    if i == |rows| then Err(IndexError) else Ok(rows[i].efficiency)
  }

  function FirstYearIndex(rows: seq<CollectionRow>, year: int): (i: nat)
    ensures i <= |rows|
    ensures i < |rows| ==> rows[i].year == year
    ensures forall j :: 0 <= j < i ==> rows[j].year != year
  {
    if rows == [] then 0
    else if rows[0].year == year then 0
    else 1 + FirstYearIndex(rows[1..], year)
  }

  /**
    `return_annual_lfg_collection_efficiency(y)`: the efficiency listed for
    operation year y up to 15, the one listed for year 15 after that.
  */
  function AnnualEfficiency(rows: seq<CollectionRow>, y: int): (r: Result<real>)
    ensures y <= 15 ==> r == FirstEfficiency(rows, y)
    ensures y > 15 ==> r == FirstEfficiency(rows, 15)
    ensures r.Ok? <==> exists row :: row in rows && row.year == (if y <= 15 then y else 15)
    ensures r.Err? ==> r.error == IndexError
  {
    if y <= 15 then FirstEfficiency(rows, y) else FirstEfficiency(rows, 15)
  }

  /** `.query("Scenario == '<LFG_collection_scenario>'")` */
  function ScenarioRows(rows: seq<CollectionRow>, scenario: Option<string>): (r: seq<CollectionRow>)
    ensures forall row :: row in r <==> row in rows && scenario == Some(row.scenario)
  {
    if rows == [] then []
    else
      assert rows == [rows[0]] + rows[1..];
      (if scenario == Some(rows[0].scenario) then [rows[0]] else []) + ScenarioRows(rows[1..], scenario)
  }

  /** The scenario's rows as schedule rows, in their order. */
  function ScheduleOf(rows: seq<CollectionRow>): (r: seq<ScheduleRow>)
    ensures |r| == |rows|
    ensures forall i :: 0 <= i < |rows| ==> r[i] == ScheduleRow(rows[i].year, rows[i].efficiency)
  {
    if rows == [] then [] else [ScheduleRow(rows[0].year, rows[0].efficiency)] + ScheduleOf(rows[1..])
  }

  /** `added_years`: the operation years 16..lifespan, each with the year-15 efficiency. */
  function AddedYears(lifespan: int, efficiency15: real): (r: seq<ScheduleRow>)
    ensures |r| == if lifespan < 16 then 0 else lifespan - 15
    ensures forall i :: 0 <= i < |r| ==> r[i] == ScheduleRow(16 + i, efficiency15)
  {
    if lifespan < 16 then [] else AddedYears(lifespan - 1, efficiency15) + [ScheduleRow(lifespan, efficiency15)]
  }

  /**
    The collection schedule: the configured scenario's rows followed by the
    added years. A missing `landfill_lifespan` is a TypeError in `range`, and a
    scenario without a year-15 row an IndexError.
  */
  function CollectionSchedule(rows: seq<CollectionRow>, scenario: Option<string>, lifespan: Option<int>): Result<seq<ScheduleRow>> {
    var scenarioRows := ScenarioRows(rows, scenario);
    var last :- if lifespan.None? then Err(TypeError) else Ok(lifespan.value);
    var efficiency15 :- FirstEfficiency(scenarioRows, 15);
    Ok(ScheduleOf(scenarioRows) + AddedYears(last, efficiency15))
  }

  /** The efficiencies the schedule lists for operation year y, in order. */
  function EfficienciesFor(schedule: seq<ScheduleRow>, y: int): (r: seq<real>)
    ensures |r| <= |schedule|
  {
    if schedule == [] then []
    else (if schedule[0].operationYear == y then [schedule[0].efficiency] else []) + EfficienciesFor(schedule[1..], y)
  }

  lemma {:induction false} EfficienciesForAppend(a: seq<ScheduleRow>, b: seq<ScheduleRow>, y: int)
    ensures EfficienciesFor(a + b, y) == EfficienciesFor(a, y) + EfficienciesFor(b, y)
  {
    if a != [] {
      EfficienciesForAppend(a[1..], b, y);
      assert (a + b)[1..] == a[1..] + b;
    } else {
      assert a + b == b;
    }
  }

  lemma {:induction false} AddedYearsEfficiencies(lifespan: int, efficiency15: real, y: int)
    ensures EfficienciesFor(AddedYears(lifespan, efficiency15), y) == if 16 <= y <= lifespan then [efficiency15] else []
    decreases lifespan
  {
    if lifespan >= 16 {
      AddedYearsEfficiencies(lifespan - 1, efficiency15, y);
      EfficienciesForAppend(AddedYears(lifespan - 1, efficiency15), [ScheduleRow(lifespan, efficiency15)], y);
    }
  }

  /**
    The schedule keeps the efficiencies the scenario lists for every year and
    adds, for each operation year 16..lifespan, the efficiency the lookup
    helper answers for it: the year-15 value.
  */
  lemma ScheduleFlatAfter15(rows: seq<CollectionRow>, scenario: Option<string>, lifespan: Option<int>, y: int)
    requires CollectionSchedule(rows, scenario, lifespan).Ok?
    ensures var scenarioRows := ScenarioRows(rows, scenario);
      && lifespan.Some?
      && (AnnualEfficiency(scenarioRows, y).Ok? <==> (y <= 15 ==> exists row :: row in scenarioRows && row.year == y))
      && EfficienciesFor(CollectionSchedule(rows, scenario, lifespan).value, y)
         == EfficienciesFor(ScheduleOf(scenarioRows), y)
            + (if 16 <= y <= lifespan.value then [AnnualEfficiency(scenarioRows, y).value] else [])
  {
    var scenarioRows := ScenarioRows(rows, scenario);
    var efficiency15 := FirstEfficiency(scenarioRows, 15).value;
    EfficienciesForAppend(ScheduleOf(scenarioRows), AddedYears(lifespan.value, efficiency15), y);
    AddedYearsEfficiencies(lifespan.value, efficiency15, y);
  }

  // ---------------------------------------------------------------- the vintage grid

  /**
    A row of the exploded grid: its calendar year, its operation year and its
    input-year index, which is NaN (`None`) on the single row of operation year 0.
  */
  datatype GridRow = GridRow(year: int, operationYear: int, inputYearIndex: Option<int>)

  /** The row pairing operation year y with input index i. */
  function VintageRow(yearInit: int, y: int, i: int): GridRow {
    GridRow(yearInit + y, y, Some(i))
  }

  /** The rows `explode` makes of operation year y: one per input index 0..y-1, or one NaN row when y is 0. */
  function VintageRows(yearInit: int, y: nat): (r: seq<GridRow>)
    ensures |r| == if y == 0 then 1 else y
  {
    if y == 0 then [GridRow(yearInit, 0, None)]
    else seq(y, i requires 0 <= i < y => VintageRow(yearInit, y, i))
  }

  /** `df2`: the rows of operation years 0..n-1, in order. */
  function Grid(yearInit: int, n: int): seq<GridRow>
    decreases n
  {
    if n <= 0 then [] else Grid(yearInit, n - 1) + VintageRows(yearInit, n - 1)
  }

  /** `yearDiff`: the operation year minus the input index, with NaN filled as 0. */
  function YearDiff(row: GridRow): int {
    match row.inputYearIndex
    case None => 0
    case Some(i) => row.operationYear - i
  }

  /** A row the grid may hold for horizon n. */
  predicate GridRowShape(yearInit: int, n: int, row: GridRow) {
    && 0 <= row.operationYear < n
    && row.year == yearInit + row.operationYear
    && (row.inputYearIndex.None? <==> row.operationYear == 0)
    && (row.inputYearIndex.Some? ==> 0 <= row.inputYearIndex.value < row.operationYear
                                     && 1 <= YearDiff(row) <= row.operationYear)
  }

  /**
    The grid pairs each operation year y in [0, n) with the input indices
    0..y-1 only, so `yearDiff` lies in [1, y]; operation year 0 has its one
    NaN row; every row's calendar year is `year_init` plus its operation year.
  */
  lemma {:induction false} GridShape(yearInit: int, n: int)
    ensures forall row :: row in Grid(yearInit, n) ==> GridRowShape(yearInit, n, row)
    decreases n
  {
    if n > 0 {
      GridShape(yearInit, n - 1);
      var v := VintageRows(yearInit, n - 1);
      forall row | row in v
        ensures GridRowShape(yearInit, n, row)
      {
      }
    }
  }

  /** The row of operation year y and input index i lies in the grid of every n above y. */
  lemma {:induction false} GridHasVintage(yearInit: int, n: int, y: int, i: int)
    requires 0 <= i < y < n
    ensures VintageRow(yearInit, y, i) in Grid(yearInit, n)
    decreases n
  {
    var before := Grid(yearInit, n - 1);
    var v := VintageRows(yearInit, n - 1);
    assert Grid(yearInit, n) == before + v;
    if y == n - 1 {
      assert v[i] == VintageRow(yearInit, y, i);
      assert (before + v)[|before| + i] == v[i];
    } else {
      GridHasVintage(yearInit, n - 1, y, i);
      var k :| 0 <= k < |before| && before[k] == VintageRow(yearInit, y, i);
      assert (before + v)[k] == before[k];
    }
  }

  /** The NaN row of operation year 0 lies in every non-empty grid. */
  lemma {:induction false} GridHasFirstYear(yearInit: int, n: int)
    requires n > 0
    ensures GridRow(yearInit, 0, None) in Grid(yearInit, n)
    decreases n
  {
    var before := Grid(yearInit, n - 1);
    var v := VintageRows(yearInit, n - 1);
    assert Grid(yearInit, n) == before + v;
    if n == 1 {
      assert (before + v)[|before|] == v[0];
    } else {
      GridHasFirstYear(yearInit, n - 1);
      var k :| 0 <= k < |before| && before[k] == GridRow(yearInit, 0, None);
      assert (before + v)[k] == before[k];
    }
  }

  /** Every pair of an operation year y in [0, n) and an input index below y is a row of the grid, as is the NaN row of year 0. */
  lemma GridComplete(yearInit: int, n: int)
    ensures forall y, i :: 0 <= i < y < n ==> VintageRow(yearInit, y, i) in Grid(yearInit, n)
    ensures n > 0 ==> GridRow(yearInit, 0, None) in Grid(yearInit, n)
  {
    forall y, i | 0 <= i < y < n
      ensures VintageRow(yearInit, y, i) in Grid(yearInit, n)
    {
      GridHasVintage(yearInit, n, y, i);
    }
    if n > 0 {
      GridHasFirstYear(yearInit, n);
    }
  }

  // ---------------------------------------------------------------- generation

  /** The factors the generation multiplies by. */
  datatype Factors = Factors(methaneFraction: real, degradableOrganicCarbon: real,
                             degradableOrganicCarbonFraction: real, methaneContent: real)

  /** A configured factor, or 0 where the method file lacks it. */
  function OrZero(o: Option<real>): real {
    if o.Some? then o.value else 0.0
  }

  /**
    The factors of the generation product over a grid of the operation years
    below `t`. Multiplying a non-empty column by a key the method file lacks
    (None) raises TypeError; over the empty grid of `t <= 0` the product runs
    over no rows and raises nothing, and no row reads the factor.
  */
  function FactorsOf(c: Config, t: int): (r: Result<Factors>)
    ensures r.Ok? <==> t <= 0 || (c.methaneFraction.Some? && c.degradableOrganicCarbon.Some?
                                  && c.degradableOrganicCarbonFraction.Some? && c.methaneContent.Some?)
    ensures r.Err? ==> r.error == TypeError
    ensures r.Ok? && c.methaneFraction.Some? ==> r.value.methaneFraction == c.methaneFraction.value
    ensures r.Ok? && c.degradableOrganicCarbon.Some? ==> r.value.degradableOrganicCarbon == c.degradableOrganicCarbon.value
    ensures r.Ok? && c.degradableOrganicCarbonFraction.Some? ==>
      r.value.degradableOrganicCarbonFraction == c.degradableOrganicCarbonFraction.value
    ensures r.Ok? && c.methaneContent.Some? ==> r.value.methaneContent == c.methaneContent.value
  {
    if t > 0 && !(c.methaneFraction.Some? && c.degradableOrganicCarbon.Some?
                  && c.degradableOrganicCarbonFraction.Some? && c.methaneContent.Some?)
    then Err(TypeError)
    else Ok(Factors(OrZero(c.methaneFraction), OrZero(c.degradableOrganicCarbon),
                    OrZero(c.degradableOrganicCarbonFraction), OrZero(c.methaneContent)))
  }

  /** `exp(-k * (yearDiff - 1)) - exp(-k * yearDiff)`: the share of a vintage that decays in one year. */
  function DecayDifference(exp: real -> real, k: real, d: int): real {
    exp(-k * (d - 1) as real) - exp(-k * d as real)
  }

  /** `methane_generated` of one grid row. */
  function Generation(ratio: real, waste: real, f: Factors, exp: real -> real, k: real, d: int): real {
    ratio * waste * f.methaneFraction * f.degradableOrganicCarbon * f.degradableOrganicCarbonFraction
      * f.methaneContent * 16.0 / 12.0 * DecayDifference(exp, k, d)
  }

  /** What the loop body needs for one material. */
  datatype MaterialParameters = MaterialParameters(ratio: real, factors: Factors, k: real, oxidation: real)

  /**
    The waste a grid row asks for: `return_waste_acceptance` at its input year;
    the NaN input year of operation year 0 matches no row.
  */
  function WasteOf(subset: Rows, yearInit: int, row: GridRow): real {
    match row.inputYearIndex
    case None => 0.0
    case Some(i) => Acceptance(subset, yearInit + i)
  }

  function RowGeneration(subset: Rows, yearInit: int, exp: real -> real, m: MaterialParameters, row: GridRow): real {
    Generation(m.ratio, WasteOf(subset, yearInit, row), m.factors, exp, m.k, YearDiff(row))
  }

  /** The generation of each grid row of operation year y, in order. */
  function VintageGenerations(subset: Rows, yearInit: int, exp: real -> real, m: MaterialParameters, y: nat): (r: seq<real>)
    ensures |r| == |VintageRows(yearInit, y)|
  {
    var rows := VintageRows(yearInit, y);
    seq(|rows|, i requires 0 <= i < |rows| => RowGeneration(subset, yearInit, exp, m, rows[i]))
  }

  function Sum(xs: seq<real>): real {
    if xs == [] then 0.0 else Sum(xs[..|xs| - 1]) + xs[|xs| - 1]
  }

  // ---------------------------------------------------------------- merge and group

  /** `g` once for each efficiency row it is merged with. */
  function Repeated(g: real, effs: seq<real>): real {
    if effs == [] then 0.0 else Repeated(g, effs[..|effs| - 1]) + g
  }

  /** `g * efficiency` for each efficiency row it is merged with. */
  function Scaled(g: real, effs: seq<real>): real {
    if effs == [] then 0.0 else Scaled(g, effs[..|effs| - 1]) + g * effs[|effs| - 1]
  }

  /** The grouped `methane_generated`: the sum over the merged (grid row, efficiency row) pairs. */
  function MergedGenerated(gens: seq<real>, effs: seq<real>): real {
    if gens == [] then 0.0 else MergedGenerated(gens[..|gens| - 1], effs) + Repeated(gens[|gens| - 1], effs)
  }

  /** The grouped `methane_captured`: the sum of `methane_generated * Efficiency` over the merged pairs. */
  function MergedCaptured(gens: seq<real>, effs: seq<real>): real {
    if gens == [] then 0.0 else MergedCaptured(gens[..|gens| - 1], effs) + Scaled(gens[|gens| - 1], effs)
  }

  lemma {:induction false} RepeatedIsProduct(g: real, effs: seq<real>)
    ensures Repeated(g, effs) == |effs| as real * g
  {
    if effs != [] {
      RepeatedIsProduct(g, effs[..|effs| - 1]);
    }
  }

  lemma {:induction false} ScaledIsProduct(g: real, effs: seq<real>)
    ensures Scaled(g, effs) == g * Sum(effs)
  {
    if effs != [] {
      ScaledIsProduct(g, effs[..|effs| - 1]);
    }
  }

  /**
    The group sums over the merge: each grid row of the operation year is
    counted once per efficiency row for that year, and its capture is its
    generation times the sum of those efficiencies.
  */
  lemma {:induction false} MergedSums(gens: seq<real>, effs: seq<real>)
    ensures MergedGenerated(gens, effs) == |effs| as real * Sum(gens)
    ensures MergedCaptured(gens, effs) == Sum(effs) * Sum(gens)
  {
    if gens != [] {
      var init, last := gens[..|gens| - 1], gens[|gens| - 1];
      MergedSums(init, effs);
      RepeatedIsProduct(last, effs);
      ScaledIsProduct(last, effs);
      assert MergedCaptured(gens, effs) == Sum(effs) * Sum(init) + last * Sum(effs);
    }
  }

  /** One row of a material's `df_agg`. */
  datatype AggRow = AggRow(year: int, operationYear: int, generated: real, captured: real, emitted: real)

  /** `(methane_generated - methane_captured) * (1 - methane_oxidation_fraction)` */
  function Emitted(generated: real, captured: real, oxidation: real): real {
    (generated - captured) * (1.0 - oxidation)
  }

  /** The operation years 0..n-1 the inner merge keeps: those the schedule lists, ascending. */
  function KeptYears(schedule: seq<ScheduleRow>, n: int): (r: seq<nat>)
    ensures forall i :: 0 <= i < |r| ==> r[i] < n
    decreases n
  {
    if n <= 0 then []
    else KeptYears(schedule, n - 1) + (if EfficienciesFor(schedule, n - 1) != [] then [n - 1] else [])
  }

  /** The kept operation years are those in [0, n) that the schedule lists. */
  lemma {:induction false} KeptYearsMembers(schedule: seq<ScheduleRow>, n: int, y: int)
    ensures y in KeptYears(schedule, n) <==> 0 <= y < n && EfficienciesFor(schedule, y) != []
    decreases n
  {
    if n <= 0 {
      assert KeptYears(schedule, n) == [];
    } else {
      KeptYearsMembers(schedule, n - 1, y);
      var kept := KeptYears(schedule, n);
      var before := KeptYears(schedule, n - 1);
      var listed := EfficienciesFor(schedule, y) != [];
      var last: seq<nat> := if EfficienciesFor(schedule, n - 1) != [] then [n - 1] else [];
      assert kept == before + last;
      if y == n - 1 {
        assert y !in before;
        if listed {
          assert kept[|before|] == y;
        } else {
          assert kept == before;
        }
      } else {
        assert y !in last;
        if y in before {
          var k :| 0 <= k < |before| && before[k] == y;
          assert kept[k] == y;
        } else {
          assert y !in kept;
        }
      }
    }
  }

  /** The kept operation years are strictly ascending. */
  lemma {:induction false} KeptYearsAscending(schedule: seq<ScheduleRow>, n: int)
    ensures forall i, j :: 0 <= i < j < |KeptYears(schedule, n)| ==> KeptYears(schedule, n)[i] < KeptYears(schedule, n)[j]
    decreases n
  {
    if n > 0 {
      KeptYearsAscending(schedule, n - 1);
      var before := KeptYears(schedule, n - 1);
      var last: seq<nat> := if EfficienciesFor(schedule, n - 1) != [] then [n - 1] else [];
      assert KeptYears(schedule, n) == before + last;
      forall i, j | 0 <= i < j < |before + last|
        ensures (before + last)[i] < (before + last)[j]
      {
        assert (before + last)[i] == before[i];
        if j < |before| {
          assert (before + last)[j] == before[j];
        }
      }
    }
  }

  /** The group of operation year y for one material. */
  function AggRowFor(subset: Rows, yearInit: int, schedule: seq<ScheduleRow>, exp: real -> real,
                     m: MaterialParameters, y: nat): AggRow
  {
    var gens := VintageGenerations(subset, yearInit, exp, m, y);
    var effs := EfficienciesFor(schedule, y);
    var generated := MergedGenerated(gens, effs);
    var captured := MergedCaptured(gens, effs);
    AggRow(yearInit + y, y, generated, captured, Emitted(generated, captured, m.oxidation))
  }

  // ---------------------------------------------------------------- the whole calculation

  /** What the steps before the material loop settle. */
  datatype Prepared = Prepared(
    yearInit: int,
    calcYear: int,
    t: int,
    subset: Rows,
    materials: seq<string>,
    ratios: Dict<real>,
    schedule: seq<ScheduleRow>)

  /**
    `calc_year` when the method file has it, else `landfill_close`, else
    `year_init + landfill_lifespan` (a TypeError when that is missing too).
  */
  function CalcYear(c: Config, yearInit: int): (r: Result<int>)
    ensures c.calcYear.Some? ==> r == Ok(c.calcYear.value)
    ensures c.calcYear.None? && c.landfillClose.Some? ==> r == Ok(c.landfillClose.value)
    ensures c.calcYear.None? && c.landfillClose.None? ==>
      r == if c.landfillLifespan.Some? then Ok(yearInit + c.landfillLifespan.value) else Err(TypeError)
  {
    if c.calcYear.Some? then Ok(c.calcYear.value)
    else if c.landfillClose.Some? then Ok(c.landfillClose.value)
    else if c.landfillLifespan.None? then Err(TypeError)
    else Ok(yearInit + c.landfillLifespan.value)
  }

  /** The waste table with integer years, or the exception of the expansion loops or of `astype(int)`. */
  function WasteRows(c: Config): (r: Result<Rows>)
    ensures r.Ok? ==> c.wasteAcceptanceRate.Some? && c.materialRatios.Some?
  {
    var waste :- if c.wasteAcceptanceRate.None? then Err(AttributeError) else Ok(c.wasteAcceptanceRate.value);
    var wasteSplit :- Expand(waste, DashInStrOfKey);
    var ratios :- if c.materialRatios.None? then Err(AttributeError) else Ok(c.materialRatios.value);
    var ratioSplit :- Expand(MaterialItems(ratios), DashInKey);
    YearRows(wasteSplit)
  }

  /**
    The engine up to the material loop: the expanded waste table, `year_init`
    (the year of its first row; a KeyError when it has none), the horizon, the
    waste subset, the materials and the collection schedule.
  */
  function Prepare(c: Config, inputs: Inputs): Result<Prepared> {
    var rows :- WasteRows(c);
    PrepareFrom(c, inputs, rows)
  }

  /** The steps of `Prepare` after the waste table is built. */
  function PrepareFrom(c: Config, inputs: Inputs, rows: Rows): Result<Prepared>
    requires c.materialRatios.Some?
  {
    var yearInit :- if rows == [] then Err(KeyError) else Ok(rows[0].0);
    var calcYear :- CalcYear(c, yearInit);
    var schedule :- CollectionSchedule(inputs.collectionEfficiencies, c.lfgCollectionScenario, c.landfillLifespan);
    Ok(Prepared(yearInit, calcYear, calcYear - yearInit, Subset(rows, calcYear - 1),
                Keys(c.materialRatios.value), c.materialRatios.value, schedule))
  }

  /**
    The lookups of the loop body for one material, in the order the
    generation expression meets them: its ratio, the factors, its decay
    rate; then the oxidation fraction of the emitted column.
  */
  function MaterialCheck(c: Config, inputs: Inputs, p: Prepared, material: string): Result<MaterialParameters> {
    var ratio :- LocFirst(p.ratios, material);
    var factors :- FactorsOf(c, p.t);
    var k :- DecayRate(c, inputs.barlazDecayRates, material);
    var oxidation :- if c.methaneOxidationFraction.None? then Err(TypeError) else Ok(c.methaneOxidationFraction.value);
    Ok(MaterialParameters(ratio, factors, k, oxidation))
  }

  /** A material's `df_agg`: one row per kept operation year, ascending. */
  function MaterialFrame(p: Prepared, exp: real -> real, m: MaterialParameters): (r: seq<AggRow>)
    ensures |r| == |KeptYears(p.schedule, p.t)|
  {
    var kept := KeptYears(p.schedule, p.t);
    seq(|kept|, j requires 0 <= j < |kept| => AggRowFor(p.subset, p.yearInit, p.schedule, exp, m, kept[j]))
  }

  /** `emissions_data` after the loop over `materials`, or the first exception. */
  function MaterialFrames(c: Config, inputs: Inputs, p: Prepared, exp: real -> real, materials: seq<string>): (r: Result<seq<seq<AggRow>>>)
    ensures r.Ok? ==> |r.value| == |materials|
    ensures r.Ok? ==> forall i :: 0 <= i < |r.value| ==> |r.value[i]| == |KeptYears(p.schedule, p.t)|
  {
    if materials == [] then Ok([])
    else
      var before :- MaterialFrames(c, inputs, p, exp, materials[..|materials| - 1]);
      var m :- MaterialCheck(c, inputs, p, materials[|materials| - 1]);
      Ok(before + [MaterialFrame(p, exp, m)])
  }

  /**
    Over the empty grid of `t <= 0` a material needs only its ratio, its
    decay rate and the oxidation fraction, and its table has no rows.
  */
  lemma EmptyGridIgnoresFactors(c: Config, inputs: Inputs, p: Prepared, exp: real -> real, material: string)
    requires p.t <= 0
    ensures MaterialCheck(c, inputs, p, material).Ok? <==>
      LocFirst(p.ratios, material).Ok? && DecayRate(c, inputs.barlazDecayRates, material).Ok?
      && c.methaneOxidationFraction.Some?
    ensures MaterialCheck(c, inputs, p, material).Ok? ==>
      MaterialFrame(p, exp, MaterialCheck(c, inputs, p, material).value) == []
  {
    assert KeptYears(p.schedule, p.t) == [];
  }

  /** A material's three columns in one output row. */
  datatype MaterialEmissions = MaterialEmissions(material: string, generation: real, capture: real, emitted: real)

  /** One row of the merged output. */
  datatype SummaryRow = SummaryRow(year: int, operationYear: int, materials: seq<MaterialEmissions>)

  /**
    The `reduce` of outer merges on (Year, landfillOperationYear), as
    evidently intended, with the scenario kept once: every material's frame
    has the same rows, so row j of the result holds row j of each frame. A
    `reduce` over no frames is a TypeError. `MergeAsWritten` is the code's
    own merge.
  */
  function Merge(materials: seq<string>, frames: seq<seq<AggRow>>): Result<seq<SummaryRow>>
    requires |frames| == |materials|
    requires forall i :: 0 <= i < |frames| ==> |frames[i]| == |frames[0]|
  {
    if frames == [] then Err(TypeError)
    else Ok(seq(|frames[0]|, j requires 0 <= j < |frames[0]| =>
      SummaryRow(frames[0][j].year, frames[0][j].operationYear,
        seq(|frames|, i requires 0 <= i < |frames| =>
          MaterialEmissions(materials[i], frames[i][j].generated, frames[i][j].captured, frames[i][j].emitted)))))
  }

  /** What `calculate_lfg_emissions` stores in `self.data`, or the exception it raises. */
  function Emissions(c: Config, inputs: Inputs, exp: real -> real): Result<seq<SummaryRow>> {
    var p :- Prepare(c, inputs);
    var frames :- MaterialFrames(c, inputs, p, exp, p.materials);
    Merge(p.materials, frames)
  }

  /**
    The `reduce` of merges as written: every frame keeps its Scenario column,
    so the merges also carry the labels of `ColumnLabels`, and a merge that
    raises ends the computation.
  */
  function MergeAsWritten(materials: seq<string>, frames: seq<seq<AggRow>>): Result<seq<SummaryRow>>
    requires |frames| == |materials|
    requires forall i :: 0 <= i < |frames| ==> |frames[i]| == |frames[0]|
  {
    if frames == [] then Err(TypeError)
    else
      var _ :- ReduceLabels(MaterialLabels(materials));
      Merge(materials, frames)
  }

  /** `calculate_lfg_emissions` with the `reduce` as written. */
  function EmissionsAsWritten(c: Config, inputs: Inputs, exp: real -> real): Result<seq<SummaryRow>> {
    var p :- Prepare(c, inputs);
    var frames :- MaterialFrames(c, inputs, p, exp, p.materials);
    MergeAsWritten(p.materials, frames)
  }

  /**
    `calculate_lfg_emissions` as written, on a method file whose material
    ratios have distinct keys (those of a dictionary): it raises the
    ValueError exactly when the corrected computation succeeds with four or
    more materials, and agrees with it everywhere else.
  */
  lemma EmissionsAsWrittenFailsFromFour(c: Config, inputs: Inputs, exp: real -> real)
    requires c.materialRatios.Some? ==> DistinctKeys(c.materialRatios.value)
    ensures EmissionsAsWritten(c, inputs, exp) ==
      if Emissions(c, inputs, exp).Ok? && |Prepare(c, inputs).value.materials| >= 4 then Err(ValueError)
      else Emissions(c, inputs, exp)
  {
    var p := Prepare(c, inputs);
    if p.Ok? {
      var frames := MaterialFrames(c, inputs, p.value, exp, p.value.materials);
      if frames.Ok? && frames.value != [] {
        ReduceFailsFromFourMaterials(p.value.materials);
      }
    }
  }

  /** The output rows as a frame: Year, landfillOperationYear, the three columns of each material, Unit. */
  function SummaryFrame(rows: seq<SummaryRow>, materials: seq<string>, unit: Option<string>): (r: Frame)
    ensures |r| == 3 + 3 * |materials|
  {
    [("Year", seq(|rows|, j requires 0 <= j < |rows| => Int(rows[j].year))),
     ("landfillOperationYear", seq(|rows|, j requires 0 <= j < |rows| => Int(rows[j].operationYear)))]
    + MaterialColumnsFrame(rows, materials, |materials|)
    + [("Unit", seq(|rows|, _ => if unit.Some? then Text(unit.value) else Null))]
  }

  /** The value of material i in row j, as a cell. */
  function MaterialCell(row: SummaryRow, i: nat, column: nat): Cell
    requires column < 3
  {
    if i >= |row.materials| then Null
    else if column == 0 then Num(row.materials[i].generation)
    else if column == 1 then Num(row.materials[i].capture)
    else Num(row.materials[i].emitted)
  }

  /** The three columns of each of the first n materials. */
  function MaterialColumnsFrame(rows: seq<SummaryRow>, materials: seq<string>, n: nat): (r: Frame)
    requires n <= |materials|
    ensures |r| == 3 * n
  {
    if n == 0 then []
    else
      var i := n - 1;
      MaterialColumnsFrame(rows, materials, i)
      + [(materials[i] + " Methane Generation", seq(|rows|, j requires 0 <= j < |rows| => MaterialCell(rows[j], i, 0))),
         (materials[i] + " Methane Capture", seq(|rows|, j requires 0 <= j < |rows| => MaterialCell(rows[j], i, 1))),
         (materials[i] + " Methane Emitted", seq(|rows|, j requires 0 <= j < |rows| => MaterialCell(rows[j], i, 2)))]
  }

  // ---------------------------------------------------------------- the loops

  /** The engine's steps before the material loop, with its two expansion loops. */
  method PrepareScript(c: Config, inputs: Inputs) returns (r: Result<Prepared>)
    ensures r == Prepare(c, inputs)
  {
    if c.wasteAcceptanceRate.None? {
      return Err(AttributeError);
    }
    var wasteSplit := ExpandRanges(c.wasteAcceptanceRate.value, DashInStrOfKey);
    if wasteSplit.Err? {
      return Err(wasteSplit.error);
    }
    if c.materialRatios.None? {
      return Err(AttributeError);
    }
    var ratioSplit := ExpandRanges(MaterialItems(c.materialRatios.value), DashInKey);
    if ratioSplit.Err? {
      return Err(ratioSplit.error);
    }
    var rows := YearRows(wasteSplit.value);
    assert WasteRows(c) == rows;
    if rows.Err? {
      return Err(rows.error);
    }
    assert Prepare(c, inputs) == PrepareFrom(c, inputs, rows.value);
    r := PrepareFromScript(c, inputs, rows.value);
  }

  /** The steps of `PrepareScript` after the waste table is built. */
  method PrepareFromScript(c: Config, inputs: Inputs, rows: Rows) returns (r: Result<Prepared>)
    requires c.materialRatios.Some?
    ensures r == PrepareFrom(c, inputs, rows)
  {
    if rows == [] {
      return Err(KeyError);
    }
    var yearInit := rows[0].0;
    var calcYear := CalcYear(c, yearInit);
    if calcYear.Err? {
      return Err(calcYear.error);
    }
    var t := calcYear.value - yearInit;
    var subset := Subset(rows, calcYear.value - 1);
    var materials := Keys(c.materialRatios.value);
    var schedule := CollectionSchedule(inputs.collectionEfficiencies, c.lfgCollectionScenario, c.landfillLifespan);
    if schedule.Err? {
      return Err(schedule.error);
    }
    r := Ok(Prepared(yearInit, calcYear.value, t, subset, materials, c.materialRatios.value, schedule.value));
  }

  /** `for material in material_type_list`: one frame appended to `emissions_data` per material. */
  method MaterialLoop(c: Config, inputs: Inputs, p: Prepared, exp: real -> real) returns (r: Result<seq<seq<AggRow>>>)
    ensures r == MaterialFrames(c, inputs, p, exp, p.materials)
  {
    var materials := p.materials;
    var emissionsData: seq<seq<AggRow>> := [];
    var i := 0;
    while i < |materials|
      invariant 0 <= i <= |materials|
      invariant MaterialFrames(c, inputs, p, exp, materials[..i]) == Ok(emissionsData)
    {
      assert materials[..i + 1][..i] == materials[..i];
      var m := MaterialCheck(c, inputs, p, materials[i]);
      if m.Err? {
        MaterialFramesStopAtError(c, inputs, p, exp, materials, i + 1);
        return Err(m.error);
      }
      emissionsData := emissionsData + [MaterialFrame(p, exp, m.value)];
      i := i + 1;
    }
    assert materials[..i] == materials;
    return Ok(emissionsData);
  }

  /** Once a prefix of the materials fails, the loop fails with the same exception. */
  lemma {:induction false} MaterialFramesStopAtError(c: Config, inputs: Inputs, p: Prepared, exp: real -> real,
                                                     ms: seq<string>, n: nat)
    requires n <= |ms| && MaterialFrames(c, inputs, p, exp, ms[..n]).Err?
    ensures MaterialFrames(c, inputs, p, exp, ms) == MaterialFrames(c, inputs, p, exp, ms[..n])
    decreases |ms| - n
  {
    if n < |ms| {
      assert ms[..n + 1][..n] == ms[..n];
      MaterialFramesStopAtError(c, inputs, p, exp, ms, n + 1);
    } else {
      assert ms[..n] == ms;
    }
  }

  /** An LFG object: its method name, its method file and its data frame. */
  class LFG {
    var fullName: string
    var config: Config
    var data: Option<Frame>

    /** `__init__` with `full_name` and `config` given as keyword arguments. */
    constructor (data: Option<Frame>, addMissingColumns: bool, fields: Option<Dict<string>>,
                 columnOrder: Option<seq<string>>, fullName: string, config: Config)
      ensures this.fullName == fullName && this.config == config
      ensures this.data == InitialData(data, addMissingColumns, fields, columnOrder)
    {
      this.fullName := fullName;
      this.config := config;
      var d := data;
      if d.Some? && fields.Some? {
        var frame := d.value;
        var fs := fields.value;
        if addMissingColumns {
          frame := AddMissingColumns(frame, Keys(fs));
        } else {
          fs := PresentFields(fs, Names(frame));
        }
        d := Some(CleanColumns(frame, fs));
      }
      if d.Some? && columnOrder.Some? {
        d := Some(ReorderColumns(d.value, columnOrder.value));
      }
      this.data := d;
    }

    /**
      `calculate_lfg_emissions`: on success `self.data` holds the merged
      frame; an exception leaves the object as it was.
    */
    method CalculateLfgEmissions(inputs: Inputs, exp: real -> real) returns (r: Result<()>)
      modifies this
      ensures fullName == old(fullName) && config == old(config)
      ensures r.Ok? <==> Emissions(config, inputs, exp).Ok?
      ensures r.Ok? ==> data == Some(SummaryFrame(Emissions(config, inputs, exp).value,
                                                  Prepare(config, inputs).value.materials, config.unit))
      ensures r.Err? ==> r.error == Emissions(config, inputs, exp).error && data == old(data)
    {
      var p := PrepareScript(config, inputs);
      if p.Err? {
        return Err(p.error);
      }
      var frames := MaterialLoop(config, inputs, p.value, exp);
      if frames.Err? {
        return Err(frames.error);
      }
      var merged := Merge(p.value.materials, frames.value);
      if merged.Err? {
        return Err(merged.error);
      }
      data := Some(SummaryFrame(merged.value, p.value.materials, config.unit));
      return Ok(());
    }
  }

  // ---------------------------------------------------------------- properties

  /**
    A completed run has one row per operation year in [0, T) that the
    collection schedule lists, in ascending order (so `sort_values('Year')`
    keeps it), with Year = `year_init` + operation year, and the materials of
    the method file in their order.
  */
  lemma EmissionsRows(c: Config, inputs: Inputs, exp: real -> real)
    requires Emissions(c, inputs, exp).Ok?
    ensures var p := Prepare(c, inputs).value;
      var rows := Emissions(c, inputs, exp).value;
      var kept := KeptYears(p.schedule, p.t);
      && |rows| == |kept|
      && (forall j :: 0 <= j < |rows| ==>
            && rows[j].operationYear == kept[j]
            && rows[j].year == p.yearInit + kept[j]
            && |rows[j].materials| == |p.materials|
            && forall i :: 0 <= i < |p.materials| ==> rows[j].materials[i].material == p.materials[i])
      && (forall j, j' :: 0 <= j < j' < |rows| ==> rows[j].year < rows[j'].year)
  {
    var p := Prepare(c, inputs).value;
    var frames := MaterialFrames(c, inputs, p, exp, p.materials).value;
    var kept := KeptYears(p.schedule, p.t);
    KeptYearsAscending(p.schedule, p.t);
    FramesShareKeys(c, inputs, p, exp, p.materials);
    assert frames != [];
  }

  /** Every material's frame has the same rows: the kept operation years, in order, with their calendar years. */
  lemma {:induction false} FramesShareKeys(c: Config, inputs: Inputs, p: Prepared, exp: real -> real, ms: seq<string>)
    requires MaterialFrames(c, inputs, p, exp, ms).Ok?
    ensures var frames := MaterialFrames(c, inputs, p, exp, ms).value;
      var kept := KeptYears(p.schedule, p.t);
      forall i, j :: 0 <= i < |frames| && 0 <= j < |kept| ==>
        frames[i][j].operationYear == kept[j] && frames[i][j].year == p.yearInit + kept[j]
    decreases |ms|
  {
    if ms != [] {
      FramesShareKeys(c, inputs, p, exp, ms[..|ms| - 1]);
    }
  }

  /** Operation year 0 generates, captures and emits nothing: its one row has no waste. */
  lemma OperationYearZero(subset: Rows, yearInit: int, schedule: seq<ScheduleRow>, exp: real -> real, m: MaterialParameters)
    ensures var row := AggRowFor(subset, yearInit, schedule, exp, m, 0);
      row.generated == 0.0 && row.captured == 0.0 && row.emitted == 0.0
  {
    var gens := VintageGenerations(subset, yearInit, exp, m, 0);
    assert gens == [RowGeneration(subset, yearInit, exp, m, GridRow(yearInit, 0, None))];
    assert Sum(gens) == 0.0;
    MergedSums(gens, EfficienciesFor(schedule, 0));
  }

  /** A grid row whose input year accepted no waste generates nothing. */
  lemma NoWasteNoGeneration(subset: Rows, yearInit: int, exp: real -> real, m: MaterialParameters, row: GridRow)
    requires WasteOf(subset, yearInit, row) == 0.0
    ensures RowGeneration(subset, yearInit, exp, m, row) == 0.0
  {
  }

  lemma {:induction false} SumOfZeros(xs: seq<real>)
    requires forall i :: 0 <= i < |xs| ==> xs[i] == 0.0
    ensures Sum(xs) == 0.0
  {
    if xs != [] {
      SumOfZeros(xs[..|xs| - 1]);
    }
  }

  /**
    An operation year none of whose input years accepted waste generates,
    captures and emits nothing.
  */
  lemma NoWasteNoEmissions(subset: Rows, yearInit: int, schedule: seq<ScheduleRow>, exp: real -> real,
                           m: MaterialParameters, y: nat)
    requires forall year :: yearInit <= year < yearInit + y ==> Acceptance(subset, year) == 0.0
    ensures var row := AggRowFor(subset, yearInit, schedule, exp, m, y);
      row.generated == 0.0 && row.captured == 0.0 && row.emitted == 0.0
  {
    var gens := VintageGenerations(subset, yearInit, exp, m, y);
    var rows := VintageRows(yearInit, y);
    forall i | 0 <= i < |gens|
      ensures gens[i] == 0.0
    {
      if y > 0 {
        assert rows[i] == VintageRow(yearInit, y, i);
        assert WasteOf(subset, yearInit, rows[i]) == Acceptance(subset, yearInit + i);
      }
      NoWasteNoGeneration(subset, yearInit, exp, m, rows[i]);
    }
    SumOfZeros(gens);
    MergedSums(gens, EfficienciesFor(schedule, y));
  }

  /**
    The subset never hides a year the grid asks for: an input year of an
    operation year below T is before `calc_year - 1`, so its waste is the
    same in the subset as in the whole table.
  */
  lemma SubsetKeepsGridYears(rows: Rows, yearInit: int, calcYear: int, row: GridRow)
    requires GridRowShape(yearInit, calcYear - yearInit, row)
    ensures WasteOf(Subset(rows, calcYear - 1), yearInit, row) == WasteOf(rows, yearInit, row)
  {
    if row.inputYearIndex.Some? {
      SubsetAcceptance(rows, calcYear - 1, yearInit + row.inputYearIndex.value);
    }
  }

  /**
    The capture identity: with one schedule row of efficiency e for an
    operation year, the captured methane is e times the generated methane,
    and the emitted methane is the uncaptured part less the oxidised share.
  */
  lemma CaptureIdentity(subset: Rows, yearInit: int, schedule: seq<ScheduleRow>, exp: real -> real,
                        m: MaterialParameters, y: nat, e: real)
    requires EfficienciesFor(schedule, y) == [e]
    ensures var row := AggRowFor(subset, yearInit, schedule, exp, m, y);
      && row.generated == Sum(VintageGenerations(subset, yearInit, exp, m, y))
      && row.captured == e * row.generated
      && row.emitted == (row.generated - row.captured) * (1.0 - m.oxidation)
  {
    var gens := VintageGenerations(subset, yearInit, exp, m, y);
    MergedSums(gens, [e]);
    assert Sum([e]) == e by {
      assert [e][..0] == [];
    }
  }

  /** Dividing the emitted share back out gives the uncaptured amount. */
  lemma EmittedScalesBack(generated: real, captured: real, oxidation: real)
    requires oxidation != 1.0
    ensures generated == captured + Emitted(generated, captured, oxidation) / (1.0 - oxidation)
  {
    var share := 1.0 - oxidation;
    var uncaptured := generated - captured;
    var q := Emitted(generated, captured, oxidation) / share;
    assert q * share == uncaptured * share;
    assert (q - uncaptured) * share == 0.0;
  }

  /**
    Mass balance: in every group, the generated methane is the captured
    methane plus the emitted methane scaled back by the oxidised share.
  */
  lemma MassBalance(subset: Rows, yearInit: int, schedule: seq<ScheduleRow>, exp: real -> real,
                    m: MaterialParameters, y: nat)
    requires m.oxidation != 1.0
    ensures var row := AggRowFor(subset, yearInit, schedule, exp, m, y);
      row.generated == row.captured + row.emitted / (1.0 - m.oxidation)
  {
    var row := AggRowFor(subset, yearInit, schedule, exp, m, y);
    assert row.emitted == Emitted(row.generated, row.captured, m.oxidation);
    EmittedScalesBack(row.generated, row.captured, m.oxidation);
  }

  /**
    With non-negative inputs and a decay weight that does not grow from one
    year to the next, a grid row's generation is never negative.
  */
  lemma GenerationNonNegative(ratio: real, waste: real, f: Factors, exp: real -> real, k: real, d: int)
    requires ratio >= 0.0 && waste >= 0.0
    requires f.methaneFraction >= 0.0 && f.degradableOrganicCarbon >= 0.0
    requires f.degradableOrganicCarbonFraction >= 0.0 && f.methaneContent >= 0.0
    requires exp(-k * (d - 1) as real) >= exp(-k * d as real)
    ensures Generation(ratio, waste, f, exp, k, d) >= 0.0
  {
    var a := ratio * waste;
    assert a >= 0.0;
    var b := a * f.methaneFraction;
    assert b >= 0.0;
    var c := b * f.degradableOrganicCarbon;
    assert c >= 0.0;
    var e := c * f.degradableOrganicCarbonFraction;
    assert e >= 0.0;
    var g := e * f.methaneContent * 16.0 / 12.0;
    assert g >= 0.0;
    assert DecayDifference(exp, k, d) >= 0.0;
  }

  /**
    The horizon: `year_init` is the year of the first row of the expanded
    waste table, T is `calc_year - year_init`, `calc_year` follows its
    precedence, and the subset holds no year after `calc_year - 1`.
  */
  lemma Horizon(c: Config, inputs: Inputs)
    requires Prepare(c, inputs).Ok?
    ensures var p := Prepare(c, inputs).value;
      && WasteRows(c).Ok? && WasteRows(c).value != []
      && p.yearInit == WasteRows(c).value[0].0
      && p.t == p.calcYear - p.yearInit
      && (c.calcYear.Some? ==> p.calcYear == c.calcYear.value)
      && (c.calcYear.None? && c.landfillClose.Some? ==> p.calcYear == c.landfillClose.value)
      && (c.calcYear.None? && c.landfillClose.None? ==> c.landfillLifespan.Some? && p.t == c.landfillLifespan.value)
      && (forall row :: row in p.subset ==> row.0 <= p.calcYear - 1)
  {
    var rows := WasteRows(c);
    assert rows.Ok?;
    assert Prepare(c, inputs) == PrepareFrom(c, inputs, rows.value);
    HorizonFrom(c, inputs, rows.value);
  }

  /** `Horizon` for a given waste table. */
  lemma HorizonFrom(c: Config, inputs: Inputs, rows: Rows)
    requires c.materialRatios.Some?
    requires PrepareFrom(c, inputs, rows).Ok?
    ensures var p := PrepareFrom(c, inputs, rows).value;
      && rows != []
      && p.yearInit == rows[0].0
      && p.t == p.calcYear - p.yearInit
      && (c.calcYear.Some? ==> p.calcYear == c.calcYear.value)
      && (c.calcYear.None? && c.landfillClose.Some? ==> p.calcYear == c.landfillClose.value)
      && (c.calcYear.None? && c.landfillClose.None? ==> c.landfillLifespan.Some? && p.t == c.landfillLifespan.value)
      && (forall row :: row in p.subset ==> row.0 <= p.calcYear - 1)
  {
    var p := PrepareFrom(c, inputs, rows).value;
    assert rows != [];
    var year := CalcYear(c, rows[0].0);
    assert year.Ok? && p.calcYear == year.value;
    assert p.subset == Subset(rows, p.calcYear - 1);
    forall row | row in p.subset
      ensures row.0 <= p.calcYear - 1
    {
      SubsetRows(rows, p.calcYear - 1, row);
    }
  }

  /**
    `year_init` is the first key of the method file's waste table, not its
    least year: a table listing year a before an earlier year b expands to
    rows starting with a, so `year_init` is a.
  */
  lemma YearInitIsFirstKeyNotLeast(a: nat, b: nat, x: real, y: real)
    requires b < a
    ensures var c := EmptyConfig.(wasteAcceptanceRate := Some([(StrKey(Text.NatToString(a)), x),
                                                                (StrKey(Text.NatToString(b)), y)]),
                                  materialRatios := Some([]));
      WasteRows(c) == Ok([(a as int, x), (b as int, y)]) && a > b
  {
    var first, second := Text.NatToString(a), Text.NatToString(b);
    Text.ParseNatOfString(a);
    Text.ParseNatOfString(b);
    assert first != second;
    assert '-' !in first && '-' !in second by {
      assert !Text.IsDigit('-');
    }
    var items := [(StrKey(first), x), (StrKey(second), y)];
    assert KeyWrites(StrKey(first), DashInStrOfKey) == Ok([first]);
    assert KeyWrites(StrKey(second), DashInStrOfKey) == Ok([second]);
    var empty: Dict<real> := [];
    var none: seq<string> := [];
    assert [first][..0] == none && [second][..0] == none;
    assert PutAll(empty, [first], x) == [(first, x)];
    var one: Dict<real> := [(first, x)];
    assert PutAll(one, none, y) == one;
    assert Put(one, second, y) == [(first, x)] + Put(empty, second, y);
    assert PutAll(one, [second], y) == [(first, x), (second, y)];
    assert items[..1] == [(StrKey(first), x)];
    var noItems: seq<(Key, real)> := [];
    assert items[..1][..0] == noItems;
    assert Expand(items[..1], DashInStrOfKey) == Ok([(first, x)]);
    assert Expand(items, DashInStrOfKey) == Ok([(first, x), (second, y)]);
    YearRowsOfYearStrings(a, b, x, y);
  }

  lemma YearRowsOfYearStrings(a: nat, b: nat, x: real, y: real)
    ensures YearRows([(Text.NatToString(a), x), (Text.NatToString(b), y)]) == Ok([(a as int, x), (b as int, y)])
  {
    var first, second := Text.NatToString(a), Text.NatToString(b);
    Text.ParseNatOfString(a);
    Text.ParseNatOfString(b);
    var empty: Dict<real> := [];
    var table: Dict<real> := [(first, x), (second, y)];
    assert table[1..] == [(second, y)] && table[1..][1..] == empty;
    var noRows: seq<(int, real)> := [];
    assert YearRows(empty) == Ok(noRows);
    assert [(b as int, y)] + noRows == [(b as int, y)];
    assert YearRows(table[1..]) == Ok([(b as int, y)]);
    assert [(a as int, x)] + [(b as int, y)] == [(a as int, x), (b as int, y)];
  }
}
