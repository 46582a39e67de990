/**
  The top-level LandGEM draft script: the waste-acceptance series is expanded
  (keys stay text), the capacity check sums the rates of the years up to and
  including the calculation year, and the methane total adds, for each of the
  n + 1 years i = 0..n (n = calc_year - landfill_open), ten sub-steps of
  `k * LO * (M / 10) * exp(-k * (i + j))`, j = 0.0, 0.1, ..., 0.9.
  Sub-steps are counted from the opening year, ten per year, so that their
  times are exact: sub-step j of year i is number 10 * i + j.
*/
module LandGemScript {
  import opened Wrappers
  import opened YearRanges
  import opened WasteRates
  import opened Validation
  import SingleRateScript

  /** The keys of the method file the script reads. */
  datatype Settings = Settings(
    wasteAcceptanceRate: seq<(Key, real)>,
    landfillOpen: int,
    landfillCapacity: real,
    lo: real,
    k: real,
    calcYear: Option<int>,
    landfillClose: Option<int>)

  /** The constant waste mass `M` of the script. */
  const M: real := 20665.0

  /** Number of sub-steps per year: `np.arange(0, 1, 0.1)` has ten elements. */
  const SubSteps: nat := 10

  /**
    The time, in years since opening, of sub-step t counted from the first
    sub-step of year 0: sub-step j of year i is t = 10 * i + j, at time i + j / 10.
  */
  function SubStepTime(t: int): real {
    t as real / 10.0
  }

  /** The factor `k * LO * (M / 10)` that every sub-step term shares. */
  function Weight(lo: real, k: real): real {
    k * lo * (M / 10.0)
  }

  /** The methane of one sub-step. */
  function SubStepTerm(lo: real, k: real, exp: real -> real, t: int): real {
    Weight(lo, k) * exp(-k * SubStepTime(t))
  }

  /** The sum of the sub-step terms for t in [lower, upper). */
  function StepsSum(lo: real, k: real, exp: real -> real, lower: int, upper: int): real
    decreases upper - lower
  {
    if upper <= lower then 0.0 else StepsSum(lo, k, exp, lower, upper - 1) + SubStepTerm(lo, k, exp, upper - 1)
  }

  /** `methane_annual` of year i: its ten sub-steps, starting from 0. */
  function Annual(lo: real, k: real, exp: real -> real, i: int): real {
    StepsSum(lo, k, exp, SubSteps * i, SubSteps * i + SubSteps)
  }

  /** `methane_total` after the first `years` outer iterations. */
  function TotalAfter(lo: real, k: real, exp: real -> real, years: int): real
    decreases years
  {
    if years <= 0 then 0.0 else TotalAfter(lo, k, exp, years - 1) + Annual(lo, k, exp, years - 1)
  }

  /** What the script computes, or the exception that stops it. */
  function Run(s: Settings, exp: real -> real): Result<real> {
    var calcYear :- SingleRateScript.CalcYear(s.calcYear, s.landfillClose);
    var split :- Expand(s.wasteAcceptanceRate, DashInKey);
    var rows :- YearRows(split);
    RunFrom(s, exp, calcYear, rows)
  }

  /** The script after the waste table is built: the capacity and rate checks, then the total. */
  function RunFrom(s: Settings, exp: real -> real, calcYear: int, rows: Rows): Result<real> {
    var n := calcYear - s.landfillOpen;
    var capacity :- CheckIfLandfillIsFull(TotalRate(Subset(rows, calcYear)), s.landfillCapacity);
    var k :- CheckK(s.k);
    Ok(TotalAfter(s.lo, s.k, exp, n + 1))
  }

  method RunScript(s: Settings, exp: real -> real) returns (r: Result<real>)
    ensures r == Run(s, exp)
  {
    var calcYear: int;
    if s.calcYear.Some? {
      calcYear := s.calcYear.value;
    } else if s.landfillClose.Some? {
      calcYear := s.landfillClose.value;
    } else {
      return Err(NameError);
    }
    var split := ExpandRanges(s.wasteAcceptanceRate, DashInKey);
    if split.Err? {
      return Err(split.error);
    }
    var rows := YearRows(split.value);
    if rows.Err? {
      return Err(rows.error);
    }
    r := RunFromScript(s, exp, calcYear, rows.value);
  }

  /** The checks and the accumulation loop over the expanded table. */
  method RunFromScript(s: Settings, exp: real -> real, calcYear: int, rows: Rows) returns (r: Result<real>)
    ensures r == RunFrom(s, exp, calcYear, rows)
  {
    var n := calcYear - s.landfillOpen;
    var currentCapacity := TotalRate(Subset(rows, calcYear));
    var full := CheckIfLandfillIsFull(currentCapacity, s.landfillCapacity);
    if full.Err? {
      return Err(full.error);
    }
    var k := CheckK(s.k);
    if k.Err? {
      return Err(k.error);
    }
    var methaneTotal := Accumulate(s.lo, s.k, exp, n);
    return Ok(methaneTotal);
  }

  /** The outer loop: n + 1 years, each adding its annual sum. */
  method Accumulate(lo: real, k: real, exp: real -> real, n: int) returns (methaneTotal: real)
    ensures methaneTotal == TotalAfter(lo, k, exp, n + 1)
  {
    methaneTotal := 0.0;
    var i := 0;
    while i < n + 1
      invariant 0 <= i <= if n + 1 < 0 then 0 else n + 1
      invariant methaneTotal == TotalAfter(lo, k, exp, i)
    {
      var methaneAnnual := AnnualSum(lo, k, exp, i);
      methaneTotal := methaneTotal + methaneAnnual;
      i := i + 1;
    }
  }

  /** The inner loop: `methane_annual` restarts at 0 and adds the ten sub-steps of year i. */
  method AnnualSum(lo: real, k: real, exp: real -> real, i: int) returns (methaneAnnual: real)
    ensures methaneAnnual == Annual(lo, k, exp, i)
  {
    methaneAnnual := 0.0;
    var j := 0;
    while j < SubSteps
      invariant 0 <= j <= SubSteps
      invariant methaneAnnual == StepsSum(lo, k, exp, SubSteps * i, SubSteps * i + j)
    {
      assert StepsSum(lo, k, exp, SubSteps * i, SubSteps * i + j + 1)
          == StepsSum(lo, k, exp, SubSteps * i, SubSteps * i + j) + SubStepTerm(lo, k, exp, SubSteps * i + j);
      methaneAnnual := methaneAnnual + SubStepTerm(lo, k, exp, SubSteps * i + j);
      j := j + 1;
    }
  }

  /**
    A run that completes has passed both checks, on the waste of the years up
    to and including the calculation year, and its total is the (n + 1)-year sum.
  */
  lemma RunOk(s: Settings, exp: real -> real)
    requires Run(s, exp).Ok?
    ensures 0.0 < s.k < 0.5
    ensures s.calcYear.Some? || s.landfillClose.Some?
    ensures var c := SingleRateScript.CalcYear(s.calcYear, s.landfillClose).value;
            var rows := YearRows(Expand(s.wasteAcceptanceRate, DashInKey).value).value;
            && 0.0 < TotalRate(Subset(rows, c)) < s.landfillCapacity
            && Run(s, exp).value == TotalAfter(s.lo, s.k, exp, c - s.landfillOpen + 1)
  {
    var c := SingleRateScript.CalcYear(s.calcYear, s.landfillClose);
    var split := Expand(s.wasteAcceptanceRate, DashInKey);
    assert c.Ok? && split.Ok?;
    var rows := YearRows(split.value);
    assert rows.Ok?;
    assert Run(s, exp) == RunFrom(s, exp, c.value, rows.value);
    RunFromOk(s, exp, c.value, rows.value);
  }

  /** `RunOk` for a given waste table. */
  lemma RunFromOk(s: Settings, exp: real -> real, calcYear: int, rows: Rows)
    requires RunFrom(s, exp, calcYear, rows).Ok?
    ensures 0.0 < s.k < 0.5
    ensures 0.0 < TotalRate(Subset(rows, calcYear)) < s.landfillCapacity
    ensures RunFrom(s, exp, calcYear, rows).value == TotalAfter(s.lo, s.k, exp, calcYear - s.landfillOpen + 1)
  {
  }

  /**
    The total does not depend on which years accepted waste: two method files
    that differ only in their waste series and both pass the checks give the
    same total.
  */
  lemma WasteOnlyChecked(s: Settings, s': Settings, exp: real -> real)
    requires s' == s.(wasteAcceptanceRate := s'.wasteAcceptanceRate)
    requires Run(s, exp).Ok? && Run(s', exp).Ok?
    ensures Run(s, exp) == Run(s', exp)
  {
    RunOk(s, exp);
    RunOk(s', exp);
  }

  /**
    The capacity check counts a waste row in the calculation year itself, which
    the package's single-rate script leaves out of its own check.
  */
  lemma CapacityIncludesCalcYear(rows: Rows, calcYear: int)
    ensures TotalRate(Subset(rows, calcYear))
         == TotalRate(Subset(rows, calcYear - 1)) + TotalRate(RowsOfYear(rows, calcYear))
  {
    InclusiveSubsetTotal(rows, calcYear);
  }
}
