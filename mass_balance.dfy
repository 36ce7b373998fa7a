/** CO2 mass balance of an ERW application, the three-way sensitivity sweep,
    the publication sensitivity matrix and the 95% uncertainty interval
    (extended_analysis.py). All quantities are exact reals; the rounding the
    source applies to its reported figures is not modelled. */
module MassBalance {

  /** One application scenario. Oxide contents are in percent of the rock
      mass, emission intensities in kg CO2 per tonne of basalt. */
  datatype Scenario = Scenario(
    name: string,
    applicationRateTHa: real,
    weatheringEfficiency: real,
    annualRainfallMm: real,
    basaltMgoPercent: real,
    basaltCaoPercent: real,
    grindingKgCo2PerT: real,
    transportKgCo2PerT: real)

  /** A scenario with the record's default oxide contents (8 % MgO, 10 % CaO)
      and emission intensities (50 kg/t grinding, 10 kg/t transport). */
  function WithDefaults(name: string, rate: real, efficiency: real, rainfall: real): (sc: Scenario)
    ensures sc.name == name && sc.applicationRateTHa == rate
    ensures sc.weatheringEfficiency == efficiency && sc.annualRainfallMm == rainfall
    ensures sc.basaltMgoPercent == 8.0 && sc.basaltCaoPercent == 10.0
    ensures sc.grindingKgCo2PerT == 50.0 && sc.transportKgCo2PerT == 10.0
  {
    Scenario(name, rate, efficiency, rainfall, 8.0, 10.0, 50.0, 10.0)
  }

  const DefaultYears: int := 10
  const DefaultPlotAreaHa: real := 2.0

  /** Rainfall at which the climate correction is neutral. */
  const ReferenceRainfallMm: real := 1750.0

  /** kg CO2 bound by weathering 1 kg of MgO (molar masses 44 and 40). */
  function MgoToCo2(mgoKg: real): (co2Kg: real)
    ensures co2Kg == 1.1 * mgoKg
  {
    mgoKg * (44.0 / 40.0)
  }

  /** kg CO2 bound by weathering 1 kg of CaO (molar masses 44 and 56). */
  function CaoToCo2(caoKg: real): (co2Kg: real)
    ensures 14.0 * co2Kg == 11.0 * caoKg
    ensures caoKg >= 0.0 ==> 0.7857 * caoKg <= co2Kg <= 0.7858 * caoKg
  {
    caoKg * (44.0 / 56.0)
  }

  /** Climate correction relative to the reference rainfall. */
  function RainfallFactor(rainfallMm: real): (f: real)
    ensures f * ReferenceRainfallMm == rainfallMm
    ensures f == 1.0 <==> rainfallMm == ReferenceRainfallMm
    ensures rainfallMm > 0.0 ==> f > 0.0
  {
    rainfallMm / ReferenceRainfallMm
  }

  /** The mass-balance record (unrounded). */
  datatype Balance = Balance(
    scenario: string,
    applicationRateTHa: real,
    weatheringEfficiency: real,
    rainfallMm: real,
    grossCo2KgHaYr: real,
    grossCo2THaYr: real,
    grossCo2THaTotal: real,
    grindingEmissionsKgHaYr: real,
    transportEmissionsKgHaYr: real,
    totalUpstreamKgHaYr: real,
    totalUpstreamTHaYr: real,
    secondaryLossTHaYr: real,
    netCo2THaYr: real,
    netCo2THaTotal: real,
    netCo2TTotal: real,
    upstreamPctOfGross: real)

  /** Gross weathering CO2 over the whole horizon, in kg per tonne of basalt
      applied: 1000 kg times the weathered fraction times the stoichiometric
      CO2 yield of its oxides, scaled by the rainfall factor. */
  function GrossKgPerTonne(s: Scenario): real
  {
    1000.0 * s.weatheringEfficiency
      * (s.basaltMgoPercent / 100.0 * 1.1 + s.basaltCaoPercent / 100.0 * (11.0 / 14.0))
      * (s.annualRainfallMm / 1750.0)
  }

  /** Gross weathering CO2 in kg/ha/yr: the annualised weathered basalt,
      split into its MgO and CaO fractions, converted stoichiometrically and
      scaled by the rainfall factor. */
  function GrossCo2KgHaYr(s: Scenario, years: int): real
    requires years != 0
  {
    var basaltWeatheredKgHa := s.applicationRateTHa * 1000.0 * s.weatheringEfficiency / years as real;
    var mgoWeatheredKgHaYr := basaltWeatheredKgHa * (s.basaltMgoPercent / 100.0);
    var caoWeatheredKgHaYr := basaltWeatheredKgHa * (s.basaltCaoPercent / 100.0);
    (MgoToCo2(mgoWeatheredKgHaYr) + CaoToCo2(caoWeatheredKgHaYr)) * RainfallFactor(s.annualRainfallMm)
  }

  /** Gross weathering over the whole horizon is the application rate times
      the gross yield per tonne, whatever the horizon length. */
  lemma GrossClosedForm(s: Scenario, years: int)
    requires years != 0
    ensures GrossCo2KgHaYr(s, years) * years as real == s.applicationRateTHa * GrossKgPerTonne(s)
  {
    var basaltWeatheredKgHa := s.applicationRateTHa * 1000.0 * s.weatheringEfficiency / years as real;
    assert basaltWeatheredKgHa * years as real == s.applicationRateTHa * (1000.0 * s.weatheringEfficiency);
  }

  /** `part` as a percentage of a non-zero `whole`. */
  function PercentOf(part: real, whole: real): (p: real)
    requires whole != 0.0
    ensures p * whole == 100.0 * part
  {
    (part / whole) * 100.0
  }

  /** Net CO2 per hectare over the whole horizon, in closed form: the horizon
      length cancels out of both the gross and the upstream terms. */
  function HorizonNetTHa(s: Scenario): real
  {
    s.applicationRateTHa * NetTPerTonne(s)
  }

  /** Net tonnes of CO2 removed per tonne of basalt applied, over the horizon:
      the gross yield less the grinding and transport emissions. */
  function NetTPerTonne(s: Scenario): real
  {
    (GrossKgPerTonne(s) - (s.grindingKgCo2PerT + s.transportKgCo2PerT)) / 1000.0
  }

  /** CO2_NET = gross weathering - upstream emissions - secondary carbonate loss,
      annualised over `years` and totalled over the plot. */
  function CalculateCo2MassBalance(s: Scenario, years: int, plotAreaHa: real): (b: Balance)
    requires years != 0
    ensures b.scenario == s.name && b.applicationRateTHa == s.applicationRateTHa
    ensures b.weatheringEfficiency == s.weatheringEfficiency && b.rainfallMm == s.annualRainfallMm
    ensures b.grossCo2KgHaYr == GrossCo2KgHaYr(s, years)
    ensures b.grossCo2THaYr * 1000.0 == b.grossCo2KgHaYr
    ensures b.grossCo2THaTotal == b.grossCo2THaYr * years as real
    ensures b.grindingEmissionsKgHaYr * years as real == s.applicationRateTHa * s.grindingKgCo2PerT
    ensures b.transportEmissionsKgHaYr * years as real == s.applicationRateTHa * s.transportKgCo2PerT
    ensures b.totalUpstreamKgHaYr == b.grindingEmissionsKgHaYr + b.transportEmissionsKgHaYr
    ensures b.totalUpstreamTHaYr * 1000.0 == b.totalUpstreamKgHaYr
    ensures b.secondaryLossTHaYr == 0.0
    ensures b.netCo2THaYr == b.grossCo2THaYr - b.totalUpstreamTHaYr - b.secondaryLossTHaYr
    ensures b.netCo2THaTotal == b.netCo2THaYr * years as real
    ensures b.netCo2TTotal == b.netCo2THaTotal * plotAreaHa
  {
    // Step 1: gross CO2 from weathering
    var grossKg := GrossCo2KgHaYr(s, years);
    var grossT := grossKg / 1000.0;
    // Step 2: upstream emissions
    var annualBasaltKgHa := s.applicationRateTHa * 1000.0 / years as real;
    assert annualBasaltKgHa * years as real == s.applicationRateTHa * 1000.0;
    var grindingKg := annualBasaltKgHa * (s.grindingKgCo2PerT / 1000.0);
    var transportKg := annualBasaltKgHa * (s.transportKgCo2PerT / 1000.0);
    var upstreamKg := grindingKg + transportKg;
    var upstreamT := upstreamKg / 1000.0;
    // Step 3: secondary carbonate loss (conservatively zero)
    var secondaryT := 0.0;
    // Step 4: net removal
    var netT := grossT - upstreamT - secondaryT;
    Balance(
      s.name, s.applicationRateTHa, s.weatheringEfficiency, s.annualRainfallMm,
      grossKg, grossT, grossT * years as real,
      grindingKg, transportKg, upstreamKg, upstreamT,
      secondaryT,
      netT, netT * years as real, netT * years as real * plotAreaHa,
      if grossT > 0.0 then PercentOf(upstreamT, grossT) else 0.0)
  }

  // ---------------------------------------------------------------------
  // Properties of the mass balance

  /** Upstream emissions over the whole horizon are the application rate times
      the combined grinding and transport intensity. */
  lemma UpstreamClosedForm(s: Scenario, years: int, plotAreaHa: real)
    requires years != 0
    ensures CalculateCo2MassBalance(s, years, plotAreaHa).totalUpstreamKgHaYr * years as real
         == s.applicationRateTHa * (s.grindingKgCo2PerT + s.transportKgCo2PerT)
  {
    var y := years as real;
    var a := s.applicationRateTHa * 1000.0 / y;
    assert a * y == s.applicationRateTHa * 1000.0;
    var b := CalculateCo2MassBalance(s, years, plotAreaHa);
    assert b.totalUpstreamKgHaYr == a * ((s.grindingKgCo2PerT + s.transportKgCo2PerT) / 1000.0);
  }

  /** The upstream share of gross removal is a percentage only when gross
      removal is positive; otherwise it is reported as 0, so nothing is ever
      divided by zero. */
  lemma UpstreamShareIsGuarded(s: Scenario, years: int, plotAreaHa: real)
    requires years != 0
    ensures var b := CalculateCo2MassBalance(s, years, plotAreaHa);
            && (b.grossCo2THaYr > 0.0 ==> b.upstreamPctOfGross * b.grossCo2THaYr == 100.0 * b.totalUpstreamTHaYr)
            && (b.grossCo2THaYr <= 0.0 ==> b.upstreamPctOfGross == 0.0)
  {
  }

  /** Before rounding, the horizon total does not depend on the horizon length. */
  lemma HorizonTotalIsClosedForm(s: Scenario, years: int, plotAreaHa: real)
    requires years != 0
    ensures CalculateCo2MassBalance(s, years, plotAreaHa).netCo2THaTotal == HorizonNetTHa(s)
  {
    var b := CalculateCo2MassBalance(s, years, plotAreaHa);
    var y := years as real;
    GrossClosedForm(s, years);
    assert b.grossCo2THaYr * y * 1000.0 == b.grossCo2KgHaYr * y;
    UpstreamClosedForm(s, years, plotAreaHa);
    assert b.totalUpstreamTHaYr * y * 1000.0 == b.totalUpstreamKgHaYr * y;
  }

  /** Two horizons give the same per-hectare total. */
  lemma HorizonTotalIndependentOfYears(s: Scenario, years1: int, years2: int, plotAreaHa: real)
    requires years1 != 0 && years2 != 0
    ensures CalculateCo2MassBalance(s, years1, plotAreaHa).netCo2THaTotal
         == CalculateCo2MassBalance(s, years2, plotAreaHa).netCo2THaTotal
  {
    HorizonTotalIsClosedForm(s, years1, plotAreaHa);
    HorizonTotalIsClosedForm(s, years2, plotAreaHa);
  }

  /** Annual net removal times the horizon length is the application rate
      times the net yield per tonne. */
  lemma NetTimesYears(s: Scenario, years: int, plotAreaHa: real)
    requires years != 0
    ensures CalculateCo2MassBalance(s, years, plotAreaHa).netCo2THaYr * years as real
         == s.applicationRateTHa * NetTPerTonne(s)
  {
    HorizonTotalIsClosedForm(s, years, plotAreaHa);
  }

  /** The net yield per tonne depends on the rock, the climate and the
      emission intensities, not on how much rock is applied. */
  lemma NetTPerTonneIgnoresRate(s: Scenario, t: Scenario)
    requires t == s.(applicationRateTHa := t.applicationRateTHa)
    ensures NetTPerTonne(t) == NetTPerTonne(s)
  {
  }

  /** Scaling the application rate by k scales the annual net removal by k. */
  lemma NetLinearInRate(s: Scenario, k: real, years: int, plotAreaHa: real)
    requires years != 0
    ensures CalculateCo2MassBalance(s.(applicationRateTHa := k * s.applicationRateTHa), years, plotAreaHa).netCo2THaYr
         == k * CalculateCo2MassBalance(s, years, plotAreaHa).netCo2THaYr
  {
    var s' := s.(applicationRateTHa := k * s.applicationRateTHa);
    var g := CalculateCo2MassBalance(s, years, plotAreaHa).netCo2THaYr;
    var g' := CalculateCo2MassBalance(s', years, plotAreaHa).netCo2THaYr;
    var p := NetTPerTonne(s);
    NetTimesYears(s, years, plotAreaHa);
    NetTimesYears(s', years, plotAreaHa);
    NetTPerTonneIgnoresRate(s, s');
    assert g' * years as real == (k * s.applicationRateTHa) * p;
    ScaledByFactor(g, g', years as real, s.applicationRateTHa, p, k);
  }

  /** Net removal is negative exactly when upstream emissions exceed gross
      weathering: nothing clamps it at zero. */
  lemma NetSignFollowsUpstream(s: Scenario, years: int, plotAreaHa: real)
    requires years != 0
    ensures var b := CalculateCo2MassBalance(s, years, plotAreaHa);
            b.netCo2THaYr < 0.0 <==> b.totalUpstreamKgHaYr > b.grossCo2KgHaYr
  {
  }

  /** The base case: 2.7 t/ha, 45 % weathering, 1750 mm, default rock and
      emission figures, 10 years on 2 ha. */
  lemma BaseCaseValues()
    ensures var b := CalculateCo2MassBalance(
              WithDefaults("Lime Replacement (2.7 t/ha/yr)", 2.7, 0.45, 1750.0), 10, 2.0);
            && b.grossCo2KgHaYr == 283.338 / 14.0
            && 20.238 < b.grossCo2KgHaYr < 20.239
            && b.grindingEmissionsKgHaYr == 13.5
            && b.transportEmissionsKgHaYr == 2.7
            && b.totalUpstreamKgHaYr == 16.2
            && 0.0040 < b.netCo2THaYr < 0.0041
            && 80.0 < b.upstreamPctOfGross < 80.1
  {
    var b := CalculateCo2MassBalance(
      WithDefaults("Lime Replacement (2.7 t/ha/yr)", 2.7, 0.45, 1750.0), 10, 2.0);
    assert b.grossCo2KgHaYr == 283.338 / 14.0;
    assert b.grossCo2THaYr == 283.338 / 14000.0;
    assert b.totalUpstreamTHaYr == 0.0162;
  }

  // ---------------------------------------------------------------------
  // Sensitivity sweep

  const SweepEfficiencies: seq<real> := [0.20, 0.30, 0.45, 0.60, 0.70]
  /** The rainfall grid shared by the sweep and the matrix. */
  const RainfallGridMm: seq<real> := [1500.0, 1650.0, 1750.0, 1850.0, 2000.0]
  const SweepRatesTHa: seq<real> := [2.7, 5.0, 10.0, 25.0, 50.0]

  /** One row of the sweep's table. */
  datatype SweepRow = SweepRow(
    efficiencyPercent: real,
    rainfallMm: real,
    applicationRateTHa: real,
    netCo2THaYr: real,
    netCo2THa10yr: real)

  /** The row the sweep reports for one parameter tuple: the mass balance of
      that tuple alone, over the default ten-year horizon. */
  function SweepRowFor(efficiency: real, rainfall: real, rate: real, plotAreaHa: real): SweepRow
  {
    var b := CalculateCo2MassBalance(WithDefaults("", rate, efficiency, rainfall), DefaultYears, plotAreaHa);
    SweepRow(efficiency * 100.0, rainfall, rate, b.netCo2THaYr, b.netCo2THaTotal)
  }

  /** The row at position n of the sweep: efficiency varies slowest, then
      rainfall, then application rate. */
  function SweepRowAt(n: int, plotAreaHa: real): SweepRow
    requires 0 <= n < 125
  {
    SweepRowFor(SweepEfficiencies[n / 25], RainfallGridMm[n / 5 % 5], SweepRatesTHa[n % 5], plotAreaHa)
  }

  lemma SweepPosition(i: int, j: int, k: int, plotAreaHa: real)
    requires 0 <= i < 5 && 0 <= j < 5 && 0 <= k < 5
    ensures 0 <= 25 * i + 5 * j + k < 125
    ensures SweepRowAt(25 * i + 5 * j + k, plotAreaHa)
         == SweepRowFor(SweepEfficiencies[i], RainfallGridMm[j], SweepRatesTHa[k], plotAreaHa)
  {
    GridIndex(i, j, k);
  }

  lemma GridIndex(i: int, j: int, k: int)
    requires 0 <= i < 5 && 0 <= j < 5 && 0 <= k < 5
    ensures (25 * i + 5 * j + k) / 25 == i
    ensures (25 * i + 5 * j + k) / 5 % 5 == j
    ensures (25 * i + 5 * j + k) % 5 == k
  {
    var n := 25 * i + 5 * j + k;
    DivUnique(n, i, 5 * j + k);
    assert n / 5 == 5 * i + j;
  }

  lemma DivUnique(n: int, q: int, r: int)
    requires n == 25 * q + r && 0 <= r < 25
    ensures n / 25 == q
  {
  }

  /** Exactly 5 x 5 x 5 rows, efficiency outermost, then rainfall, then rate;
      each row is the mass balance of its own tuple. The base scenario is
      accepted and not used; the plot area reaches no reported column. */
  method SensitivityAnalysis(baseScenario: Scenario, plotAreaHa: real) returns (rows: seq<SweepRow>)
    ensures |rows| == 125
    ensures forall n :: 0 <= n < 125 ==> rows[n] == SweepRowAt(n, plotAreaHa)
  {
    rows := [];
    for i := 0 to |SweepEfficiencies|
      invariant |rows| == 25 * i
      invariant forall n :: 0 <= n < |rows| ==> rows[n] == SweepRowAt(n, plotAreaHa)
    {
      var eff := SweepEfficiencies[i];
      for j := 0 to |RainfallGridMm|
        invariant |rows| == 25 * i + 5 * j
        invariant forall n :: 0 <= n < |rows| ==> rows[n] == SweepRowAt(n, plotAreaHa)
      {
        var rain := RainfallGridMm[j];
        for k := 0 to |SweepRatesTHa|
          invariant |rows| == 25 * i + 5 * j + k
          invariant forall n :: 0 <= n < |rows| ==> rows[n] == SweepRowAt(n, plotAreaHa)
        {
          var rate := SweepRatesTHa[k];
          var balance := CalculateCo2MassBalance(WithDefaults("", rate, eff, rain), DefaultYears, plotAreaHa);
          var row := SweepRow(eff * 100.0, rain, rate, balance.netCo2THaYr, balance.netCo2THaTotal);
          SweepPosition(i, j, k, plotAreaHa);
          AppendSweepRow(rows, row, plotAreaHa);
          rows := rows + [row];
        }
      }
    }
  }

  /** Appending the row for the next position extends a correct prefix. */
  lemma AppendSweepRow(rows: seq<SweepRow>, row: SweepRow, plotAreaHa: real)
    requires |rows| < 125 && row == SweepRowAt(|rows|, plotAreaHa)
    requires forall n :: 0 <= n < |rows| ==> rows[n] == SweepRowAt(n, plotAreaHa)
    ensures forall n :: 0 <= n < |rows| + 1 ==> (rows + [row])[n] == SweepRowAt(n, plotAreaHa)
  {
  }

  /** Every row of the sweep carries its own parameter tuple, and the
      tuples of two different grid positions differ. */
  lemma SweepKeysUnique(i: int, j: int, k: int, i': int, j': int, k': int, plotAreaHa: real)
    requires 0 <= i < 5 && 0 <= j < 5 && 0 <= k < 5
    requires 0 <= i' < 5 && 0 <= j' < 5 && 0 <= k' < 5
    requires (i, j, k) != (i', j', k')
    ensures var r := SweepRowFor(SweepEfficiencies[i], RainfallGridMm[j], SweepRatesTHa[k], plotAreaHa);
            var r' := SweepRowFor(SweepEfficiencies[i'], RainfallGridMm[j'], SweepRatesTHa[k'], plotAreaHa);
            (r.efficiencyPercent, r.rainfallMm, r.applicationRateTHa)
            != (r'.efficiencyPercent, r'.rainfallMm, r'.applicationRateTHa)
  {
  }

  // ---------------------------------------------------------------------
  // Sensitivity matrix

  const MatrixEfficiencies: seq<real> := [0.20, 0.35, 0.45, 0.60]

  /** One row of the matrix: a rainfall, then the net removal (t/ha/yr) for
      each matrix efficiency in order. */
  datatype MatrixRow = MatrixRow(rainfallMm: real, netByEfficiency: seq<real>)

  /** The net annual removal one matrix cell reports. */
  function MatrixCell(rate: real, efficiency: real, rainfall: real): real
  {
    CalculateCo2MassBalance(WithDefaults("Test", rate, efficiency, rainfall), DefaultYears, DefaultPlotAreaHa).netCo2THaYr
  }

  /** Five rows, one per rainfall, each with the four efficiency columns. */
  method GenerateSensitivityMatrix(applicationRate: real) returns (data: seq<MatrixRow>)
    ensures |data| == 5
    ensures forall r :: 0 <= r < 5 ==>
              data[r].rainfallMm == RainfallGridMm[r] && |data[r].netByEfficiency| == 4
    ensures forall r, c :: 0 <= r < 5 && 0 <= c < 4 ==>
              data[r].netByEfficiency[c] == MatrixCell(applicationRate, MatrixEfficiencies[c], RainfallGridMm[r])
  {
    data := [];
    for r := 0 to |RainfallGridMm|
      invariant |data| == r
      invariant forall r' :: 0 <= r' < r ==>
                  data[r'].rainfallMm == RainfallGridMm[r'] && |data[r'].netByEfficiency| == 4
      invariant forall r', c :: 0 <= r' < r && 0 <= c < 4 ==>
                  data[r'].netByEfficiency[c] == MatrixCell(applicationRate, MatrixEfficiencies[c], RainfallGridMm[r'])
    {
      var rain := RainfallGridMm[r];
      var row := MatrixRow(rain, []);
      for c := 0 to |MatrixEfficiencies|
        invariant row.rainfallMm == rain && |row.netByEfficiency| == c
        invariant forall c' :: 0 <= c' < c ==>
                    row.netByEfficiency[c'] == MatrixCell(applicationRate, MatrixEfficiencies[c'], rain)
      {
        var eff := MatrixEfficiencies[c];
        var balance := CalculateCo2MassBalance(WithDefaults("Test", applicationRate, eff, rain), DefaultYears, DefaultPlotAreaHa);
        row := row.(netByEfficiency := row.netByEfficiency + [balance.netCo2THaYr]);
      }
      data := data + [row];
    }
  }

  /** The first matrix cell (20 % efficiency, 1500 mm, 2.7 t/ha) is negative,
      about -0.0085 t/ha/yr: upstream emissions exceed gross weathering there. */
  lemma LowestMatrixCellIsNegative()
    ensures -0.0085 < MatrixCell(2.7, MatrixEfficiencies[0], RainfallGridMm[0]) < -0.0084
  {
    var b := CalculateCo2MassBalance(WithDefaults("Test", 2.7, 0.20, 1500.0), DefaultYears, DefaultPlotAreaHa);
    assert b.grossCo2KgHaYr == 125.928 / 14.0 * (1500.0 / 1750.0);
    assert b.totalUpstreamKgHaYr == 16.2;
  }

  // ---------------------------------------------------------------------
  // Uncertainty

  const WeatheringUncertainty: real := 0.30
  const EmissionsUncertainty: real := 0.15
  const ExportUncertainty: real := 0.20
  const RainfallUncertainty: real := 0.20

  /** Sum of squares of the four independent component uncertainties; the
      combined uncertainty is its square root. */
  function SumOfSquaredUncertainties(): (q: real)
    ensures q == 0.1925
  {
    WeatheringUncertainty * WeatheringUncertainty
      + EmissionsUncertainty * EmissionsUncertainty
      + ExportUncertainty * ExportUncertainty
      + RainfallUncertainty * RainfallUncertainty
  }

  /** A value that may be missing. */
  datatype Option<T> = None | Some(value: T)

  /** The uncertainty record (unrounded). The two percent changes divide by
      the central estimate; when it is zero the floating-point quotient is
      NaN, modelled as `None`. */
  datatype UncertaintyResult = UncertaintyResult(
    centralEstimateTHaYr: real,
    totalUncertaintyFraction: real,
    marginOfErrorTHaYr: real,
    lowerBound95ci: real,
    upperBound95ci: real,
    percentChangeLower: Option<real>,
    percentChangeUpper: Option<real>)

  /** 95 % interval around the base result's reported net removal.
      `round` is the rounding the source applies to that figure; `total` is
      the square root of the sum of squared component uncertainties. A zero
      central estimate gives a zero margin and bounds and no percent change. */
  function UncertaintyAnalysis(baseResult: Balance, round: (real, int) -> real, total: real): (u: UncertaintyResult)
    requires 0.0 <= total && total * total == SumOfSquaredUncertainties()
    ensures u.centralEstimateTHaYr == round(baseResult.netCo2THaYr, 2)
    ensures u.totalUncertaintyFraction == total
    ensures u.marginOfErrorTHaYr == u.centralEstimateTHaYr * total * 1.96
    ensures u.upperBound95ci - u.centralEstimateTHaYr == u.marginOfErrorTHaYr
    ensures u.centralEstimateTHaYr - u.lowerBound95ci == u.marginOfErrorTHaYr
    ensures u.centralEstimateTHaYr == 0.0 ==>
              u.marginOfErrorTHaYr == 0.0 && u.lowerBound95ci == 0.0 && u.upperBound95ci == 0.0
    ensures u.percentChangeLower.None? <==> u.centralEstimateTHaYr == 0.0
    ensures u.percentChangeUpper.None? <==> u.centralEstimateTHaYr == 0.0
    ensures u.centralEstimateTHaYr != 0.0 ==> u.percentChangeLower == Some(-196.0 * total)
    ensures u.centralEstimateTHaYr != 0.0 ==> u.percentChangeUpper == Some(196.0 * total)
    ensures u.centralEstimateTHaYr > 0.0 ==>
              u.lowerBound95ci < u.centralEstimateTHaYr < u.upperBound95ci
  {
    var central := round(baseResult.netCo2THaYr, 2);
    var margin := central * total * 1.96;
    if central == 0.0 then
      UncertaintyResult(central, total, margin, central - margin, central + margin, None, None)
    else
      PercentChange(central, -(total * 1.96), central - margin);
      PercentChange(central, total * 1.96, central + margin);
      UncertaintyResult(
        central, total, margin,
        central - margin, central + margin,
        Some(((central - margin) / central - 1.0) * 100.0),
        Some(((central + margin) / central - 1.0) * 100.0))
  }

  /** The program's own report: the base case nets about 0.004 t/ha/yr, which
      rounds to a central estimate of 0.0, so its interval collapses to zero
      and neither percent change exists. */
  lemma BaseCaseCentralIsZero(round: (real, int) -> real, total: real)
    requires 0.0 <= total && total * total == SumOfSquaredUncertainties()
    requires forall x :: -0.005 < x < 0.005 ==> round(x, 2) == 0.0
    ensures var u := UncertaintyAnalysis(CalculateCo2MassBalance(
              WithDefaults("Lime Replacement (2.7 t/ha/yr)", 2.7, 0.45, 1750.0), 10, 2.0), round, total);
            && u.centralEstimateTHaYr == 0.0
            && u.lowerBound95ci == 0.0 && u.upperBound95ci == 0.0
            && u.percentChangeLower == None && u.percentChangeUpper == None
  {
    BaseCaseValues();
  }

  /** The combined uncertainty lies between 0.438 and 0.439, so it rounds to
      0.44, not to the 0.42 the documentation gives. */
  lemma CombinedUncertaintyValue(total: real)
    requires 0.0 <= total && total * total == SumOfSquaredUncertainties()
    ensures 0.438 < total < 0.439
  {
    assert total * total == 0.1925;
    var below := total - 0.438;
    assert below * (total + 0.438) == total * total - 0.438 * 0.438;
    assert below * (total + 0.438) > 0.0;
    PositiveFactor(below, total + 0.438);
    var above := 0.439 - total;
    assert above * (0.439 + total) == 0.439 * 0.439 - total * total;
    assert above * (0.439 + total) > 0.0;
    PositiveFactor(above, 0.439 + total);
  }

  // ---------------------------------------------------------------------
  // Arithmetic helpers

  /** A bound that is `(1 + f)` times a non-zero centre lies `100 f` percent
      from it. */
  lemma PercentChange(c: real, f: real, bound: real)
    requires c != 0.0 && bound == c + f * c
    ensures (bound / c - 1.0) * 100.0 == 100.0 * f
  {
    var q := bound / c;
    assert q * c == bound;
    assert (q - 1.0 - f) * c == 0.0;
    ZeroFactor(q - 1.0 - f, c);
  }

  lemma ZeroFactor(a: real, c: real)
    requires c != 0.0 && a * c == 0.0
    ensures a == 0.0
  {
  }

  /** If g * y and g' * y are r * p and (k * r) * p, then g' is k * g. */
  lemma ScaledByFactor(g: real, g': real, y: real, r: real, p: real, k: real)
    requires y != 0.0 && g * y == r * p && g' * y == (k * r) * p
    ensures g' == k * g
  {
    assert g' * y == (k * g) * y;
  }

  lemma PositiveFactor(a: real, b: real)
    requires b > 0.0 && a * b > 0.0
    ensures a > 0.0
  {
  }
}
