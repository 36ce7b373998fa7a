/** Soil viability rubric, per-plot CO2 removal and farm economics of the
    full viability analysis (scripts/viability_analysis.py). The weathering
    rate multiplier is an input: its closed form uses real powers. */
module Viability {

  /** One agricultural plot's soil analysis. Concentrations in cmol/kg
      (exchangeable cations, CEC), percent (organic matter, base saturation),
      mg/kg (extractable P and K), area in hectares. */
  datatype SoilPlot = SoilPlot(
    plotId: string,
    ph: real,
    organicMatter: real,
    exchangeableCa: real,
    exchangeableMg: real,
    exchangeableK: real,
    cec: real,
    baseSaturation: real,
    pExtractable: real,
    kExtractable: real,
    areaHa: real)

  /** Lower end of the optimal exchangeable Mg range (cmol/kg). */
  const OptimalMgMin: real := 1.5

  /** Mg/Ca ratio, 0 when there is no (positive) calcium to divide by. */
  function MgCaRatio(p: SoilPlot): (r: real)
    ensures p.exchangeableCa > 0.0 ==> r * p.exchangeableCa == p.exchangeableMg
    ensures p.exchangeableCa <= 0.0 ==> r == 0.0
    ensures p.exchangeableCa > 0.0 && p.exchangeableMg >= 0.0 ==> r >= 0.0
  {
    if p.exchangeableCa > 0.0 then p.exchangeableMg / p.exchangeableCa else 0.0
  }

  /** Shortfall of exchangeable Mg below the optimal range, never negative. */
  function MgDeficit(p: SoilPlot): (d: real)
    ensures d >= 0.0 && d >= OptimalMgMin - p.exchangeableMg
    ensures d == 0.0 || d == OptimalMgMin - p.exchangeableMg
    ensures d == 0.0 <==> p.exchangeableMg >= OptimalMgMin
    ensures p.exchangeableMg >= 0.0 ==> d <= OptimalMgMin
  {
    if OptimalMgMin - p.exchangeableMg > 0.0 then OptimalMgMin - p.exchangeableMg else 0.0
  }

  // Climate constants for Sao Miguel
  const AnnualRainfallMm: real := 1750.0
  const AvgTemperatureC: real := 18.0

  // Economic constants (EUR)
  const LimeCostPerTon: real := 40.0
  const BasaltCostPerTon: real := 13.0
  const CarbonCreditPrice: real := 80.0

  // Weathering model parameters
  const BasaltMgoContent: real := 0.08
  const BasaltCaoContent: real := 0.10
  const WeatheringEfficiency: real := 0.45

  // ---------------------------------------------------------------------
  // Sub-scores

  /** pH score (0-30 points): more acidic soil weathers basalt faster. */
  function PhScore(ph: real): (s: real)
    ensures s in {30.0, 29.0, 27.0, 25.0, 20.0, 15.0, 5.0}
    ensures s == 30.0 <==> ph <= 5.2
    ensures s == 5.0 <==> ph > 7.0
  {
    if ph <= 5.2 then 30.0
    else if ph <= 5.5 then 29.0
    else if ph <= 5.8 then 27.0
    else if ph <= 6.0 then 25.0
    else if ph <= 6.5 then 20.0
    else if ph <= 7.0 then 15.0
    else 5.0
  }

  /** Organic matter score (0-20 points). */
  function OmScore(omPercent: real): (s: real)
    ensures s in {20.0, 18.0, 15.0, 12.0, 8.0, 3.0}
    ensures s == 20.0 <==> omPercent >= 12.0
    ensures s == 3.0 <==> omPercent < 4.0
  {
    if omPercent >= 12.0 then 20.0
    else if omPercent >= 10.0 then 18.0
    else if omPercent >= 8.0 then 15.0
    else if omPercent >= 6.0 then 12.0
    else if omPercent >= 4.0 then 8.0
    else 3.0
  }

  /** Mg deficit score (0-15 points): a larger deficit motivates basalt use. */
  function MgDeficitScore(deficit: real): (s: real)
    ensures s in {15.0, 13.0, 11.0, 9.0, 6.0, 2.0}
    ensures s == 15.0 <==> deficit >= 1.5
    ensures s == 2.0 <==> deficit < 0.5
  {
    if deficit >= 1.5 then 15.0
    else if deficit >= 1.2 then 13.0
    else if deficit >= 1.0 then 11.0
    else if deficit >= 0.8 then 9.0
    else if deficit >= 0.5 then 6.0
    else 2.0
  }

  /** CEC score (0-10 points). */
  function CecScore(cec: real): (s: real)
    ensures s in {10.0, 9.0, 8.0, 6.0, 3.0}
    ensures s == 10.0 <==> cec >= 20.0
    ensures s == 3.0 <==> cec < 8.0
  {
    if cec >= 20.0 then 10.0
    else if cec >= 15.0 then 9.0
    else if cec >= 10.0 then 8.0
    else if cec >= 8.0 then 6.0
    else 3.0
  }

  /** Climate score (0-25 points) for a given rainfall and mean temperature:
      a rainfall band (15/12/9/5) plus a temperature band (10/8/5). */
  function ClimateScoreFor(rainfallMm: real, temperatureC: real): (s: real)
    ensures 10.0 <= s <= 25.0
    ensures s == 25.0 <==> rainfallMm >= 1500.0 && 15.0 <= temperatureC <= 20.0
    ensures s == 10.0 <==> rainfallMm < 750.0 && !(12.0 <= temperatureC <= 23.0)
  {
    var rainfallScore :=
      if rainfallMm >= 1500.0 then 15.0
      else if rainfallMm >= 1000.0 then 12.0
      else if rainfallMm >= 750.0 then 9.0
      else 5.0;
    var tempScore :=
      if 15.0 <= temperatureC <= 20.0 then 10.0
      else if 12.0 <= temperatureC <= 23.0 then 8.0
      else 5.0;
    rainfallScore + tempScore
  }

  /** The climate score of the analyser's fixed climate. */
  function ClimateScore(): (s: real)
    ensures s == 25.0
  {
    ClimateScoreFor(AnnualRainfallMm, AvgTemperatureC)
  }

  // ---------------------------------------------------------------------
  // Monotonicity of the rubric

  lemma PhScoreNonIncreasing(a: real, b: real)
    requires a <= b
    ensures PhScore(b) <= PhScore(a)
  {
  }

  lemma OmScoreNonDecreasing(a: real, b: real)
    requires a <= b
    ensures OmScore(a) <= OmScore(b)
  {
  }

  lemma MgDeficitScoreNonDecreasing(a: real, b: real)
    requires a <= b
    ensures MgDeficitScore(a) <= MgDeficitScore(b)
  {
  }

  lemma CecScoreNonDecreasing(a: real, b: real)
    requires a <= b
    ensures CecScore(a) <= CecScore(b)
  {
  }

  /** More rain never lowers the climate score. */
  lemma ClimateScoreNonDecreasingInRain(r1: real, r2: real, t: real)
    requires r1 <= r2
    ensures ClimateScoreFor(r1, t) <= ClimateScoreFor(r2, t)
  {
  }

  // ---------------------------------------------------------------------
  // Total score and rating

  /** Rating tiers, from best to worst. */
  datatype Tier = Exceptional | Excellent | VeryGood | Good | Moderate | Marginal
  {
    /** 5 for the best tier down to 0 for the worst. */
    function Rank(): nat
    {
      match this
      case Exceptional => 5
      case Excellent => 4
      case VeryGood => 3
      case Good => 2
      case Moderate => 1
      case Marginal => 0
    }

    /** Number of stars in the tier's label. */
    function StarCount(): nat
    {
      match this
      case Exceptional => 5
      case Excellent => 5
      case VeryGood => 4
      case Good => 3
      case Moderate => 2
      case Marginal => 1
    }

    /** The tier's name in capitals. */
    function Name(): string
    {
      match this
      case Exceptional => "EXCEPTIONAL"
      case Excellent => "EXCELLENT"
      case VeryGood => "VERY GOOD"
      case Good => "GOOD"
      case Moderate => "MODERATE"
      case Marginal => "MARGINAL"
    }

    /** The label the report prints: its stars, a space and its name. */
    function Label(): (l: string)
      ensures |l| == StarCount() + 1 + |Name()|
      ensures forall i :: 0 <= i < StarCount() ==> l[i] == '\U{2B50}'
      ensures l[StarCount()] == ' ' && l[StarCount() + 1..] == Name()
    {
      StarRow(StarCount()) + " " + Name()
    }
  }

  /** A row of `n` stars. */
  function StarRow(n: nat): (r: string)
    ensures |r| == n && forall i :: 0 <= i < n ==> r[i] == '\U{2B50}'
  {
    if n == 0 then "" else "\U{2B50}" + StarRow(n - 1)
  }

  /** Tier of a total score: thresholds at 50, 60, 70, 80 and 90. A tier of
      rank k in 1..5 means the score reached 40 + 10k; a tier below the top
      means the score stayed under the next threshold, 50 + 10k. */
  function Rating(score: real): (t: Tier)
    ensures t.Rank() > 0 ==> score >= 40.0 + 10.0 * t.Rank() as real
    ensures t.Rank() < 5 ==> score < 50.0 + 10.0 * t.Rank() as real
  {
    if score >= 90.0 then Exceptional
    else if score >= 80.0 then Excellent
    else if score >= 70.0 then VeryGood
    else if score >= 60.0 then Good
    else if score >= 50.0 then Moderate
    else Marginal
  }

  /** The label of every score band as the report prints it: the row of
      stars, then a space and the band's name. */
  lemma RatingLabels(score: real)
    ensures score >= 90.0 ==> Rating(score).Label() == "\U{2B50}\U{2B50}\U{2B50}\U{2B50}\U{2B50}" + " EXCEPTIONAL"
    ensures 80.0 <= score < 90.0 ==> Rating(score).Label() == "\U{2B50}\U{2B50}\U{2B50}\U{2B50}\U{2B50}" + " EXCELLENT"
    ensures 70.0 <= score < 80.0 ==> Rating(score).Label() == "\U{2B50}\U{2B50}\U{2B50}\U{2B50}" + " VERY GOOD"
    ensures 60.0 <= score < 70.0 ==> Rating(score).Label() == "\U{2B50}\U{2B50}\U{2B50}" + " GOOD"
    ensures 50.0 <= score < 60.0 ==> Rating(score).Label() == "\U{2B50}\U{2B50}" + " MODERATE"
    ensures score < 50.0 ==> Rating(score).Label() == "\U{2B50}" + " MARGINAL"
  {
    StarRows();
    var t := Rating(score);
    if score >= 90.0 { assert t == Exceptional; }
    else if score >= 80.0 { assert t == Excellent; }
    else if score >= 70.0 { assert t == VeryGood; }
    else if score >= 60.0 { assert t == Good; }
    else if score >= 50.0 { assert t == Moderate; }
    else { assert t == Marginal; }
  }

  /** The star rows of one to five stars. */
  lemma StarRows()
    ensures StarRow(1) == "\U{2B50}"
    ensures StarRow(2) == "\U{2B50}\U{2B50}"
    ensures StarRow(3) == "\U{2B50}\U{2B50}\U{2B50}"
    ensures StarRow(4) == "\U{2B50}\U{2B50}\U{2B50}\U{2B50}"
    ensures StarRow(5) == "\U{2B50}\U{2B50}\U{2B50}\U{2B50}\U{2B50}"
  {
  }

  /** A higher score never gets a lower tier. */
  lemma RatingMonotone(a: real, b: real)
    requires a <= b
    ensures Rating(a).Rank() <= Rating(b).Rank()
  {
  }

  /** The six tiers have six different names, hence six different labels. */
  lemma NamesDistinct(t: Tier, u: Tier)
    requires t != u
    ensures t.Name() != u.Name()
    ensures t.Label() != u.Label()
  {
    var m, n := t.Name(), u.Name();
    assert m[|m| - 1] != n[|n| - 1] || |m| != |n|;
    var l, k := t.Label(), u.Label();
    assert l[|l| - |m|..] == m && k[|k| - |n|..] == n;
  }

  /** The viability record of one plot. */
  datatype ViabilityScore = ViabilityScore(
    plotId: string,
    phScore: real,
    omScore: real,
    mgScore: real,
    cecScore: real,
    climateScore: real,
    totalScore: real,
    rating: Tier)

  /** Sum of the five sub-scores under the fixed climate; between 38 and 100. */
  function TotalViabilityScore(plot: SoilPlot): (v: ViabilityScore)
    ensures v.plotId == plot.plotId
    ensures v.phScore == PhScore(plot.ph) && v.omScore == OmScore(plot.organicMatter)
    ensures v.mgScore == MgDeficitScore(MgDeficit(plot)) && v.cecScore == CecScore(plot.cec)
    ensures v.climateScore == 25.0
    ensures v.totalScore == v.phScore + v.omScore + v.mgScore + v.cecScore + v.climateScore
    ensures 38.0 <= v.totalScore <= 100.0
    ensures v.rating == Rating(v.totalScore)
  {
    var phScore := PhScore(plot.ph);
    var omScore := OmScore(plot.organicMatter);
    var mgScore := MgDeficitScore(MgDeficit(plot));
    var cecScore := CecScore(plot.cec);
    var climateScore := ClimateScore();
    var total := phScore + omScore + mgScore + cecScore + climateScore;
    ViabilityScore(plot.plotId, phScore, omScore, mgScore, cecScore, climateScore, total, Rating(total))
  }

  /** Under any climate the five sub-scores sum to between 23 and 100. */
  lemma TotalScoreBoundsAnyClimate(plot: SoilPlot, rainfallMm: real, temperatureC: real)
    ensures 23.0 <= PhScore(plot.ph) + OmScore(plot.organicMatter) + MgDeficitScore(MgDeficit(plot))
                    + CecScore(plot.cec) + ClimateScoreFor(rainfallMm, temperatureC) <= 100.0
  {
  }

  // ---------------------------------------------------------------------
  // CO2 removal

  /** Tonnes of CO2 per hectare bound by weathering `basaltKgHa` kilograms of
      basalt at the fixed oxide contents and efficiency, scaled by the
      weathering-rate multiplier. */
  function WeatheredCo2THa(basaltKgHa: real, multiplier: real): real
  {
    var mgoWeathered := basaltKgHa * BasaltMgoContent * WeatheringEfficiency;
    var caoWeathered := basaltKgHa * BasaltCaoContent * WeatheringEfficiency;
    var co2FromMg := mgoWeathered * (44.0 / 40.0) * multiplier / 1000.0;
    var co2FromCa := caoWeathered * (44.0 / 56.0) * multiplier / 1000.0;
    co2FromMg + co2FromCa
  }

  /** Annual t CO2/ha of the lime-replacement scenario per unit multiplier:
      (2700 * 0.08 * 0.45 * 1.1 + 2700 * 0.10 * 0.45 * 44/56) / 1000. */
  const LimeCo2PerMultiplier: real := 2833.38 / 14000.0

  const LimeBasaltRateKgHaYr: real := 2700.0
  const FullErwBasaltRateKgHa: real := 50000.0

  datatype LimeReplacementCo2 = LimeReplacementCo2(
    scenario: string,
    basaltRateKgHaYr: real,
    weatheringMultiplier: real,
    co2THaYr: real,
    co2T10yrTotal: real,
    plotAreaHa: real)

  /** Lime replacement: 2.7 t basalt per hectare every year. The annual
      removal is linear in the multiplier, about 0.20238 t/ha per unit. */
  function Co2RemovalLimeReplacement(plot: SoilPlot, multiplier: real): (r: LimeReplacementCo2)
    ensures r.scenario == "Lime Replacement"
    ensures r.basaltRateKgHaYr == LimeBasaltRateKgHaYr && r.weatheringMultiplier == multiplier
    ensures r.plotAreaHa == plot.areaHa
    ensures r.co2THaYr == LimeCo2PerMultiplier * multiplier
    ensures multiplier > 0.0 ==> 0.20238 * multiplier < r.co2THaYr < 0.20239 * multiplier
    ensures r.co2T10yrTotal == r.co2THaYr * 10.0 * plot.areaHa
  {
    var totalCo2PerHaYr := WeatheredCo2THa(LimeBasaltRateKgHaYr, multiplier);
    LimeReplacementCo2("Lime Replacement", LimeBasaltRateKgHaYr, multiplier, totalCo2PerHaYr,
                       totalCo2PerHaYr * 10.0 * plot.areaHa, plot.areaHa)
  }

  datatype FullErwCo2 = FullErwCo2(
    scenario: string,
    basaltRateKgHaOnetime: real,
    weatheringMultiplier: real,
    co2THa10yr: real,
    co2THaYrAvg: real,
    co2T10yrTotal: real,
    plotAreaHa: real)

  /** Full ERW: one application of 50 t/ha weathering over ten years. The
      per-hectare total is 50000/2700 times the lime scenario's annual
      figure and the yearly average is a tenth of that. The source divides
      by the plot area, so the area must not be zero. */
  function Co2RemovalFullErw(plot: SoilPlot, multiplier: real): (r: FullErwCo2)
    requires plot.areaHa != 0.0
    ensures r.scenario == "Full ERW"
    ensures r.basaltRateKgHaOnetime == FullErwBasaltRateKgHa && r.weatheringMultiplier == multiplier
    ensures r.plotAreaHa == plot.areaHa
    ensures r.co2THa10yr == (500.0 / 27.0) * Co2RemovalLimeReplacement(plot, multiplier).co2THaYr
    ensures r.co2THaYrAvg * 10.0 == r.co2THa10yr
    ensures r.co2T10yrTotal == r.co2THa10yr * plot.areaHa
  {
    var perHa := WeatheredCo2THa(FullErwBasaltRateKgHa, multiplier);
    var totalCo2_10yr := perHa * plot.areaHa;
    var avgCo2PerYr := totalCo2_10yr / 10.0;
    assert totalCo2_10yr / plot.areaHa == perHa;
    assert avgCo2PerYr / plot.areaHa == perHa / 10.0;
    FullErwCo2("Full ERW", FullErwBasaltRateKgHa, multiplier, totalCo2_10yr / plot.areaHa,
               avgCo2PerYr / plot.areaHa, totalCo2_10yr, plot.areaHa)
  }

  /** Both scenarios' annual removal grows with the multiplier. */
  lemma Co2MonotoneInMultiplier(plot: SoilPlot, m1: real, m2: real)
    requires plot.areaHa != 0.0 && m1 <= m2
    ensures Co2RemovalLimeReplacement(plot, m1).co2THaYr <= Co2RemovalLimeReplacement(plot, m2).co2THaYr
    ensures Co2RemovalFullErw(plot, m1).co2THaYrAvg <= Co2RemovalFullErw(plot, m2).co2THaYrAvg
  {
  }

  // ---------------------------------------------------------------------
  // Economics

  datatype Economics = Economics(
    scenario: string,
    limeCostEurHaYr: real,
    basaltCostEurHaYr: real,
    costSavingsEurHaYr: real,
    carbonRevenueEurHaYr: real,
    totalBenefitEurHaYr: real,
    roiPercent: real)

  /** Farm economics per hectare and year. `round(x, n)` is the rounding the
      source applies to the CO2 figure before pricing it. Any scenario other
      than "lime_replacement" is the full-ERW one. */
  function CalculateEconomics(plot: SoilPlot, multiplier: real, scenario: string,
                              round: (real, int) -> real): (e: Economics)
    requires scenario == "lime_replacement" || plot.areaHa != 0.0
    ensures e.scenario == scenario
    ensures scenario == "lime_replacement" ==>
              && e.limeCostEurHaYr == 120.0
              && e.basaltCostEurHaYr == 35.1
              && e.costSavingsEurHaYr == 84.9
              && e.carbonRevenueEurHaYr
                 == CarbonCreditPrice * round(Co2RemovalLimeReplacement(plot, multiplier).co2THaYr, 2)
              && e.totalBenefitEurHaYr == e.costSavingsEurHaYr + e.carbonRevenueEurHaYr
              && e.roiPercent * 35.1 == e.totalBenefitEurHaYr * 100.0
    ensures scenario != "lime_replacement" ==>
              && e.limeCostEurHaYr == 0.0
              && e.basaltCostEurHaYr == 65.0
              && e.costSavingsEurHaYr == 65.0
              && e.carbonRevenueEurHaYr
                 == CarbonCreditPrice * round(Co2RemovalFullErw(plot, multiplier).co2THaYrAvg, 1)
              && e.totalBenefitEurHaYr == e.carbonRevenueEurHaYr - 65.0
              && e.roiPercent * 650.0 == (e.carbonRevenueEurHaYr - 650.0) * 100.0
  {
    var isLime := scenario == "lime_replacement";
    var limeCost := if isLime then 3000.0 / 1000.0 * LimeCostPerTon else 0.0;
    var basaltCost := if isLime then 2700.0 / 1000.0 * BasaltCostPerTon else 50.0 * BasaltCostPerTon;
    var carbonRevenue :=
      if isLime then round(Co2RemovalLimeReplacement(plot, multiplier).co2THaYr, 2) * CarbonCreditPrice
      else round(Co2RemovalFullErw(plot, multiplier).co2THaYrAvg, 1) * CarbonCreditPrice;
    var costSavings := limeCost - basaltCost;
    var totalBenefit := costSavings + carbonRevenue;
    Economics(
      scenario,
      limeCost,
      if isLime then basaltCost else basaltCost / 10.0,
      if isLime then costSavings else basaltCost / 10.0,
      carbonRevenue,
      if isLime then totalBenefit else carbonRevenue - basaltCost / 10.0,
      if scenario == "full_erw" then totalBenefit / basaltCost * 100.0
      else totalBenefit / (if basaltCost > 0.0 then basaltCost else 1.0) * 100.0)
  }

  /** In the full-ERW record the reported cost saving is the amortised basalt
      cost with a positive sign, although lime cost minus amortised basalt
      cost is -65; and the return on investment is taken from the unamortised
      benefit (revenue - 650), not from the reported one (revenue - 65). */
  lemma FullErwReportingQuirks(plot: SoilPlot, multiplier: real, round: (real, int) -> real)
    requires plot.areaHa != 0.0
    ensures var e := CalculateEconomics(plot, multiplier, "full_erw", round);
            && e.costSavingsEurHaYr == e.basaltCostEurHaYr
            && e.limeCostEurHaYr - e.basaltCostEurHaYr == -65.0
            && e.roiPercent * 650.0 == (e.totalBenefitEurHaYr - 585.0) * 100.0
            && e.roiPercent * 650.0 != e.totalBenefitEurHaYr * 100.0
  {
  }

  // ---------------------------------------------------------------------
  // Per-plot analysis

  /** One row of the plot table (unrounded). */
  datatype PlotAnalysis = PlotAnalysis(
    plotId: string,
    ph: real,
    organicMatter: real,
    mg: real,
    ca: real,
    mgCaRatio: real,
    mgDeficit: real,
    cec: real,
    viabilityScore: real,
    rating: Tier,
    weatheringMultiplier: real,
    co2LimeTHaYr: real,
    co2FullTHaYr: real,
    benefitLimeEurHaYr: real,
    benefitFullEurHaYr: real)

  /** The analysis of one plot at a given weathering multiplier. */
  function AnalyzePlot(plot: SoilPlot, multiplier: real, round: (real, int) -> real): PlotAnalysis
    requires plot.areaHa != 0.0
  {
    var viability := TotalViabilityScore(plot);
    var co2Lime := Co2RemovalLimeReplacement(plot, multiplier);
    var co2Full := Co2RemovalFullErw(plot, multiplier);
    var economicsLime := CalculateEconomics(plot, multiplier, "lime_replacement", round);
    var economicsFull := CalculateEconomics(plot, multiplier, "full_erw", round);
    PlotAnalysis(
      plot.plotId, plot.ph, plot.organicMatter, plot.exchangeableMg, plot.exchangeableCa,
      MgCaRatio(plot), MgDeficit(plot), plot.cec,
      viability.totalScore, viability.rating,
      co2Lime.weatheringMultiplier, co2Lime.co2THaYr, co2Full.co2THaYrAvg,
      economicsLime.totalBenefitEurHaYr, economicsFull.totalBenefitEurHaYr)
  }

  /** One row per plot, in input order; `multiplier` gives each plot's
      weathering-rate multiplier. */
  method AnalyzeAllPlots(plots: seq<SoilPlot>, multiplier: SoilPlot -> real, round: (real, int) -> real)
    returns (results: seq<PlotAnalysis>)
    requires forall i :: 0 <= i < |plots| ==> plots[i].areaHa != 0.0
    ensures |results| == |plots|
    ensures forall i :: 0 <= i < |plots| ==>
              results[i] == AnalyzePlot(plots[i], multiplier(plots[i]), round)
  {
    results := [];
    for i := 0 to |plots|
      invariant |results| == i
      invariant forall j :: 0 <= j < i ==> results[j] == AnalyzePlot(plots[j], multiplier(plots[j]), round)
    {
      var result := AnalyzePlot(plots[i], multiplier(plots[i]), round);
      results := results + [result];
    }
  }
}
