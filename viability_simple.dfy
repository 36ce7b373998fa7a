/** The dependency-free variant of the viability analysis
    (scripts/viability_analysis_simple.py). Its soil plot, derived ratios and
    pH, organic matter, Mg deficit and CEC tables are those of the full
    script, shared from module Viability; the climate score, the rating
    labels, the CO2 records, the economics and the plot table are its own. */
module ViabilitySimple {
  import V = Viability

  /** Climate score (17-25 points): three rainfall bands (15/12/9) and two
      temperature bands (10/8). */
  function ClimateScoreFor(rainfallMm: real, temperatureC: real): (s: real)
    ensures 17.0 <= s <= 25.0
    ensures s == 25.0 <==> rainfallMm >= 1500.0 && 15.0 <= temperatureC <= 20.0
    ensures s == 17.0 <==> rainfallMm < 1000.0 && !(15.0 <= temperatureC <= 20.0)
  {
    var rainfallScore :=
      if rainfallMm >= 1500.0 then 15.0
      else if rainfallMm >= 1000.0 then 12.0
      else 9.0;
    var tempScore := if 15.0 <= temperatureC <= 20.0 then 10.0 else 8.0;
    rainfallScore + tempScore
  }

  /** The climate score of the analyser's fixed climate (1750 mm, 18 C). */
  function ClimateScore(): (s: real)
    ensures s == 25.0
  {
    ClimateScoreFor(V.AnnualRainfallMm, V.AvgTemperatureC)
  }

  /** The simple climate score never falls below the full script's, and the
      two agree exactly when rainfall is at least 750 mm and the temperature
      lies in 12..23 C. */
  lemma ClimateScoresAgree(rainfallMm: real, temperatureC: real)
    ensures V.ClimateScoreFor(rainfallMm, temperatureC) <= ClimateScoreFor(rainfallMm, temperatureC)
    ensures V.ClimateScoreFor(rainfallMm, temperatureC) == ClimateScoreFor(rainfallMm, temperatureC)
            <==> rainfallMm >= 750.0 && 12.0 <= temperatureC <= 23.0
  {
  }

  /** The viability record of one plot, with a plain-text rating. */
  datatype ViabilityScore = ViabilityScore(
    plotId: string,
    phScore: real,
    omScore: real,
    mgScore: real,
    cecScore: real,
    climateScore: real,
    totalScore: real,
    rating: string)

  /** Plain rating of a total score: the full script's tier for the score
      (thresholds 90/80/70/60/50), named without its stars. */
  function Rating(score: real): (tag: string)
    ensures tag == "EXCEPTIONAL" <==> score >= 90.0
    ensures tag == "EXCELLENT" <==> 80.0 <= score < 90.0
    ensures tag == "VERY GOOD" <==> 70.0 <= score < 80.0
    ensures tag == "GOOD" <==> 60.0 <= score < 70.0
    ensures tag == "MODERATE" <==> 50.0 <= score < 60.0
    ensures tag == "MARGINAL" <==> score < 50.0
  {
    V.Rating(score).Name()
  }

  /** Sum of the five sub-scores under the fixed climate. */
  function TotalViabilityScore(plot: V.SoilPlot): (v: ViabilityScore)
    ensures v.plotId == plot.plotId
    ensures v.phScore == V.PhScore(plot.ph) && v.omScore == V.OmScore(plot.organicMatter)
    ensures v.mgScore == V.MgDeficitScore(V.MgDeficit(plot)) && v.cecScore == V.CecScore(plot.cec)
    ensures v.climateScore == 25.0
    ensures v.totalScore == v.phScore + v.omScore + v.mgScore + v.cecScore + v.climateScore
    ensures 38.0 <= v.totalScore <= 100.0
    ensures v.rating == Rating(v.totalScore)
  {
    var phScore := V.PhScore(plot.ph);
    var omScore := V.OmScore(plot.organicMatter);
    var mgScore := V.MgDeficitScore(V.MgDeficit(plot));
    var cecScore := V.CecScore(plot.cec);
    var climateScore := ClimateScore();
    var total := phScore + omScore + mgScore + cecScore + climateScore;
    ViabilityScore(plot.plotId, phScore, omScore, mgScore, cecScore, climateScore, total, Rating(total))
  }

  /** Under any climate the five sub-scores sum to between 30 and 100. */
  lemma TotalScoreBoundsAnyClimate(plot: V.SoilPlot, rainfallMm: real, temperatureC: real)
    ensures 30.0 <= V.PhScore(plot.ph) + V.OmScore(plot.organicMatter) + V.MgDeficitScore(V.MgDeficit(plot))
                    + V.CecScore(plot.cec) + ClimateScoreFor(rainfallMm, temperatureC) <= 100.0
  {
  }

  /** Both scripts give every plot the same total score and the same tier. */
  lemma TotalsAgreeWithFullScript(plot: V.SoilPlot)
    ensures TotalViabilityScore(plot).totalScore == V.TotalViabilityScore(plot).totalScore
    ensures TotalViabilityScore(plot).rating == V.TotalViabilityScore(plot).rating.Name()
  {
  }

  // ---------------------------------------------------------------------
  // CO2 removal

  datatype LimeReplacementCo2 = LimeReplacementCo2(
    weatheringMultiplier: real,
    co2THaYr: real,
    co2T10yrTotal: real)

  /** Lime replacement, 2.7 t basalt per hectare every year: about
      0.20238 t CO2/ha/yr per unit of multiplier, ten years over the plot. */
  function Co2RemovalLimeReplacement(plot: V.SoilPlot, multiplier: real): (r: LimeReplacementCo2)
    ensures r.weatheringMultiplier == multiplier
    ensures r.co2THaYr == V.LimeCo2PerMultiplier * multiplier
    ensures multiplier > 0.0 ==> 0.20238 * multiplier < r.co2THaYr < 0.20239 * multiplier
    ensures r.co2T10yrTotal == r.co2THaYr * 10.0 * plot.areaHa
  {
    var totalCo2PerHaYr := V.WeatheredCo2THa(V.LimeBasaltRateKgHaYr, multiplier);
    LimeReplacementCo2(multiplier, totalCo2PerHaYr, totalCo2PerHaYr * 10.0 * plot.areaHa)
  }

  datatype FullErwCo2 = FullErwCo2(
    co2THaYrAvg: real,
    co2T10yrTotal: real)

  /** Full ERW, one 50 t/ha application over ten years: the yearly average
      per hectare is 50/27 times the lime scenario's annual figure. The
      source divides by the plot area, so the area must not be zero. */
  function Co2RemovalFullErw(plot: V.SoilPlot, multiplier: real): (r: FullErwCo2)
    requires plot.areaHa != 0.0
    ensures r.co2THaYrAvg == (50.0 / 27.0) * Co2RemovalLimeReplacement(plot, multiplier).co2THaYr
    ensures r.co2T10yrTotal == r.co2THaYrAvg * 10.0 * plot.areaHa
  {
    var perHa := V.WeatheredCo2THa(V.FullErwBasaltRateKgHa, multiplier);
    var totalCo2_10yr := perHa * plot.areaHa;
    assert totalCo2_10yr / 10.0 / plot.areaHa == perHa / 10.0;
    FullErwCo2(totalCo2_10yr / 10.0 / plot.areaHa, totalCo2_10yr)
  }

  /** The two scripts compute the same CO2 figures for the same multiplier. */
  lemma Co2AgreesWithFullScript(plot: V.SoilPlot, multiplier: real)
    requires plot.areaHa != 0.0
    ensures Co2RemovalLimeReplacement(plot, multiplier).co2THaYr
            == V.Co2RemovalLimeReplacement(plot, multiplier).co2THaYr
    ensures Co2RemovalFullErw(plot, multiplier).co2THaYrAvg
            == V.Co2RemovalFullErw(plot, multiplier).co2THaYrAvg
    ensures Co2RemovalFullErw(plot, multiplier).co2T10yrTotal
            == V.Co2RemovalFullErw(plot, multiplier).co2T10yrTotal
  {
  }

  // ---------------------------------------------------------------------
  // Economics

  datatype LimeEconomics = LimeEconomics(
    costSavings: real,
    carbonRevenue: real,
    totalBenefit: real)

  /** Lime-replacement economics per hectare and year: 120 EUR of lime
      replaced by 35.1 EUR of basalt, plus the carbon credits of the CO2
      figure rounded to two decimals by `round`. */
  function CalculateEconomicsLimeReplacement(plot: V.SoilPlot, multiplier: real,
                                             round: (real, int) -> real): (e: LimeEconomics)
    ensures e.costSavings == 84.9
    ensures e.carbonRevenue == V.CarbonCreditPrice * round(Co2RemovalLimeReplacement(plot, multiplier).co2THaYr, 2)
    ensures e.totalBenefit == e.costSavings + e.carbonRevenue
  {
    var limeCost := 3000.0 / 1000.0 * V.LimeCostPerTon;
    var basaltCost := 2700.0 / 1000.0 * V.BasaltCostPerTon;
    var carbonRevenue := round(Co2RemovalLimeReplacement(plot, multiplier).co2THaYr, 2) * V.CarbonCreditPrice;
    var costSavings := limeCost - basaltCost;
    LimeEconomics(costSavings, carbonRevenue, costSavings + carbonRevenue)
  }

  /** The benefit equals the full script's lime-replacement benefit. */
  lemma EconomicsAgreeWithFullScript(plot: V.SoilPlot, multiplier: real, round: (real, int) -> real)
    ensures var e := CalculateEconomicsLimeReplacement(plot, multiplier, round);
            var f := V.CalculateEconomics(plot, multiplier, "lime_replacement", round);
            e.costSavings == f.costSavingsEurHaYr && e.carbonRevenue == f.carbonRevenueEurHaYr
            && e.totalBenefit == f.totalBenefitEurHaYr
  {
  }

  // ---------------------------------------------------------------------
  // Plot table

  /** One row of the plot table (unrounded). */
  datatype PlotRow = PlotRow(
    plotId: string,
    ph: real,
    organicMatter: real,
    mg: real,
    ca: real,
    mgCaRatio: real,
    mgDeficit: real,
    cec: real,
    score: real,
    rating: string,
    weatheringMultiplier: real,
    co2LimeTHaYr: real,
    co2FullTHaYr: real,
    benefitEurHaYr: real)

  /** The row of one plot at a given weathering multiplier. */
  function AnalyzePlot(plot: V.SoilPlot, multiplier: real, round: (real, int) -> real): PlotRow
    requires plot.areaHa != 0.0
  {
    var viability := TotalViabilityScore(plot);
    var co2Lime := Co2RemovalLimeReplacement(plot, multiplier);
    var co2Full := Co2RemovalFullErw(plot, multiplier);
    var economics := CalculateEconomicsLimeReplacement(plot, multiplier, round);
    PlotRow(
      plot.plotId, plot.ph, plot.organicMatter, plot.exchangeableMg, plot.exchangeableCa,
      V.MgCaRatio(plot), V.MgDeficit(plot), plot.cec,
      viability.totalScore, viability.rating,
      co2Lime.weatheringMultiplier, co2Lime.co2THaYr, co2Full.co2THaYrAvg,
      economics.totalBenefit)
  }

  /** One row per plot, in input order; `multiplier` gives each plot's
      weathering-rate multiplier. */
  method AnalyzeAllPlots(plots: seq<V.SoilPlot>, multiplier: V.SoilPlot -> real, round: (real, int) -> real)
    returns (results: seq<PlotRow>)
    requires forall i :: 0 <= i < |plots| ==> plots[i].areaHa != 0.0
    ensures |results| == |plots|
    ensures forall i :: 0 <= i < |plots| ==>
              results[i] == AnalyzePlot(plots[i], multiplier(plots[i]), round)
  {
    results := [];
    for i := 0 to |plots|
      invariant |results| == i
      invariant forall j :: 0 <= j < i ==> results[j] == AnalyzePlot(plots[j], multiplier(plots[j]), round)
    {
      var result := AnalyzePlot(plots[i], multiplier(plots[i]), round);
      results := results + [result];
    }
  }

  /** The table's rows carry each plot's identifier and score, in order. */
  lemma TableFollowsPlots(plots: seq<V.SoilPlot>, multiplier: V.SoilPlot -> real, round: (real, int) -> real,
                          results: seq<PlotRow>, i: int)
    requires forall j :: 0 <= j < |plots| ==> plots[j].areaHa != 0.0
    requires |results| == |plots|
    requires forall j :: 0 <= j < |plots| ==> results[j] == AnalyzePlot(plots[j], multiplier(plots[j]), round)
    requires 0 <= i < |plots|
    ensures results[i].plotId == plots[i].plotId
    ensures 38.0 <= results[i].score <= 100.0
    ensures results[i].rating == Rating(results[i].score)
  {
  }
}
