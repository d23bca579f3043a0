/**
 The harvesting calculator: from the property, the rainfall profile and the
 hydrogeology profile it derives the harvest volume, a feasibility score and
 status, the recommended structure and its dimensions, the economics and the
 environmental figures.
 */
module Harvesting {
  import opened Wrappers
  import opened JsMath
  import R = Rainfall
  import H = Hydrogeology

  /** What the property form submits; areas in square meters. */
  datatype PropertyData = PropertyData(
    name: string,
    dwellers: int,
    roofArea: real,
    roofType: string,
    soilType: string,
    landArea: real,
    buildingType: string,
    additionalInfo: string)

  datatype Status = Excellent | Good | Fair | Poor

  datatype Structure = RechargePit | RechargeWell | StorageTank

  datatype Feasibility = Feasibility(status: Status, score: int)

  /** Volumes in liters; `efficiency` is the runoff coefficient in percent. */
  datatype Potential = Potential(annualHarvest: int, monthlyAverage: int, dailyAverage: int, efficiency: int)

  /**
   Structure dimensions in meters and its capacity in liters. `width` is
   None where the source computes `Math.ceil(0 / 0)`, which is NaN.
   */
  datatype Dimensions = Dimensions(length: int, width: Option<int>, depth: int, capacity: int)

  datatype Recommendation = Recommendation(
    primaryStructure: Structure,
    secondaryStructures: seq<string>,
    dimensions: Dimensions)

  /**
   Costs and savings in rupees. `paybackPeriod` (years, one decimal) is None
   where the source divides by zero savings.
   */
  datatype Economics = Economics(totalCost: int, annualSavings: int, paybackPeriod: Option<real>, roi: int)

  /** kg of CO2 per year, liters per year, and percent. */
  datatype Environmental = Environmental(carbonReduction: int, groundwaterRecharge: int, floodReduction: int)

  datatype HarvestingResults = HarvestingResults(
    feasibility: Feasibility,
    potential: Potential,
    recommendation: Recommendation,
    economics: Economics,
    environmental: Environmental)

  // ---------------------------------------------------------------------
  // Runoff and harvest volume
  // ---------------------------------------------------------------------

  const RunoffCoefficients: map<string, real> :=
    map["concrete" := 0.85, "tile" := 0.75, "metal" := 0.90, "asbestos" := 0.80, "thatched" := 0.20]

  /**
   `runoffCoefficients[roofType] || 0.75`: the table entry, or 0.75 for a
   roof type the table does not have. No entry is 0, so the fallback never
   replaces a table value.
   */
  function RunoffCoefficient(roofType: string): (c: real)
    ensures 0.2 <= c <= 0.9
    ensures roofType in RunoffCoefficients ==> c == RunoffCoefficients[roofType]
    ensures roofType !in RunoffCoefficients ==> c == 0.75
  {
    if roofType in RunoffCoefficients && RunoffCoefficients[roofType] != 0.0
    then RunoffCoefficients[roofType]
    else 0.75
  }

  /**
   The annual harvest in liters, `V = P * A * Cr`: rainfall converted from
   mm to m, times roof area and coefficient, converted from m3 to liters.
   The two conversions cancel.
   */
  function AnnualHarvest(annualRainfall: int, roofArea: real, coefficient: real): (v: int)
    ensures v == Round(annualRainfall as real * roofArea * coefficient)
  {
    Round(annualRainfall as real / 1000.0 * roofArea * coefficient * 1000.0)
  }

  /** The harvest grows with the rainfall, the roof area and the coefficient. */
  lemma AnnualHarvestMonotone(rain1: int, rain2: int, roof1: real, roof2: real, c1: real, c2: real)
    requires 0 <= rain1 <= rain2
    requires 0.0 <= roof1 <= roof2
    requires 0.0 <= c1 <= c2
    ensures AnnualHarvest(rain1, roof1, c1) <= AnnualHarvest(rain2, roof2, c2)
  {
    var a1, a2 := rain1 as real * roof1, rain2 as real * roof2;
    MulMonotone(rain1 as real, rain2 as real, roof1, roof2);
    assert 0.0 <= a1 by { MulMonotone(0.0, rain1 as real, 0.0, roof1); }
    MulMonotone(a1, a2, c1, c2);
    RoundMonotone(a1 * c1, a2 * c2);
  }

  /** The worked example: 1000 mm on 100 m2 of concrete-like roof (0.85) gives 85000 liters. */
  lemma AnnualHarvestExample()
    ensures AnnualHarvest(1000, 100.0, 0.85) == 85000
  {
    RoundOfInt(85000);
  }

  // ---------------------------------------------------------------------
  // Feasibility
  // ---------------------------------------------------------------------

  function RainfallBonus(annualRainfall: int): int
  {
    if annualRainfall > 1200 then 20 else if annualRainfall > 800 then 10 else 0
  }

  function SuitabilityBonus(tier: H.Tier): int
  {
    match tier
    case Excellent => 15
    case Good => 10
    case Fair => 5
    case Poor => 0
  }

  function RoofBonus(roofArea: real): int
  {
    if roofArea > 200.0 then 5 else 0
  }

  /** The feasibility score: 60 plus the three bonuses, capped at 95. */
  function FeasibilityScore(annualRainfall: int, tier: H.Tier, roofArea: real): (score: int)
    ensures 60 <= score <= 95
  {
    Min(60 + RainfallBonus(annualRainfall) + SuitabilityBonus(tier) + RoofBonus(roofArea), 95)
  }

  /** The order of the suitability tiers, Poor lowest. */
  function TierRank(tier: H.Tier): nat
  {
    match tier
    case Poor => 0
    case Fair => 1
    case Good => 2
    case Excellent => 3
  }

  /** The score never falls when rainfall, suitability tier or roof area rises. */
  lemma FeasibilityScoreMonotone(rain1: int, rain2: int, tier1: H.Tier, tier2: H.Tier, roof1: real, roof2: real)
    requires rain1 <= rain2
    requires TierRank(tier1) <= TierRank(tier2)
    requires roof1 <= roof2
    ensures FeasibilityScore(rain1, tier1, roof1) <= FeasibilityScore(rain2, tier2, roof2)
  {
  }

  /** The score reaches its cap: over 1200 mm, Excellent and a roof over 200 m2 would give 100. */
  lemma FeasibilityScoreCapReached()
    ensures FeasibilityScore(1201, H.Excellent, 201.0) == 95
  {
  }

  /** The status thresholds: 80 or more excellent, 65 good, 50 fair, below that poor. */
  function StatusOf(score: int): (s: Status)
    ensures s == Excellent <==> score >= 80
    ensures s == Good <==> 65 <= score < 80
    ensures s == Fair <==> 50 <= score < 65
    ensures s == Poor <==> score < 50
  {
    if score >= 80 then Excellent
    else if score >= 65 then Good
    else if score >= 50 then Fair
    else Poor
  }

  /** A score is at least 60, so the status is never poor. */
  lemma StatusNeverPoor(annualRainfall: int, tier: H.Tier, roofArea: real)
    ensures StatusOf(FeasibilityScore(annualRainfall, tier, roofArea)) != Poor
  {
  }

  /**
   The hydrogeology estimator only yields the tiers Excellent and Good; with
   either the score is at least 70, so the status is good or excellent.
   */
  lemma EstimatedTierGivesGoodOrBetter(annualRainfall: int, tier: H.Tier, roofArea: real)
    requires tier == H.Excellent || tier == H.Good
    ensures FeasibilityScore(annualRainfall, tier, roofArea) >= 70
    ensures StatusOf(FeasibilityScore(annualRainfall, tier, roofArea)) in {Excellent, Good}
  {
  }

  /**
   `Math.round(total / periods)`: the per-period average to the nearest
   liter, so that `periods` of it are within half a period of the total.
   */
  function PerPeriod(total: int, periods: int): (avg: int)
    requires periods > 0
    ensures (avg as real - 0.5) * periods as real <= total as real < (avg as real + 0.5) * periods as real
  {
    var r := Round(total as real / periods as real);
    QuotientBounds(total as real, periods as real, r as real - 0.5, r as real + 0.5);
    r
  }

  /** Clearing the denominator of `lo <= t / p < hi` for a positive `p`. */
  lemma QuotientBounds(t: real, p: real, lo: real, hi: real)
    requires p > 0.0
    requires lo <= t / p < hi
    ensures lo * p <= t < hi * p
  {
    var q := t / p;
    assert q * p == t;
    ScaleLe(lo, q, p);
    ScaleLt(q, hi, p);
  }

  // ---------------------------------------------------------------------
  // Economics
  // ---------------------------------------------------------------------

  /** The installation cost: 150 rupees per m2 of roof plus 20% overhead. */
  function TotalCost(roofArea: real): (cost: int)
    ensures roofArea >= 10.0 ==> cost >= 1800
  {
    Round(roofArea * 150.0 * 1.2)
  }

  /** The yearly savings: 0.02 rupees per harvested liter. */
  function AnnualSavings(annualHarvest: int): (savings: int)
    ensures annualHarvest >= 0 ==> 0 <= savings <= annualHarvest
  {
    Round(annualHarvest as real * 0.02)
  }

  /**
   `Math.round(totalCost / annualSavings * 10) / 10`: the payback in years to
   one decimal, within 0.05 of the exact quotient; None for zero savings,
   where the source's quotient is Infinity or NaN.
   */
  function PaybackPeriod(totalCost: int, annualSavings: int): (p: Option<real>)
    requires annualSavings >= 0
    ensures p.None? <==> annualSavings == 0
    ensures p.Some? ==>
      var exact := totalCost as real / annualSavings as real;
      exact - 0.05 < p.value <= exact + 0.05
  {
    if annualSavings == 0 then None
    else Some(Round(totalCost as real / annualSavings as real * 10.0) as real / 10.0)
  }

  /** The return on investment in percent of the cost. */
  function Roi(annualSavings: int, totalCost: int): (roi: int)
    requires totalCost > 0
    requires annualSavings >= 0
    ensures roi >= 0
    ensures annualSavings <= totalCost ==> roi <= 100
  {
    var ratio := annualSavings as real / totalCost as real;
    assert ratio >= 0.0;
    assert annualSavings <= totalCost ==> ratio <= 1.0;
    Round(ratio * 100.0)
  }

  // ---------------------------------------------------------------------
  // Structure sizing
  // ---------------------------------------------------------------------

  /** The storage volume, 10% of the annual harvest, in liters. */
  function StorageVolume(annualHarvest: int): (volume: int)
    ensures annualHarvest >= 0 ==> 0 <= volume <= annualHarvest
  {
    Round(annualHarvest as real * 0.1)
  }

  /**
   The plan of a structure of the given depth holding `volume` liters: its
   floor area in m2 is `volume / (depth * 1000)`, the length the ceiling of
   the area's square root, the width the ceiling of area / length.
   */
  function SizeStructure(volume: int, depth: int): (d: Dimensions)
    requires volume >= 0
    requires depth > 0
    ensures d.depth == depth && d.capacity == volume
    ensures volume == 0 <==> d.width.None?
    ensures volume == 0 ==> d.length == 0
    ensures volume > 0 ==> d.length >= 1 && d.width.value >= 1
  {
    var area := volume as real / (depth * 1000) as real;
    var length := CeilSqrt(area);
    if length == 0 then Dimensions(0, None, depth, volume)
    else
      var width := Ceil(area / length as real);
      assert width >= 1;
      Dimensions(length, Some(width), depth, volume)
  }

  /** A width within one below `area / length` (as `Ceil` gives) makes the plan cover the area, and one less would not. */
  lemma WidthCoversArea(area: real, length: int, w: int)
    requires area > 0.0
    requires length >= 1
    requires area / length as real <= w as real < area / length as real + 1.0
    ensures (length * w) as real >= area && (length * (w - 1)) as real < area
  {
    var n, q := length as real, area / length as real;
    assert q * n == area;
    CoverByWidth(q, n, area, w as real);
    CastProduct(length, w);
    CastProduct(length, w - 1);
  }

  lemma CastProduct(a: int, b: int)
    ensures (a * b) as real == b as real * a as real
  {
  }

  /** A floor area of at least (below) `volume / (depth * 1000)` m2 gives at least (below) `volume` liters. */
  lemma AreaToVolume(volume: int, depth: int, x: int)
    requires depth > 0
    ensures x as real >= volume as real / (depth * 1000) as real ==> x * depth * 1000 >= volume
    ensures x as real < volume as real / (depth * 1000) as real ==> x * depth * 1000 < volume
  {
    var scale := (depth * 1000) as real;
    var area := volume as real / scale;
    assert area * scale == volume as real;
    assert (x * depth * 1000) as real == x as real * scale;
    if x as real >= area {
      ScaleLe(area, x as real, scale);
    } else {
      ScaleLt(x as real, area, scale);
    }
  }

  /**
   For a positive volume the structure holds it, with no slack to spare:
   `length * width * depth * 1000 >= volume`, while a square of one meter
   less length, or one meter less width, would not hold it.
   */
  lemma SizeStructureHoldsVolume(volume: int, depth: int)
    requires volume > 0
    requires depth > 0
    ensures var d := SizeStructure(volume, depth);
            d.width.Some? &&
            d.length * d.width.value * depth * 1000 >= volume &&
            (d.length - 1) * (d.length - 1) * depth * 1000 < volume &&
            d.length * (d.width.value - 1) * depth * 1000 < volume
  {
    var d := SizeStructure(volume, depth);
    var area := volume as real / (depth * 1000) as real;
    var l, w := d.length, d.width.value;
    assert l == CeilSqrt(area) && w == Ceil(area / l as real);
    WidthCoversArea(area, l, w);
    AreaToVolume(volume, depth, l * w);
    AreaToVolume(volume, depth, (l - 1) * (l - 1));
    AreaToVolume(volume, depth, l * (w - 1));
  }

  // ---------------------------------------------------------------------
  // Environmental figures
  // ---------------------------------------------------------------------

  /** The flood reduction: 30 times the roof-to-land ratio, in percent, capped at 45. */
  function FloodReduction(roofArea: real, landArea: real): (f: int)
    requires roofArea >= 0.0
    requires landArea > 0.0
    ensures 0 <= f <= 45
    ensures roofArea <= landArea ==> f <= 30
  {
    var ratio := roofArea / landArea;
    assert ratio >= 0.0;
    assert roofArea <= landArea ==> ratio <= 1.0;
    Min(Round(ratio * 30.0), 45)
  }

  /** The carbon reduction: 0.5 g of CO2 per harvested liter, in kilograms. */
  function CarbonReduction(annualHarvest: int): (c: int)
    ensures annualHarvest >= 0 ==> 0 <= c <= annualHarvest
  {
    Round(annualHarvest as real * 0.0005)
  }

  /** The groundwater recharge: 80% of the harvest. */
  function GroundwaterRecharge(annualHarvest: int): (g: int)
    ensures annualHarvest >= 0 ==> 0 <= g <= annualHarvest
  {
    Round(annualHarvest as real * 0.8)
  }

  // ---------------------------------------------------------------------
  // Facts about the table's rainfall
  // ---------------------------------------------------------------------

  /**
   Every reference city gets at least 570 mm a year, so a roof of at least
   10 m2 harvests at least 1140 liters whatever its type: the savings are
   positive (no division by zero in the payback) and so is the storage
   volume (no 0 / 0 in the width).
   */
  lemma TableRainfallAvoidsDegenerateCases(c: R.City, roofArea: real, roofType: string)
    requires roofArea >= 10.0
    ensures var h := AnnualHarvest(R.Sum(R.MonthlyRainfall(c)), roofArea, RunoffCoefficient(roofType));
            h >= 1140 && AnnualSavings(h) >= 23 && StorageVolume(h) >= 114
  {
    var rain := R.Sum(R.MonthlyRainfall(c));
    R.AnnualTotalRange(c);
    var coefficient := RunoffCoefficient(roofType);
    AnnualHarvestMonotone(570, rain, 10.0, roofArea, 0.2, coefficient);
    var h := AnnualHarvest(rain, roofArea, coefficient);
    assert AnnualHarvest(570, 10.0, 0.2) == 1140 by { RoundOfInt(1140); }
    RoundMonotone(1140.0 * 0.02, h as real * 0.02);
    RoundMonotone(1140.0 * 0.1, h as real * 0.1);
    RoundOfInt(114);
  }

  /**
   The regression scenario: 1200 mm on a 100 m2 concrete roof with Good
   suitability harvests 102000 liters; 1200 mm is not above 1200, so the
   score is 60 + 10 + 10 = 80, which is excellent.
   */
  lemma RegressionScenario()
    ensures AnnualHarvest(1200, 100.0, RunoffCoefficient("concrete")) == 102000
    ensures FeasibilityScore(1200, H.Good, 100.0) == 80
    ensures StatusOf(FeasibilityScore(1200, H.Good, 100.0)) == Excellent
  {
    RoundOfInt(102000);
  }

  // ---------------------------------------------------------------------
  // The calculator
  // ---------------------------------------------------------------------

  /**
   `calculateHarvestingResults`. The property form does not submit a roof
   under 10 m2 or a land area under 50 m2; the rainfall total is a sum of
   non-negative monthly values. The reason strings are not modelled.
   */
  method CalculateHarvestingResults(propertyData: PropertyData, rainfallData: R.RainfallData,
                                    hydroData: H.HydrogeologyData)
    returns (r: HarvestingResults)
    requires propertyData.roofArea >= 10.0
    requires propertyData.landArea >= 50.0
    requires rainfallData.annualRainfall >= 0
    // harvest
    ensures r.potential.annualHarvest ==
      AnnualHarvest(rainfallData.annualRainfall, propertyData.roofArea, RunoffCoefficient(propertyData.roofType))
    ensures r.potential.annualHarvest >= 0
    ensures r.potential.monthlyAverage == PerPeriod(r.potential.annualHarvest, 12)
    ensures r.potential.dailyAverage == PerPeriod(r.potential.annualHarvest, 365)
    ensures r.potential.efficiency == Round(RunoffCoefficient(propertyData.roofType) * 100.0)
    ensures 20 <= r.potential.efficiency <= 90
    // feasibility
    ensures r.feasibility.score ==
      FeasibilityScore(rainfallData.annualRainfall, hydroData.suitability.rainwaterHarvesting, propertyData.roofArea)
    ensures 60 <= r.feasibility.score <= 95
    ensures r.feasibility.status == StatusOf(r.feasibility.score)
    ensures r.feasibility.status != Poor
    // structure
    ensures r.recommendation.primaryStructure == StorageTank <==>
      (hydroData.suitability.rainwaterHarvesting == H.Poor || propertyData.soilType == "clay")
    ensures r.recommendation.primaryStructure == RechargeWell <==>
      (hydroData.suitability.rainwaterHarvesting != H.Poor && propertyData.soilType != "clay" &&
       propertyData.landArea < 100.0)
    ensures r.recommendation.primaryStructure == RechargePit <==>
      (hydroData.suitability.rainwaterHarvesting != H.Poor && propertyData.soilType != "clay" &&
       propertyData.landArea >= 100.0)
    ensures r.recommendation.secondaryStructures == ["First Flush Diverter", "Filter System", "Distribution Network"]
    // dimensions
    ensures r.recommendation.dimensions.depth == (if r.recommendation.primaryStructure == StorageTank then 2 else 3)
    ensures r.recommendation.dimensions ==
      SizeStructure(StorageVolume(r.potential.annualHarvest), r.recommendation.dimensions.depth)
    ensures 0 <= r.recommendation.dimensions.capacity <= r.potential.annualHarvest
    // economics
    ensures r.economics.totalCost == TotalCost(propertyData.roofArea) >= 1800
    ensures r.economics.annualSavings == AnnualSavings(r.potential.annualHarvest)
    ensures r.economics.paybackPeriod.None? <==> r.economics.annualSavings == 0
    ensures r.economics.paybackPeriod == PaybackPeriod(r.economics.totalCost, r.economics.annualSavings)
    ensures r.economics.roi == Roi(r.economics.annualSavings, r.economics.totalCost)
    ensures r.economics.roi >= 0
    ensures r.economics.annualSavings <= r.economics.totalCost ==> r.economics.roi <= 100
    // environment
    ensures r.environmental.carbonReduction == CarbonReduction(r.potential.annualHarvest)
    ensures 0 <= r.environmental.carbonReduction <= r.potential.annualHarvest
    ensures r.environmental.groundwaterRecharge == GroundwaterRecharge(r.potential.annualHarvest)
    ensures 0 <= r.environmental.groundwaterRecharge <= r.potential.annualHarvest
    ensures r.environmental.floodReduction == FloodReduction(propertyData.roofArea, propertyData.landArea)
    ensures 0 <= r.environmental.floodReduction <= 45
    ensures propertyData.roofArea <= propertyData.landArea ==> r.environmental.floodReduction <= 30
  {
    var coefficient := RunoffCoefficient(propertyData.roofType);
    var annualRainfall := rainfallData.annualRainfall;
    var roofArea := propertyData.roofArea;
    var annualHarvest := AnnualHarvest(annualRainfall, roofArea, coefficient);
    AnnualHarvestMonotone(0, annualRainfall, 0.0, roofArea, 0.0, coefficient);
    assert AnnualHarvest(0, 0.0, 0.0) == 0;

    var tier := hydroData.suitability.rainwaterHarvesting;
    var feasibilityScore := 60;
    if annualRainfall > 1200 {
      feasibilityScore := feasibilityScore + 20;
    } else if annualRainfall > 800 {
      feasibilityScore := feasibilityScore + 10;
    }
    if tier == H.Excellent {
      feasibilityScore := feasibilityScore + 15;
    } else if tier == H.Good {
      feasibilityScore := feasibilityScore + 10;
    } else if tier == H.Fair {
      feasibilityScore := feasibilityScore + 5;
    }
    if roofArea > 200.0 {
      feasibilityScore := feasibilityScore + 5;
    }
    feasibilityScore := Min(feasibilityScore, 95);
    var feasibilityStatus := StatusOf(feasibilityScore);

    var totalCost := TotalCost(roofArea);
    var annualSavings := AnnualSavings(annualHarvest);
    var paybackPeriod := PaybackPeriod(totalCost, annualSavings);

    var primaryStructure := RechargePit;
    if tier == H.Poor || propertyData.soilType == "clay" {
      primaryStructure := StorageTank;
    } else if propertyData.landArea < 100.0 {
      primaryStructure := RechargeWell;
    }

    var volume := StorageVolume(annualHarvest);
    var depth := if primaryStructure == StorageTank then 2 else 3;
    var dimensions := SizeStructure(volume, depth);

    var efficiency := Round(coefficient * 100.0);
    RoundMonotone(20.0, coefficient * 100.0);
    RoundMonotone(coefficient * 100.0, 90.0);
    RoundOfInt(20);
    RoundOfInt(90);

    r := HarvestingResults(
      Feasibility(feasibilityStatus, feasibilityScore),
      Potential(annualHarvest, PerPeriod(annualHarvest, 12), PerPeriod(annualHarvest, 365), efficiency),
      Recommendation(primaryStructure, ["First Flush Diverter", "Filter System", "Distribution Network"], dimensions),
      Economics(totalCost, annualSavings, paybackPeriod, Roi(annualSavings, totalCost)),
      Environmental(
        CarbonReduction(annualHarvest),
        GroundwaterRecharge(annualHarvest),
        FloodReduction(roofArea, propertyData.landArea)));
  }
}
