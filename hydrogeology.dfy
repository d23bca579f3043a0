/**
 The hydrogeology estimator: two bounding-box zones decide the aquifer
 name, the depth to water, the permeability, the harvesting suitability,
 the recharge methods and the warnings of a location.
 */
module Hydrogeology {

  /** Suitability for rainwater harvesting, best first. */
  datatype Tier = Excellent | Good | Fair | Poor

  datatype AquiferSubtype = Confined | Unconfined | SemiConfined

  datatype Permeability = High | Medium | Low

  datatype Quality = QualityGood | QualityFair | QualityPoor

  /** The depth to the water table, in the given unit. */
  datatype DepthRange = DepthRange(min: int, max: int, unit: string)

  datatype Suitability = Suitability(rainwaterHarvesting: Tier, rechargeMethod: seq<string>)

  datatype HydrogeologyData = HydrogeologyData(
    aquiferName: string,
    aquiferType: AquiferSubtype,
    depthToWater: DepthRange,
    permeability: Permeability,
    quality: Quality,
    suitability: Suitability,
    warnings: seq<string>,
    recommendations: seq<string>)

  /** The aquifer names a location outside both zones draws from. */
  const AquiferTypes: seq<string> := ["Alluvial", "Hard Rock", "Coastal", "Semi-consolidated", "Volcanic"]

  const AquiferSubtypes: seq<AquiferSubtype> := [Confined, Unconfined, SemiConfined]

  const SaltwaterWarning := "Saltwater intrusion risk in coastal areas"
  const HardRockWarning := "Limited groundwater potential in hard rock areas"

  /** The coastal box: longitude strictly between 72 and 88, latitude strictly between 8 and 25. */
  predicate IsCoastal(latitude: real, longitude: real)
  {
    longitude > 72.0 && longitude < 88.0 && latitude > 8.0 && latitude < 25.0
  }

  /**
   The hard-rock box: latitude strictly between 15 and 25, longitude
   strictly between 74 and 85. It lies inside the coastal box, so every
   hard-rock location is also coastal.
   */
  predicate IsHardRock(latitude: real, longitude: real)
    ensures IsHardRock(latitude, longitude) ==> IsCoastal(latitude, longitude)
  {
    latitude > 15.0 && latitude < 25.0 && longitude > 74.0 && longitude < 85.0
  }

  /** The depth to water: 15 to 45 m on hard rock, 5 to 25 m elsewhere. */
  function DepthToWater(isHardRock: bool): (d: DepthRange)
    ensures d.min <= d.max
    ensures d.unit == "meters"
    ensures isHardRock <==> d.min == 15
  {
    if isHardRock then DepthRange(15, 45, "meters") else DepthRange(5, 25, "meters")
  }

  /**
   The suitability closure: hard rock with a water table deeper than 20 m
   is Fair, then coastal is Good, otherwise Excellent.
   */
  function SuitabilityTier(isHardRock: bool, isCoastal: bool, depthMin: int): (t: Tier)
    ensures t != Poor
    ensures t == Fair <==> isHardRock && depthMin > 20
  {
    if isHardRock && depthMin > 20 then Fair
    else if isCoastal then Good
    else Excellent
  }

  /**
   With the depth the zones give, the Fair branch is never taken: the tier
   is Good exactly on the coastal box and Excellent elsewhere.
   */
  lemma SuitabilityNeverFair(latitude: real, longitude: real)
    ensures var hard := IsHardRock(latitude, longitude);
            var coastal := IsCoastal(latitude, longitude);
            SuitabilityTier(hard, coastal, DepthToWater(hard).min) == (if coastal then Good else Excellent)
  {
  }

  /**
   `generateHydrogeologyData`. The three `Math.random()` draws are the
   parameters `aquiferDraw` (name outside both zones), `qualityDraw` and
   `subtypeDraw`, each in [0, 1).
   */
  method GenerateHydrogeologyData(latitude: real, longitude: real,
                                  aquiferDraw: real, qualityDraw: real, subtypeDraw: real)
    returns (h: HydrogeologyData)
    requires 0.0 <= aquiferDraw < 1.0
    requires 0.0 <= qualityDraw < 1.0
    requires 0.0 <= subtypeDraw < 1.0
    // the hard-rock name wins over the coastal one
    ensures IsHardRock(latitude, longitude) ==> h.aquiferName == "Deccan Trap Hard Rock"
    ensures !IsHardRock(latitude, longitude) && IsCoastal(latitude, longitude) ==> h.aquiferName == "Coastal Alluvial"
    ensures !IsHardRock(latitude, longitude) && !IsCoastal(latitude, longitude) ==>
      h.aquiferName == AquiferTypes[(aquiferDraw * 5.0).Floor]
    ensures h.aquiferType == AquiferSubtypes[(subtypeDraw * 3.0).Floor]
    ensures h.depthToWater.min <= h.depthToWater.max
    ensures h.depthToWater == DepthToWater(IsHardRock(latitude, longitude))
    ensures h.permeability == Medium <==> IsHardRock(latitude, longitude)
    ensures h.permeability == High <==> !IsHardRock(latitude, longitude)
    ensures h.quality == QualityFair <==> qualityDraw > 0.7
    ensures h.quality == QualityGood <==> qualityDraw <= 0.7
    // the tier is never Fair or Poor
    ensures h.suitability.rainwaterHarvesting == Good <==> IsCoastal(latitude, longitude)
    ensures h.suitability.rainwaterHarvesting == Excellent <==> !IsCoastal(latitude, longitude)
    ensures h.suitability.rainwaterHarvesting == Excellent ==>
      h.suitability.rechargeMethod == ["Recharge Pit", "Percolation Tank", "Check Dam"]
    ensures h.suitability.rainwaterHarvesting == Good ==>
      h.suitability.rechargeMethod == ["Recharge Well", "Infiltration Trench"]
    // the coastal warning wins over the hard-rock one, which is thereby never given
    ensures IsCoastal(latitude, longitude) ==> h.warnings == [SaltwaterWarning]
    ensures !IsCoastal(latitude, longitude) ==> h.warnings == []
    ensures HardRockWarning !in h.warnings
    ensures h.recommendations == [
      "Install first flush diverter for water quality",
      "Regular maintenance of collection system required",
      if h.suitability.rainwaterHarvesting == Excellent
      then "Consider multiple recharge structures"
      else "Focus on storage-based systems"]
  {
    var randomAquifer := AquiferTypes[(aquiferDraw * 5.0).Floor];
    var isCoastal := IsCoastal(latitude, longitude);
    var isHardRock := IsHardRock(latitude, longitude);

    var aquiferName := randomAquifer;
    if isCoastal { aquiferName := "Coastal Alluvial"; }
    if isHardRock { aquiferName := "Deccan Trap Hard Rock"; }

    var depth := DepthToWater(isHardRock);
    var permeability := if isHardRock then Medium else High;
    var quality := if qualityDraw > 0.7 then QualityFair else QualityGood;

    var suitability := SuitabilityTier(isHardRock, isCoastal, depth.min);

    var methods: seq<string> := [];
    if suitability == Excellent {
      methods := methods + ["Recharge Pit", "Percolation Tank", "Check Dam"];
    } else if suitability == Good {
      methods := methods + ["Recharge Well", "Infiltration Trench"];
    } else {
      methods := methods + ["Storage Tank", "Rooftop Collection"];
    }

    var warnings: seq<string> :=
      if isCoastal then [SaltwaterWarning]
      else if isHardRock then [HardRockWarning]
      else [];
    var recommendations := [
      "Install first flush diverter for water quality",
      "Regular maintenance of collection system required",
      if suitability == Excellent then "Consider multiple recharge structures" else "Focus on storage-based systems"
    ];

    h := HydrogeologyData(
      aquiferName,
      AquiferSubtypes[(subtypeDraw * 3.0).Floor],
      depth,
      permeability,
      quality,
      Suitability(suitability, methods),
      warnings,
      recommendations);
  }
}
