/**
 The pipeline the page runs for one site: the rainfall and hydrogeology
 estimates for the location, then the calculator on the submitted property.
 */
module Pipeline {
  import opened Wrappers
  import R = Rainfall
  import H = Hydrogeology
  import opened Harvesting

  /**
   One site from location to results. The five `Math.random()` draws are
   parameters in [0, 1). Over everything the estimators can produce, the
   status is good or excellent, a storage tank is chosen exactly on clay,
   and neither degenerate division of the calculator happens.
   */
  method EstimateSite(latitude: real, longitude: real,
                      factorDraw: real, confidenceDraw: real,
                      aquiferDraw: real, qualityDraw: real, subtypeDraw: real,
                      propertyData: PropertyData)
    returns (rainfall: R.RainfallData, hydro: H.HydrogeologyData, results: HarvestingResults)
    requires 0.0 <= factorDraw < 1.0 && 0.0 <= confidenceDraw < 1.0
    requires 0.0 <= aquiferDraw < 1.0 && 0.0 <= qualityDraw < 1.0 && 0.0 <= subtypeDraw < 1.0
    requires propertyData.roofArea >= 10.0
    requires propertyData.landArea >= 50.0
    ensures rainfall.region == R.CityCoords[R.ClosestIndex(latitude, longitude)].city
    ensures results.feasibility.score >= 70
    ensures results.feasibility.status == Excellent || results.feasibility.status == Good
    ensures results.recommendation.primaryStructure == StorageTank <==> propertyData.soilType == "clay"
    ensures results.economics.paybackPeriod.Some?
    ensures results.recommendation.dimensions.width.Some?
    ensures results.recommendation.dimensions.capacity >= 114
  {
    rainfall := R.GenerateRainfallData(latitude, longitude, factorDraw, confidenceDraw);
    hydro := H.GenerateHydrogeologyData(latitude, longitude, aquiferDraw, qualityDraw, subtypeDraw);
    results := CalculateHarvestingResults(propertyData, rainfall, hydro);
    EstimatedTierGivesGoodOrBetter(rainfall.annualRainfall, hydro.suitability.rainwaterHarvesting, propertyData.roofArea);
    TableRainfallAvoidsDegenerateCases(rainfall.region, propertyData.roofArea, propertyData.roofType);
  }
}
