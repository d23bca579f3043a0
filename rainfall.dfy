/**
 The rainfall estimator: the reference city nearest to a query point, that
 city's monthly rainfall row, the annual total, and a trend and prediction
 derived from the row.
 */
module Rainfall {
  import opened Wrappers
  import opened JsMath

  /** The ten reference cities, in the order their table entries are written. */
  datatype City =
    | Mumbai | Delhi | Bangalore | Chennai | Kolkata
    | Hyderabad | Pune | Ahmedabad | Jaipur | Lucknow

  /** One entry of the coordinate table, in decimal degrees. */
  datatype CityCoord = CityCoord(city: City, lat: real, lon: real)

  datatype Trend = Increasing | Decreasing | Stable

  datatype Prediction = Prediction(nextYear: int, trend: Trend, confidence: int)

  /**
   The rainfall profile of a location. `region` is the matched reference
   city, which the source only renders into its `source` text.
   */
  datatype RainfallData = RainfallData(
    annualRainfall: int,
    monthlyRainfall: seq<int>,
    prediction: Prediction,
    region: City)

  /** The coordinate table, in the order `Object.entries` visits it. */
  const CityCoords: seq<CityCoord> := [
    CityCoord(Mumbai, 19.076, 72.8777),
    CityCoord(Delhi, 28.7041, 77.1025),
    CityCoord(Bangalore, 12.9716, 77.5946),
    CityCoord(Chennai, 13.0827, 80.2707),
    CityCoord(Kolkata, 22.5726, 88.3639),
    CityCoord(Hyderabad, 17.3850, 78.4867),
    CityCoord(Pune, 18.5204, 73.8567),
    CityCoord(Ahmedabad, 23.0225, 72.5714),
    CityCoord(Jaipur, 26.9124, 75.7873),
    CityCoord(Lucknow, 26.8467, 80.9462)
  ]

  /**
   The rainfall table: twelve monthly values in mm, January first. Every
   city has a row, so the source's fallback to Mumbai's row never applies.
   */
  function MonthlyRainfall(c: City): (row: seq<int>)
    ensures |row| == 12
    ensures forall i :: 0 <= i < |row| ==> row[i] >= 0
  {
    match c
    case Mumbai => [16, 6, 13, 18, 38, 585, 840, 534, 315, 125, 35, 18]
    case Delhi => [25, 30, 15, 9, 13, 65, 180, 185, 125, 10, 5, 10]
    case Bangalore => [5, 8, 25, 85, 125, 95, 85, 115, 155, 185, 65, 15]
    case Chennai => [25, 35, 20, 45, 55, 45, 85, 125, 115, 265, 315, 145]
    case Kolkata => [15, 35, 45, 55, 125, 185, 315, 325, 255, 125, 25, 5]
    case Hyderabad => [5, 15, 25, 35, 45, 95, 155, 145, 135, 65, 25, 5]
    case Pune => [5, 8, 15, 25, 35, 165, 185, 125, 95, 65, 15, 5]
    case Ahmedabad => [5, 8, 15, 8, 15, 85, 255, 185, 115, 25, 5, 5]
    case Jaipur => [8, 12, 15, 5, 15, 45, 185, 165, 95, 15, 5, 5]
    case Lucknow => [15, 25, 12, 8, 15, 95, 265, 285, 155, 25, 8, 5]
  }

  // ---------------------------------------------------------------------
  // Nearest reference city
  // ---------------------------------------------------------------------

  /**
   The squared Euclidean distance in (lat, lon) space. The source compares
   square roots of this; the square root is strictly increasing on
   non-negative reals, so both comparisons pick the same entry.
   */
  function SqDistance(lat: real, lon: real, c: CityCoord): (d: real)
    ensures d >= 0.0
  {
    var dLat, dLon := lat - c.lat, lon - c.lon;
    SquareNonNegative(dLat);
    SquareNonNegative(dLon);
    dLat * dLat + dLon * dLon
  }

  /**
   The index held in `closestCity` once the loop of `getClosestCity` has
   visited the first `n` entries: an entry replaces it only when strictly
   closer.
   */
  function NearestAmong(lat: real, lon: real, n: nat): (k: nat)
    requires 1 <= n <= |CityCoords|
    ensures k < n
  {
    if n == 1 then 0
    else
      var k := NearestAmong(lat, lon, n - 1);
      if SqDistance(lat, lon, CityCoords[n - 1]) < SqDistance(lat, lon, CityCoords[k]) then n - 1 else k
  }

  /** The index of the entry `getClosestCity` returns. */
  function ClosestIndex(lat: real, lon: real): (k: nat)
    ensures k < |CityCoords|
    ensures forall j :: 0 <= j < |CityCoords| ==>
      SqDistance(lat, lon, CityCoords[k]) <= SqDistance(lat, lon, CityCoords[j])
    ensures forall j :: 0 <= j < k ==>
      SqDistance(lat, lon, CityCoords[k]) < SqDistance(lat, lon, CityCoords[j])
  {
    NearestAmongIsFirstNearest(lat, lon, |CityCoords|);
    NearestAmong(lat, lon, |CityCoords|)
  }

  /**
   The entry kept after `n` steps is a nearest one among the first `n`, and
   every entry before it is strictly farther: a tie goes to the earliest.
   */
  lemma {:induction false} NearestAmongIsFirstNearest(lat: real, lon: real, n: nat)
    requires 1 <= n <= |CityCoords|
    ensures forall j :: 0 <= j < n ==>
      SqDistance(lat, lon, CityCoords[NearestAmong(lat, lon, n)]) <= SqDistance(lat, lon, CityCoords[j])
    ensures forall j :: 0 <= j < NearestAmong(lat, lon, n) ==>
      SqDistance(lat, lon, CityCoords[NearestAmong(lat, lon, n)]) < SqDistance(lat, lon, CityCoords[j])
  {
    if n > 1 {
      NearestAmongIsFirstNearest(lat, lon, n - 1);
    }
  }

  /** `getClosestCity`: the loop over the coordinate table, keeping the strictly closer entry. */
  method GetClosestCity(lat: real, lon: real) returns (closestCity: City)
    ensures closestCity == CityCoords[ClosestIndex(lat, lon)].city
    ensures exists k :: (0 <= k < |CityCoords| && CityCoords[k].city == closestCity &&
      (forall j :: 0 <= j < |CityCoords| ==>
        SqDistance(lat, lon, CityCoords[k]) <= SqDistance(lat, lon, CityCoords[j])) &&
      (forall j :: 0 <= j < k ==>
        SqDistance(lat, lon, CityCoords[k]) < SqDistance(lat, lon, CityCoords[j])))
  {
    closestCity := Mumbai;
    var minDistance: Option<real> := None;  // None stands for Infinity
    ghost var best := 0;
    var i := 0;
    while i < |CityCoords|
      invariant 0 <= i <= |CityCoords|
      invariant minDistance.None? <==> i == 0
      invariant i > 0 ==> best == NearestAmong(lat, lon, i)
      invariant i > 0 ==> closestCity == CityCoords[best].city
      invariant i > 0 ==> minDistance == Some(SqDistance(lat, lon, CityCoords[best]))
    {
      var entry := CityCoords[i];
      var distance := SqDistance(lat, lon, entry);
      if minDistance.None? || distance < minDistance.value {
        minDistance := Some(distance);
        closestCity := entry.city;
        best := i;
      }
      i := i + 1;
    }
  }

  /** A query exactly at a reference city's coordinates selects that city. */
  lemma ClosestAtCityCoordinates(k: nat)
    requires k < |CityCoords|
    ensures ClosestIndex(CityCoords[k].lat, CityCoords[k].lon) == k
  {
    var lat, lon := CityCoords[k].lat, CityCoords[k].lon;
    var r := ClosestIndex(lat, lon);
    assert SqDistance(lat, lon, CityCoords[k]) == 0.0;
    var dLat, dLon := lat - CityCoords[r].lat, lon - CityCoords[r].lon;
    assert dLat * dLat + dLon * dLon <= 0.0;
    SquareNonNegative(dLat);
    SquareNonNegative(dLon);
    assert dLat == 0.0 && dLon == 0.0;
  }

  /** A point just south-west of Mumbai's coordinates selects Mumbai. */
  lemma NearMumbaiSelectsMumbai()
    ensures CityCoords[ClosestIndex(19.05, 72.85)].city == Mumbai
  {
    var r := ClosestIndex(19.05, 72.85);
    assert SqDistance(19.05, 72.85, CityCoords[0]) < 0.01;
    assert forall j :: 1 <= j < |CityCoords| ==> SqDistance(19.05, 72.85, CityCoords[j]) > 0.01;
  }

  // ---------------------------------------------------------------------
  // Annual total and trend
  // ---------------------------------------------------------------------

  /** The `reduce((sum, month) => sum + month, 0)` of a row (integer addition, so order is immaterial). */
  function Sum(s: seq<int>): int
  {
    if s == [] then 0 else s[0] + Sum(s[1..])
  }

  lemma {:induction false} SumAppend(a: seq<int>, b: seq<int>)
    ensures Sum(a + b) == Sum(a) + Sum(b)
  {
    if a != [] {
      assert (a + b)[1..] == a[1..] + b;
      SumAppend(a[1..], b);
    } else {
      assert a + b == b;
    }
  }

  /** The sum of four values written out. */
  lemma SumOfFour(s: seq<int>)
    requires |s| == 4
    ensures Sum(s) == s[0] + s[1] + s[2] + s[3]
  {
    assert Sum(s[3..]) == s[3] by { assert s[3..][1..] == []; }
    assert Sum(s[2..]) == s[2] + Sum(s[3..]) by { assert s[2..][1..] == s[3..]; }
    assert Sum(s[1..]) == s[1] + Sum(s[2..]) by { assert s[1..][1..] == s[2..]; }
  }

  /** The annual total of a twelve-month row is the sum of its twelve values. */
  lemma SumOfTwelve(s: seq<int>)
    requires |s| == 12
    ensures Sum(s) == s[0] + s[1] + s[2] + s[3] + s[4] + s[5] + s[6] + s[7] + s[8] + s[9] + s[10] + s[11]
  {
    assert s == s[..4] + (s[4..8] + s[8..]);
    SumAppend(s[..4], s[4..8] + s[8..]);
    SumAppend(s[4..8], s[8..]);
    SumOfFour(s[..4]);
    SumOfFour(s[4..8]);
    SumOfFour(s[8..]);
  }

  /** The total rainfall of June to September (indices 5 to 8). */
  function MonsoonTotal(monthly: seq<int>): (total: int)
    requires |monthly| == 12
    ensures total == Sum(monthly[5..9])
  {
    SumOfFour(monthly[5..9]);
    monthly[5] + monthly[6] + monthly[7] + monthly[8]
  }

  /**
   The trend: the mean of `monthly.slice(5, 9)` above 200 mm is increasing,
   below 100 mm decreasing, anything from 100 to 200 mm stable.
   */
  function TrendOf(monthly: seq<int>): (t: Trend)
    requires |monthly| == 12
    ensures t == Increasing <==> MonsoonTotal(monthly) > 800
    ensures t == Decreasing <==> MonsoonTotal(monthly) < 400
    ensures t == Stable <==> 400 <= MonsoonTotal(monthly) <= 800
  {
    var monsoon := monthly[5..9];
    SumOfFour(monsoon);
    var avgMonsoon := Sum(monsoon) as real / |monsoon| as real;
    if avgMonsoon > 200.0 then Increasing
    else if avgMonsoon < 100.0 then Decreasing
    else Stable
  }

  /** A monsoon mean of exactly 150 mm is stable. */
  lemma TrendAtMean150(monthly: seq<int>)
    requires |monthly| == 12
    requires MonsoonTotal(monthly) as real / 4.0 == 150.0
    ensures TrendOf(monthly) == Stable
  {
  }

  /** The threshold is strict: Lucknow's monsoon mean is exactly 200 mm, which is stable. */
  lemma LucknowIsStable()
    ensures MonsoonTotal(MonthlyRainfall(Lucknow)) == 800
    ensures TrendOf(MonthlyRainfall(Lucknow)) == Stable
  {
  }

  /** The annual totals of the table lie between Jaipur's 570 mm and Mumbai's 2543 mm. */
  lemma AnnualTotalRange(c: City)
    ensures 570 <= Sum(MonthlyRainfall(c)) <= 2543
    ensures c == Jaipur <==> Sum(MonthlyRainfall(c)) == 570
    ensures c == Mumbai <==> Sum(MonthlyRainfall(c)) == 2543
  {
    SumOfTwelve(MonthlyRainfall(c));
  }

  // ---------------------------------------------------------------------
  // The profile
  // ---------------------------------------------------------------------

  /**
   The next-year prediction: the total scaled by a factor drawn from
   [0.95, 1.05), rounded; so it lies between the rounded 95% and the rounded
   105% of the total.
   */
  function NextYear(total: int, factorDraw: real): (n: int)
    requires total >= 0
    requires 0.0 <= factorDraw < 1.0
    ensures Round(0.95 * total as real) <= n <= Round(1.05 * total as real)
  {
    var t := total as real;
    var factor := 0.95 + factorDraw * 0.1;
    var scaled := t * factor;
    ScaledTotalBounds(t, factor);
    assert Round(0.95 * t) <= Round(scaled) <= Round(1.05 * t);
    Round(scaled)
  }

  /** Scaling a non-negative `t` by a factor in [0.95, 1.05] keeps its rounding between those of 95% and 105% of `t`. */
  lemma ScaledTotalBounds(t: real, factor: real)
    requires t >= 0.0
    requires 0.95 <= factor <= 1.05
    ensures Round(0.95 * t) <= Round(t * factor) <= Round(1.05 * t)
  {
    ScaledBetween(t, factor);
    RoundMonotone(0.95 * t, t * factor);
    RoundMonotone(t * factor, 1.05 * t);
  }

  lemma ScaledBetween(t: real, factor: real)
    requires t >= 0.0
    requires 0.95 <= factor <= 1.05
    ensures 0.95 * t <= t * factor <= 1.05 * t
  {
    MulMonotone(t, t, 0.95, factor);
    MulMonotone(t, t, factor, 1.05);
    assert t * 0.95 == 0.95 * t;
    assert t * 1.05 == 1.05 * t;
  }

  /** The confidence: 80 plus up to 15 drawn points, rounded; so from 80 to 95. */
  function Confidence(confidenceDraw: real): (c: int)
    requires 0.0 <= confidenceDraw < 1.0
    ensures 80 <= c <= 95
  {
    var x := 80.0 + confidenceDraw * 15.0;
    RoundMonotone(80.0, x);
    RoundMonotone(x, 95.0);
    RoundOfInt(80);
    RoundOfInt(95);
    Round(x)
  }

  /**
   `generateRainfallData`. The two `Math.random()` draws are the parameters
   `factorDraw` (next-year factor) and `confidenceDraw`, each in [0, 1).
   */
  method GenerateRainfallData(latitude: real, longitude: real, factorDraw: real, confidenceDraw: real)
    returns (r: RainfallData)
    requires 0.0 <= factorDraw < 1.0
    requires 0.0 <= confidenceDraw < 1.0
    ensures r.region == CityCoords[ClosestIndex(latitude, longitude)].city
    ensures r.monthlyRainfall == MonthlyRainfall(r.region)
    ensures |r.monthlyRainfall| == 12
    ensures r.annualRainfall == Sum(r.monthlyRainfall)
    ensures 570 <= r.annualRainfall <= 2543
    ensures r.prediction.trend == TrendOf(r.monthlyRainfall)
    ensures r.prediction.nextYear == NextYear(r.annualRainfall, factorDraw)
    ensures r.prediction.nextYear == Round(r.annualRainfall as real * (0.95 + factorDraw * 0.1))
    ensures Round(0.95 * r.annualRainfall as real) <= r.prediction.nextYear <= Round(1.05 * r.annualRainfall as real)
    ensures r.prediction.confidence == Confidence(confidenceDraw)
    ensures 80 <= r.prediction.confidence <= 95
  {
    var closestCity := GetClosestCity(latitude, longitude);
    var monthlyData := MonthlyRainfall(closestCity);
    var totalAnnual := Sum(monthlyData);
    AnnualTotalRange(closestCity);
    var trendAnalysis := TrendOf(monthlyData);
    var nextYear := NextYear(totalAnnual, factorDraw);
    var confidence := Confidence(confidenceDraw);
    r := RainfallData(totalAnnual, monthlyData, Prediction(nextYear, trendAnalysis, confidence), closestCity);
  }
}
