/** Unit conversions and rounding, in exact arithmetic. */
module Units {

  const METERS_PER_MILE := 1609.344
  const KM_PER_MILE := 1.609344
  const MPS_PER_MPH := 0.44704

  function MetersToMiles(m: real): real { m / METERS_PER_MILE }
  function MilesToMeters(mi: real): real { mi * METERS_PER_MILE }
  function KmToMiles(km: real): real { km / KM_PER_MILE }
  function MilesToKm(mi: real): real { mi * KM_PER_MILE }
  function MpsToMph(mps: real): real { mps / MPS_PER_MPH }
  function MphToMps(mph: real): real { mph * MPS_PER_MPH }

  // To the nearest integer, halves away from zero.
  function Round(x: real): (n: int)
    ensures -0.5 <= n as real - x <= 0.5
  {
    if x >= 0.0 then (x + 0.5).Floor else -((-x + 0.5).Floor)
  }

  // The whole part, toward zero.
  function Truncated(x: real): int {
    if x >= 0.0 then x.Floor else -((-x).Floor)
  }

  lemma TruncatedIsToZero(x: real)
    ensures x >= 0.0 ==> x - 1.0 < Truncated(x) as real <= x
    ensures x <= 0.0 ==> x <= Truncated(x) as real < x + 1.0
  {
  }

  lemma RoundWhole(n: int)
    ensures Round(n as real) == n
  {
  }

  // Halves go away from zero.
  lemma HalvesGoAway(n: int)
    ensures 0 <= n ==> Round(n as real + 0.5) == n + 1
    ensures n <= 0 ==> Round(n as real - 0.5) == n - 1
  {
  }

  // A whole odometer reading survives the trip through miles.
  lemma OdometerRoundTrip(meters: int)
    ensures Round(MilesToMeters(MetersToMiles(meters as real))) == meters
  {
    assert MilesToMeters(MetersToMiles(meters as real)) == meters as real;
    RoundWhole(meters);
  }

  // Whole miles survive the trip through whole kilometres.
  lemma MileKmMile(miles: int)
    ensures Round(KmToMiles(Round(MilesToKm(miles as real)) as real)) == miles
  {
    var km := Round(MilesToKm(miles as real)) as real;
    var back := KmToMiles(km);
    assert -0.5 <= km - miles as real * KM_PER_MILE <= 0.5;
    assert back * KM_PER_MILE == km;
    assert -0.4 < back - miles as real < 0.4;
  }

  // A whole range in kilometres comes back from whole miles within one kilometre, and only a
  // zero range rounds to zero miles.
  lemma RangeWithinOneKm(km: int)
    ensures var miles := Round(KmToMiles(km as real));
            -1 <= Round(MilesToKm(miles as real)) - km <= 1 && (miles == 0 <==> km == 0)
  {
    var miles := Round(KmToMiles(km as real));
    assert KmToMiles(km as real) * KM_PER_MILE == km as real;
    assert -0.81 <= miles as real * KM_PER_MILE - km as real <= 0.81;
  }

  // A mile is 1609.344 metres and 1.609344 kilometres, a mile per hour 0.44704 metres a second.
  lemma ExactFactors(x: real)
    ensures MetersToMiles(x) * 1609.344 == x && MilesToMeters(x) == x * 1609.344
    ensures KmToMiles(x) * 1.609344 == x && MilesToKm(x) == x * 1.609344
    ensures MpsToMph(x) * 0.44704 == x && MphToMps(x) == x * 0.44704
  {
  }
}
