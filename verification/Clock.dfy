/** Instants and durations as the program's standard library measures them: integer
    nanoseconds, a zero instant far in the past, and subtraction that saturates at the
    ends of the signed 64-bit range. */
module Clock {

  type Time = int
  type Duration = int

  const SECOND: Duration := 1_000_000_000
  const MAX_DURATION: Duration := 0x7fff_ffff_ffff_ffff
  const MIN_DURATION: Duration := -0x8000_0000_0000_0000

  // 1 January of year 1, counted from the Unix epoch: the value of an unset time.
  const ZERO: Time := -62_135_596_800 * SECOND

  predicate IsZero(t: Time) {
    t == ZERO
  }

  predicate After(t: Time, u: Time) {
    u < t
  }

  function Sub(t: Time, u: Time): Duration {
    if t - u > MAX_DURATION then MAX_DURATION
    else if t - u < MIN_DURATION then MIN_DURATION
    else t - u
  }

  function Seconds(d: Duration): real {
    d as real / 1_000_000_000.0
  }

  // The latest of the given instants, and never before the zero instant.
  function Latest(ts: seq<Time>): (r: Time)
    ensures ZERO <= r && forall i :: 0 <= i < |ts| ==> ts[i] <= r
    ensures r == ZERO || r in ts
  {
    if ts == [] then ZERO
    else
      var r := Latest(ts[..|ts| - 1]);
      if After(ts[|ts| - 1], r) then ts[|ts| - 1] else r
  }

  method MaxTime(ts: seq<Time>) returns (latest: Time)
    ensures latest == Latest(ts)
  {
    latest := ZERO;
    for i := 0 to |ts|
      invariant latest == Latest(ts[..i])
    {
      assert ts[..i + 1][..i] == ts[..i];
      if After(ts[i], latest) {
        latest := ts[i];
      }
    }
    assert ts[..|ts|] == ts;
  }

  // A duration divided by a positive span exceeds a rate exactly when it exceeds the
  // rate times the span.
  lemma RateAsProduct(distance: real, span: Duration, rate: real)
    requires 0 < span
    ensures distance / Seconds(span) > rate <==> distance * 1_000_000_000.0 > rate * span as real
  {
    var s := Seconds(span);
    assert s > 0.0 && s * 1_000_000_000.0 == span as real;
    var q := distance / s;
    assert q * s == distance;
    if q > rate {
      assert (q - rate) * s > 0.0;
      assert (q - rate) * s == distance - rate * s;
    } else {
      assert (rate - q) * s >= 0.0;
      assert (rate - q) * s == rate * s - distance;
    }
  }
}
