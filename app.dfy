/**
 * The client-side logic of the trip planner page (frontend/src/app.js): the
 * one-field update of the form inputs and the placement of fuel and rest stop
 * markers at evenly spaced vertices of the route polyline.
 */
module App {
  import opened Wrappers
  import TripView

  type Coord = TripView.Point

  /** A form value: the initial cycle hours is a number, everything typed in is text. */
  datatype InputValue = Text(text: string) | Number(number: real)

  /** The part of the planner's response that the stop placement reads. A field
      that is absent, `null` or NaN is `None`. */
  datatype Route = Route(
    coordinates: Option<seq<Coord>>,
    distanceMiles: Option<real>,
    estimatedDriveHours: Option<real>)

  /** Reading a component of `coords[i * step]` when that entry is `undefined`. */
  datatype Error = TypeError

  const RestEveryHours: real := 8.0

  /** The form's initial inputs. */
  function InitialInputs(): (inputs: map<string, InputValue>)
    ensures inputs.Keys == {"current", "pickup", "dropoff", "current_cycle_used_hours"}
  {
    map["current" := Text("24.8607,67.0011"),
        "pickup" := Text("24.8607,67.0011"),
        "dropoff" := Text("33.6844,73.0479"),
        "current_cycle_used_hours" := Number(0.0)]
  }

  /** `handleChange`: the field named by the event takes the event's value. */
  function HandleChange(inputs: map<string, InputValue>, name: string, value: string)
    : (updated: map<string, InputValue>)
    ensures updated.Keys == inputs.Keys + {name}
    ensures updated[name] == Text(value)
    ensures forall field :: field in inputs && field != name ==> updated[field] == inputs[field]
  {
    inputs[name := Text(value)]
  }

  // ---------------------------------------------------------------------------
  // Stop counts
  // ---------------------------------------------------------------------------

  /** `Math.floor(distance_miles / 1000) || 0`. */
  function FuelStopCount(route: Route): (n: int)
    ensures route.distanceMiles.None? ==> n == 0
    ensures route.distanceMiles.Some? ==>
              n as real * TripView.FuelRangeMiles <= route.distanceMiles.value < (n + 1) as real * TripView.FuelRangeMiles
  {
    match route.distanceMiles
    case None => 0
    case Some(d) => (d / TripView.FuelRangeMiles).Floor
  }

  /** `Math.floor((estimated_drive_hours || 0) / 8)`. */
  function RestStopCount(route: Route): (n: int)
    ensures route.estimatedDriveHours.None? ==> n == 0
    ensures route.estimatedDriveHours.Some? ==>
              n as real * RestEveryHours <= route.estimatedDriveHours.value < (n + 1) as real * RestEveryHours
  {
    (route.estimatedDriveHours.GetOr(0.0) / RestEveryHours).Floor
  }

  // ---------------------------------------------------------------------------
  // Even placement
  // ---------------------------------------------------------------------------

  /** The distance between sampled vertices when `count` stops go on `len` vertices. */
  function Step(len: nat, count: nat): nat
  {
    len / (count + 1)
  }

  /** The `i`-th sampled vertex index is inside the polyline, for `1 <= i <= count`. */
  lemma SampleIndexInBounds(len: nat, count: nat, i: nat)
    requires len > 0 && 1 <= i <= count
    ensures i * Step(len, count) < len
  {
    var step := Step(len, count);
    assert step * (count + 1) <= len;
    if step == 0 {
    } else {
      assert i * step <= count * step;
      assert count * step < (count + 1) * step;
    }
  }

  /** Every index `i * step` the loop reads, `1 <= i <= count`, is inside the polyline. */
  lemma AllSampleIndicesInBounds(len: nat, count: nat)
    requires len > 0
    ensures forall i :: 1 <= i <= count ==> i * Step(len, count) < len
  {
    forall i | 1 <= i <= count
      ensures i * Step(len, count) < len
    {
      SampleIndexInBounds(len, count, i);
    }
  }

  /** The stops `count` evenly spaced vertices give: stop `k` is `coords[(k + 1) * step]`. */
  function EvenlySpacedStops(coords: seq<Coord>, count: nat): (stops: seq<Coord>)
    requires |coords| > 0
    ensures |stops| == count
    ensures forall k :: 0 <= k < count ==>
              (k + 1) * Step(|coords|, count) < |coords| && stops[k] == coords[(k + 1) * Step(|coords|, count)]
  {
    AllSampleIndicesInBounds(|coords|, count);
    seq(count, k requires 0 <= k < count => coords[(k + 1) * Step(|coords|, count)])
  }

  /** With at least `count + 1` vertices the step is at least 1, so every sampled
      index `i * step`, `1 <= i <= count`, is past the first vertex. */
  lemma SampledIndexPositive(len: nat, count: nat, i: nat)
    requires count + 1 <= len && 1 <= i <= count
    ensures Step(len, count) >= 1
    ensures 0 < i * Step(len, count)
  {
  }

  /** With at least `count + 1` vertices the sampled indices strictly increase. */
  lemma EvenlySpacedIncreasing(coords: seq<Coord>, count: nat, j: nat, k: nat)
    requires count + 1 <= |coords| && j < k < count
    ensures (j + 1) * Step(|coords|, count) < (k + 1) * Step(|coords|, count)
  {
    var step := Step(|coords|, count);
    assert step >= 1;
    assert (k + 1) * step == (j + 1) * step + (k - j) * step;
  }

  /** With fewer than `count + 1` vertices the step is 0 and every stop is the first vertex. */
  lemma EvenlySpacedCollapse(coords: seq<Coord>, count: nat)
    requires 0 < |coords| < count + 1
    ensures Step(|coords|, count) == 0
    ensures forall k :: 0 <= k < count ==> EvenlySpacedStops(coords, count)[k] == coords[0]
  {
  }

  /**
   * The loop both `calculateFuelStops` and `calculateRestStops` run once their
   * stop count is known: `step = floor(coords.length / (count + 1))` and, for
   * `i = 1 .. count`, push the coordinate at `i * step`. For a non-positive
   * count the loop does not run, so the step (Infinity or NaN in JavaScript)
   * is never read. An index past the end reads `undefined` and throws.
   */
  method SampleStops(coords: seq<Coord>, count: int) returns (result: Result<seq<Coord>, Error>)
    ensures count <= 0 ==> result == Success([])
    ensures count > 0 && |coords| == 0 ==> result == Failure(TypeError)
    ensures count > 0 && |coords| > 0 ==> result == Success(EvenlySpacedStops(coords, count))
  {
    var step := if count > 0 then Step(|coords|, count) else 0;
    var stops: seq<Coord> := [];
    var i := 1;
    while i <= count
      invariant 1 <= i && (count > 0 ==> i <= count + 1) && (count <= 0 ==> i == 1)
      invariant |stops| == i - 1
      invariant count > 0 && |coords| > 0 ==>
                  stops == EvenlySpacedStops(coords, count)[..i - 1]
      invariant count > 0 && |coords| == 0 ==> i == 1
    {
      if i * step >= |coords| {
        return Failure(TypeError);
      }
      var c := coords[i * step];
      stops := stops + [TripView.Point(c.lat, c.lon)];
      i := i + 1;
    }
    if count > 0 && |coords| > 0 {
      var expected := EvenlySpacedStops(coords, count);
      assert stops == expected[..count] == expected;
    }
    return Success(stops);
  }

  /** `calculateFuelStops`: one marker per full 1000 miles, evenly along the route. */
  method CalculateFuelStops(route: Route) returns (result: Result<seq<Coord>, Error>)
    ensures route.coordinates.None? || FuelStopCount(route) <= 0 ==> result == Success([])
    ensures route.coordinates.Some? && FuelStopCount(route) > 0 ==>
              if |route.coordinates.value| == 0 then result == Failure(TypeError)
              else result == Success(EvenlySpacedStops(route.coordinates.value, FuelStopCount(route)))
  {
    if route.coordinates.None? {
      return Success([]);
    }
    var coords := route.coordinates.value;
    var numStops := FuelStopCount(route);
    if numStops == 0 {
      return Success([]);
    }
    result := SampleStops(coords, numStops);
  }

  /** `calculateRestStops`: one marker per full 8 hours of driving, evenly along the route. */
  method CalculateRestStops(route: Route) returns (result: Result<seq<Coord>, Error>)
    ensures route.coordinates.None? || RestStopCount(route) <= 0 ==> result == Success([])
    ensures route.coordinates.Some? && RestStopCount(route) > 0 ==>
              if |route.coordinates.value| == 0 then result == Failure(TypeError)
              else result == Success(EvenlySpacedStops(route.coordinates.value, RestStopCount(route)))
  {
    if route.coordinates.None? {
      return Success([]);
    }
    var restCount := RestStopCount(route);
    if restCount == 0 {
      return Success([]);
    }
    var coords := route.coordinates.value;
    result := SampleStops(coords, restCount);
  }
}
