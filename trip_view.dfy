/**
 * The trip planner behind `POST /api/trip/` (backend/trips/views.py): from the
 * current, pickup and dropoff positions and the hours already used in the
 * 70-hour cycle it derives the drive-hour estimate, the fuel and rest stop
 * counts, the remaining cycle hours, a per-day driving plan of at most eight
 * hours a day and an interpolated route polyline.
 *
 * All quantities are exact reals; the response's `round(x, 2)` is not modelled.
 */
module TripView {

  /** A latitude/longitude pair, as a "lat,lon" request field parses to. */
  datatype Point = Point(lat: real, lon: real)

  /** One `days_plan` entry: the day number and that day's (unrounded) driving hours. */
  datatype DayEntry = DayEntry(day: int, hours: real)

  /** The `summary` object of the response (unrounded). */
  datatype Summary = Summary(
    distanceMiles: real,
    estimatedDriveHours: real,
    fuelStops: int,
    restStops: int,
    cycleRemainingHours: real)

  /** The successful response: summary, `osrm_geometry.coordinates` and `days_plan`. */
  datatype Response = Response(summary: Summary, coordinates: seq<Point>, daysPlan: seq<DayEntry>)

  const AverageSpeedMph: real := 55.0
  const FuelRangeMiles: real := 1000.0
  const MaxDailyDriveHours: real := 8.0
  const CycleLimitHours: real := 70.0
  /** Interpolation steps of the current->pickup and pickup->dropoff legs. */
  const PickupLegSteps: nat := 10
  const DropoffLegSteps: nat := 50

  function Max(a: real, b: real): real { if a >= b then a else b }
  function Min(a: real, b: real): real { if a <= b then a else b }

  // ---------------------------------------------------------------------------
  // Summary arithmetic
  // ---------------------------------------------------------------------------

  /** Drive hours at an average of 55 mph. */
  function EstimatedDriveHours(distanceMiles: real): (h: real)
    ensures h * AverageSpeedMph == distanceMiles
    ensures distanceMiles >= 0.0 ==> h >= 0.0
  {
    distanceMiles / AverageSpeedMph
  }

  /** One fuel stop per full 1000 miles, never negative. */
  function FuelStops(distanceMiles: real): (n: int)
    ensures n >= 0
    ensures distanceMiles >= 0.0 ==>
              n as real * FuelRangeMiles <= distanceMiles < (n + 1) as real * FuelRangeMiles
    ensures distanceMiles < FuelRangeMiles ==> n == 0
  {
    var f := (distanceMiles / FuelRangeMiles).Floor;
    if f >= 0 then f else 0
  }

  /** One rest stop per full 8 hours of driving, never negative. */
  function RestStops(driveHours: real): (n: int)
    ensures n >= 0
    ensures driveHours >= 0.0 ==>
              n as real * MaxDailyDriveHours <= driveHours < (n + 1) as real * MaxDailyDriveHours
    ensures driveHours < MaxDailyDriveHours ==> n == 0
  {
    var f := (driveHours / MaxDailyDriveHours).Floor;
    if f >= 0 then f else 0
  }

  /** What is left of the 70-hour cycle after this trip, clamped at zero. */
  function CycleRemainingHours(cycleUsedHours: real, driveHours: real): (r: real)
    ensures r >= 0.0
    ensures CycleLimitHours - cycleUsedHours - driveHours >= 0.0 ==>
              r == CycleLimitHours - cycleUsedHours - driveHours
    ensures CycleLimitHours - cycleUsedHours - driveHours < 0.0 ==> r == 0.0
  {
    Max(0.0, CycleLimitHours - cycleUsedHours - driveHours)
  }

  /** The summary for a trip of `distanceMiles` with `cycleUsedHours` already used. */
  function TripSummary(distanceMiles: real, cycleUsedHours: real): (s: Summary)
    ensures s.distanceMiles == distanceMiles
    ensures s.estimatedDriveHours * AverageSpeedMph == distanceMiles
    ensures s.fuelStops >= 0 && s.restStops >= 0 && s.cycleRemainingHours >= 0.0
    ensures distanceMiles >= 0.0 ==>
              s.fuelStops as real * FuelRangeMiles <= distanceMiles < (s.fuelStops + 1) as real * FuelRangeMiles
    ensures distanceMiles >= 0.0 ==>
              s.restStops as real * 440.0 <= distanceMiles < (s.restStops + 1) as real * 440.0
    ensures CycleLimitHours - cycleUsedHours - s.estimatedDriveHours >= 0.0 ==>
              s.cycleRemainingHours == CycleLimitHours - cycleUsedHours - s.estimatedDriveHours
    ensures CycleLimitHours - cycleUsedHours - s.estimatedDriveHours < 0.0 ==> s.cycleRemainingHours == 0.0
  {
    var h := EstimatedDriveHours(distanceMiles);
    Summary(distanceMiles, h, FuelStops(distanceMiles), RestStops(h), CycleRemainingHours(cycleUsedHours, h))
  }

  // ---------------------------------------------------------------------------
  // Daily plan
  // ---------------------------------------------------------------------------

  /** The measure that the `while remaining_hours > 0` loop decreases. */
  function Remaining(remainingHours: real): nat
  {
    if remainingHours <= 0.0 then 0 else remainingHours.Floor + 1
  }

  /** The entries the loop appends from `remainingHours` left and day number `day` on. */
  function PlanFrom(remainingHours: real, day: int): (plan: seq<DayEntry>)
    ensures plan == [] <==> remainingHours <= 0.0
    decreases Remaining(remainingHours)
  {
    if remainingHours <= 0.0 then []
    else
      var dayHours := Min(MaxDailyDriveHours, remainingHours);
      [DayEntry(day, dayHours)] + PlanFrom(remainingHours - dayHours, day + 1)
  }

  /** The `days_plan` for a trip of `driveHours`, days numbered from 1. */
  function DaysPlan(driveHours: real): (plan: seq<DayEntry>)
    ensures |plan| == if driveHours <= 0.0 then 0 else Ceil(driveHours / MaxDailyDriveHours)
    ensures forall k :: 0 <= k < |plan| ==>
              plan[k].day == k + 1 &&
              0.0 < plan[k].hours <= MaxDailyDriveHours &&
              (k < |plan| - 1 ==> plan[k].hours == MaxDailyDriveHours)
    ensures TotalHours(plan) == Max(0.0, driveHours)
    ensures FullDays(plan) == RestStops(driveHours)
  {
    PlanFromShape(driveHours, 1);
    PlanFromTotal(driveHours, 1);
    PlanFromLength(driveHours, 1);
    PlanFromFullDays(driveHours, 1);
    PlanFrom(driveHours, 1)
  }

  /** The sum of the hours of a plan's entries. */
  function TotalHours(plan: seq<DayEntry>): real
  {
    if plan == [] then 0.0 else plan[0].hours + TotalHours(plan[1..])
  }

  /** The number of entries of a plan that drive the full 8 hours. */
  function FullDays(plan: seq<DayEntry>): nat
  {
    if plan == [] then 0
    else (if plan[0].hours == MaxDailyDriveHours then 1 else 0) + FullDays(plan[1..])
  }

  /** Smallest integer not below `x`. */
  function Ceil(x: real): int
  {
    -((-x).Floor)
  }

  /** Day numbers run on from `day` with no gap; each entry drives a positive
      amount of at most 8 hours, and every entry but the last drives exactly 8. */
  lemma {:induction false} PlanFromShape(remainingHours: real, day: int)
    ensures forall k :: 0 <= k < |PlanFrom(remainingHours, day)| ==>
              PlanFrom(remainingHours, day)[k].day == day + k &&
              0.0 < PlanFrom(remainingHours, day)[k].hours <= MaxDailyDriveHours &&
              (k < |PlanFrom(remainingHours, day)| - 1 ==> PlanFrom(remainingHours, day)[k].hours == MaxDailyDriveHours)
    decreases Remaining(remainingHours)
  {
    if remainingHours > 0.0 {
      var dayHours := Min(MaxDailyDriveHours, remainingHours);
      PlanFromShape(remainingHours - dayHours, day + 1);
      var rest := PlanFrom(remainingHours - dayHours, day + 1);
      assert remainingHours <= MaxDailyDriveHours ==> rest == [];
      var plan := PlanFrom(remainingHours, day);
      assert plan == [DayEntry(day, dayHours)] + rest;
      forall k | 0 <= k < |plan|
        ensures plan[k].day == day + k
        ensures 0.0 < plan[k].hours <= MaxDailyDriveHours
        ensures k < |plan| - 1 ==> plan[k].hours == MaxDailyDriveHours
      {
        if k > 0 {
          assert plan[k] == rest[k - 1];
          assert rest[k - 1].day == day + 1 + (k - 1);
        }
      }
    }
  }

  /** The hours of the entries add up to exactly the hours to plan (none when there are none). */
  lemma {:induction false} PlanFromTotal(remainingHours: real, day: int)
    ensures TotalHours(PlanFrom(remainingHours, day)) == Max(0.0, remainingHours)
    decreases Remaining(remainingHours)
  {
    if remainingHours > 0.0 {
      var dayHours := Min(MaxDailyDriveHours, remainingHours);
      PlanFromTotal(remainingHours - dayHours, day + 1);
      var plan := PlanFrom(remainingHours, day);
      assert plan[1..] == PlanFrom(remainingHours - dayHours, day + 1);
    }
  }

  /** The loop runs `ceil(h / 8)` times for positive `h` and not at all otherwise. */
  lemma {:induction false} PlanFromLength(remainingHours: real, day: int)
    ensures |PlanFrom(remainingHours, day)| ==
              if remainingHours <= 0.0 then 0 else Ceil(remainingHours / MaxDailyDriveHours)
    decreases Remaining(remainingHours)
  {
    if remainingHours > MaxDailyDriveHours {
      PlanFromLength(remainingHours - MaxDailyDriveHours, day + 1);
      var y := -(remainingHours / MaxDailyDriveHours);
      assert -((remainingHours - MaxDailyDriveHours) / MaxDailyDriveHours) == y + 1.0;
      assert (y + 1.0).Floor == y.Floor + 1;
    } else if remainingHours > 0.0 {
      assert PlanFrom(remainingHours - remainingHours, day + 1) == [];
      assert (-(remainingHours / MaxDailyDriveHours)).Floor == -1;
    }
  }

  /** The number of full 8-hour days in the plan is the `rest_stops` estimate. */
  lemma {:induction false} PlanFromFullDays(remainingHours: real, day: int)
    ensures FullDays(PlanFrom(remainingHours, day)) == RestStops(remainingHours)
    decreases Remaining(remainingHours)
  {
    if remainingHours > MaxDailyDriveHours {
      PlanFromFullDays(remainingHours - MaxDailyDriveHours, day + 1);
      var plan := PlanFrom(remainingHours, day);
      assert plan[1..] == PlanFrom(remainingHours - MaxDailyDriveHours, day + 1);
      var y := remainingHours / MaxDailyDriveHours;
      assert (remainingHours - MaxDailyDriveHours) / MaxDailyDriveHours == y - 1.0;
      assert (y - 1.0).Floor == y.Floor - 1;
    } else if remainingHours > 0.0 {
      var plan := PlanFrom(remainingHours, day);
      assert plan[1..] == PlanFrom(remainingHours - remainingHours, day + 1) == [];
    }
  }

  /**
   * The `while remaining_hours > 0` loop of views.py: take `min(8, remaining)`
   * hours for the current day, append it, subtract it and move to the next day.
   */
  method BuildDaysPlan(estimatedDriveHours: real) returns (daysPlan: seq<DayEntry>)
    ensures daysPlan == DaysPlan(estimatedDriveHours)
    ensures |daysPlan| == if estimatedDriveHours <= 0.0 then 0 else Ceil(estimatedDriveHours / MaxDailyDriveHours)
    ensures forall k :: 0 <= k < |daysPlan| ==>
              daysPlan[k].day == k + 1 &&
              0.0 < daysPlan[k].hours <= MaxDailyDriveHours &&
              (k < |daysPlan| - 1 ==> daysPlan[k].hours == MaxDailyDriveHours)
    ensures TotalHours(daysPlan) == Max(0.0, estimatedDriveHours)
  {
    daysPlan := [];
    var remainingHours := estimatedDriveHours;
    var day := 1;
    while remainingHours > 0.0
      invariant daysPlan + PlanFrom(remainingHours, day) == DaysPlan(estimatedDriveHours)
      decreases Remaining(remainingHours)
    {
      var dayHours := Min(MaxDailyDriveHours, remainingHours);
      daysPlan := daysPlan + [DayEntry(day, dayHours)];
      remainingHours := remainingHours - dayHours;
      day := day + 1;
    }
  }

  // ---------------------------------------------------------------------------
  // Route geometry
  // ---------------------------------------------------------------------------

  /** Coordinate `i` of `steps` on the way from `a` to `b`. */
  function Lerp(a: real, b: real, i: int, steps: nat): real
    requires steps > 0
  {
    a + (b - a) * i as real / steps as real
  }

  /** Point `i` of `steps` on the straight line from `startPoint` to `endPoint`. */
  function InterpolatedPoint(startPoint: Point, endPoint: Point, i: int, steps: nat): Point
    requires steps > 0
  {
    Point(Lerp(startPoint.lat, endPoint.lat, i, steps), Lerp(startPoint.lon, endPoint.lon, i, steps))
  }

  /** The `steps + 1` points `interpolate_points(start, end, steps)` returns. */
  function Interpolation(startPoint: Point, endPoint: Point, steps: nat): (points: seq<Point>)
    requires steps > 0
    ensures |points| == steps + 1
    ensures forall i :: 0 <= i <= steps ==> points[i] == InterpolatedPoint(startPoint, endPoint, i, steps)
  {
    seq(steps + 1, i requires 0 <= i <= steps => InterpolatedPoint(startPoint, endPoint, i, steps))
  }

  /** The polyline starts at the start point and ends at the end point. */
  lemma InterpolationEndpoints(startPoint: Point, endPoint: Point, steps: nat)
    requires steps > 0
    ensures Interpolation(startPoint, endPoint, steps)[0] == startPoint
    ensures Interpolation(startPoint, endPoint, steps)[steps] == endPoint
  {
    var points := Interpolation(startPoint, endPoint, steps);
    assert points[steps] == InterpolatedPoint(startPoint, endPoint, steps, steps);
    LerpReachesEnd(startPoint.lat, endPoint.lat, steps);
    LerpReachesEnd(startPoint.lon, endPoint.lon, steps);
  }

  /** After all `steps` steps the coordinate is the end coordinate. */
  lemma LerpReachesEnd(a: real, b: real, steps: nat)
    requires steps > 0
    ensures Lerp(a, b, steps, steps) == b
  {
    var n := steps as real;
    assert (b - a) * n / n == b - a;
  }

  /** One more step moves the coordinate by exactly `(b - a) / steps`. */
  lemma LerpNextStep(a: real, b: real, i: nat, steps: nat)
    requires steps > 0
    ensures Lerp(a, b, i + 1, steps) - Lerp(a, b, i, steps) == (b - a) / steps as real
  {
    var n, d := steps as real, b - a;
    calc {
      d * (i + 1) as real / n;
      (d * i as real + d) / n;
      d * i as real / n + d / n;
    }
  }

  /** Consecutive points are the same `(end - start) / steps` apart: the points are evenly spaced. */
  lemma InterpolationEvenlySpaced(startPoint: Point, endPoint: Point, steps: nat, i: nat)
    requires 0 <= i < steps
    ensures var points := Interpolation(startPoint, endPoint, steps);
      points[i + 1].lat - points[i].lat == (endPoint.lat - startPoint.lat) / steps as real &&
      points[i + 1].lon - points[i].lon == (endPoint.lon - startPoint.lon) / steps as real
  {
    var points := Interpolation(startPoint, endPoint, steps);
    assert points[i] == InterpolatedPoint(startPoint, endPoint, i, steps);
    assert points[i + 1] == InterpolatedPoint(startPoint, endPoint, i + 1, steps);
    LerpNextStep(startPoint.lat, endPoint.lat, i, steps);
    LerpNextStep(startPoint.lon, endPoint.lon, i, steps);
  }

  /** The `for i in range(steps + 1)` loop of `interpolate_points`. */
  method InterpolatePoints(startPoint: Point, endPoint: Point, steps: nat) returns (points: seq<Point>)
    requires steps > 0
    ensures points == Interpolation(startPoint, endPoint, steps)
  {
    points := [];
    for i := 0 to steps + 1
      invariant |points| == i
      invariant forall k :: 0 <= k < i ==> points[k] == InterpolatedPoint(startPoint, endPoint, k, steps)
    {
      var lat := Lerp(startPoint.lat, endPoint.lat, i, steps);
      var lon := Lerp(startPoint.lon, endPoint.lon, i, steps);
      points := points + [Point(lat, lon)];
    }
  }

  /** `route_coords`: 11 points from current to pickup, then 51 from pickup to dropoff. */
  method RouteCoords(current: Point, pickup: Point, dropoff: Point) returns (routeCoords: seq<Point>)
    ensures routeCoords == Interpolation(current, pickup, PickupLegSteps) + Interpolation(pickup, dropoff, DropoffLegSteps)
    ensures |routeCoords| == 62
    ensures routeCoords[0] == current && routeCoords[10] == pickup
    ensures routeCoords[11] == pickup && routeCoords[61] == dropoff
  {
    routeCoords := [];
    var leg := InterpolatePoints(current, pickup, PickupLegSteps);
    routeCoords := routeCoords + leg;
    leg := InterpolatePoints(pickup, dropoff, DropoffLegSteps);
    routeCoords := routeCoords + leg;
    InterpolationEndpoints(current, pickup, PickupLegSteps);
    InterpolationEndpoints(pickup, dropoff, DropoffLegSteps);
  }

  // ---------------------------------------------------------------------------
  // The request handler
  // ---------------------------------------------------------------------------

  /**
   * `TripView.post` after the request fields are parsed: `distance` stands for
   * the haversine great-circle distance in miles, which the model does not compute.
   */
  method Post(current: Point, pickup: Point, dropoff: Point, currentCycleUsedHours: real,
              distance: (Point, Point) -> real)
    returns (response: Response)
    ensures response.summary == TripSummary(distance(current, dropoff), currentCycleUsedHours)
    ensures response.daysPlan == DaysPlan(response.summary.estimatedDriveHours)
    ensures response.coordinates ==
              Interpolation(current, pickup, PickupLegSteps) + Interpolation(pickup, dropoff, DropoffLegSteps)
    ensures FullDays(response.daysPlan) == response.summary.restStops
  {
    var distanceMiles := distance(current, dropoff);
    var estimatedDriveHours := EstimatedDriveHours(distanceMiles);
    var fuelStops := FuelStops(distanceMiles);
    var restStops := RestStops(estimatedDriveHours);
    var cycleRemainingHours := CycleRemainingHours(currentCycleUsedHours, estimatedDriveHours);
    var daysPlan := BuildDaysPlan(estimatedDriveHours);
    var routeCoords := RouteCoords(current, pickup, dropoff);
    var summary := Summary(distanceMiles, estimatedDriveHours, fuelStops, restStops, cycleRemainingHours);
    response := Response(summary, routeCoords, daysPlan);
  }
}
