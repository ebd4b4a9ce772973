# Trip planner arithmetic, stop placement and ELD sheet layout

A Dafny model of the logic in a small truck-trip planner:

- **Backend trip planner** (`TripView`, trip_view.dfy). This is the handler of `POST /api/trip/`. It estimates drive hours at 55 mph. From the distance it derives one fuel stop per full 1000 miles. From the drive hours it derives one rest stop per full 8 hours and what is left of the 70-hour cycle (clamped at zero). It splits the drive hours into a `days_plan` of at most 8 hours a day using a `while` loop. It builds the route polyline by linear interpolation: 11 points from current to pickup, then 51 from pickup to dropoff.
- **Stop placement** (`App`, app.dfy). The page places fuel-stop and rest-stop markers at `count` evenly spaced polyline vertices, `coords[i * step]` with `step = floor(len / (count + 1))`. The form's `handleChange` updates one field.
- **ELD daily log sheet** (`EldSheet`, eld_sheet.dfy). `formatTime` turns decimal hours into "HH:MM". `getStatusRowClass` maps a duty status to its row. The sheet places each duty bar on a 24-hour axis spanning 100% of the width, draws a status-change line after each event but the last, and draws 25 hour ticks. Each remark shows the event's place.

All quantities are exact reals and integers. `Math.round(v)` is `floor(v + 0.5)`. The backend's haversine distance is a parameter of `TripView.Post`: a function of two points that the handler applies to `current` and `dropoff`. The model proves the following:

- The daily plan's hours add up to the estimate. Every day drives more than 0 and at most 8 hours, and every day but the last drives exactly 8. Days are numbered 1, 2, 3, … with no gaps. There are `ceil(h / 8)` days.
- The number of full 8-hour days equals the `rest_stops` estimate.
- Every index the stop loop reads is inside a non-empty polyline.
- `formatTime` on `[0, 100)` gives five characters whose digits read back as the hour and the minutes. The minutes can be 60.
- Take an event that ends where the next one starts, and whose `duration` field equals its end minus its start. The status-change line after it sits where its bar ends and the next bar begins. The `duration` condition is needed because the sheet sizes each bar by that separate field.

The sheet lays out whatever `logEvents` it is given.

## Model

| member | source | states |
|---|---|---|
| TripView.EstimatedDriveHours | backend/trips/views.py:29-30 | the estimate times 55 mph gives back the distance; a non-negative distance gives non-negative hours |
| TripView.FuelStops | backend/trips/views.py:33 | never negative; for a non-negative distance it is the number of full 1000-mile stretches; 0 below 1000 miles |
| TripView.RestStops | backend/trips/views.py:34 | never negative; for non-negative hours it is the number of full 8-hour stretches; 0 below 8 hours |
| TripView.CycleRemainingHours | backend/trips/views.py:37 | never negative; equals `70 - used - hours` when that is non-negative, 0 otherwise |
| TripView.PlanFrom | backend/trips/views.py:43-47 | the entries the loop appends from a given remainder and day number; empty exactly when nothing remains (PlanFromShape, PlanFromTotal, PlanFromLength and PlanFromFullDays state the rest) |
| TripView.DaysPlan | backend/trips/views.py:39-47 | the daily plan from day 1: `ceil(h / 8)` entries; day k+1 at position k; hours in (0, 8]; all but the last are 8; the hours sum to `max(0, h)`; the full days equal `rest_stops` |
| TripView.PlanFromShape | backend/trips/views.py:42-47 | the day numbers run on from the first with no gap; each entry's hours lie in (0, 8]; every entry but the last is exactly 8 |
| TripView.PlanFromTotal | backend/trips/views.py:41-46 | the entries' hours sum to exactly the hours to plan, or to 0 when there are none |
| TripView.PlanFromLength | backend/trips/views.py:43-47 | the loop appends `ceil(h / 8)` entries for positive `h` and none for `h <= 0` |
| TripView.PlanFromFullDays | backend/trips/views.py:34-47 | the number of full 8-hour entries equals `rest_stops` |
| TripView.BuildDaysPlan | backend/trips/views.py:39-47 | the while loop builds exactly the daily plan: `ceil(h / 8)` entries; day k+1 at position k; hours in (0, 8]; all but the last are 8; the hours sum to `max(0, h)` |
| TripView.Interpolation | backend/trips/views.py:50-58 | `steps + 1` points, point i being `start + (end - start) * i / steps` in both coordinates |
| TripView.LerpReachesEnd | backend/trips/views.py:55-56 | after `steps` of `steps` steps the coordinate equals the end coordinate |
| TripView.InterpolationEndpoints | backend/trips/views.py:53-58 | point 0 is the start point and point `steps` is the end point |
| TripView.InterpolationEvenlySpaced | backend/trips/views.py:54-57 | consecutive points are `(end - start) / steps` apart in both coordinates |
| TripView.InterpolatePoints | backend/trips/views.py:50-58 | the for loop returns exactly the interpolated polyline |
| TripView.RouteCoords | backend/trips/views.py:60-62 | 62 points: current→pickup in 10 steps then pickup→dropoff in 50; starts at current, pickup at 10 and 11, ends at dropoff |
| TripView.TripSummary | backend/trips/views.py:27-37 | the summary of a trip: the distance itself; hours that times 55 give the distance; non-negative stop counts and remaining cycle; one fuel stop per full 1000 miles and one rest stop per full 440 miles (8 hours at 55 mph); remaining cycle exactly `70 - used - hours` when that is non-negative, 0 otherwise |
| TripView.Post | backend/trips/views.py:7-80 | the summary depends only on the distance between current and dropoff and on the cycle hours used; the plan is the daily plan of the estimate; the geometry is the two-leg route; full days equal rest stops |
| App.InitialInputs | frontend/src/app.js:6-11 | the form starts with the fields current, pickup, dropoff and current_cycle_used_hours |
| App.HandleChange | frontend/src/app.js:15-16 | the named field takes the new value; every other field keeps its value; no field is lost |
| App.FuelStopCount | frontend/src/app.js:38 | a missing or NaN distance counts as 0 stops; otherwise the floor of distance / 1000 |
| App.RestStopCount | frontend/src/app.js:50-51 | missing hours count as 0 stops; otherwise the floor of hours / 8 |
| App.SampleIndexInBounds | frontend/src/app.js:40-43 | for a non-empty polyline and 1 <= i <= count, the index `i * step` is below `coords.length` |
| App.AllSampleIndicesInBounds | frontend/src/app.js:54-57 | every index the placement loop reads is inside a non-empty polyline |
| App.EvenlySpacedStops | frontend/src/app.js:40-44 | exactly `count` stops, stop k being `coords[(k + 1) * step]` with the index in bounds |
| App.SampledIndexPositive | frontend/src/app.js:40-43 | with at least `count + 1` vertices the step is at least 1, and every sampled index `i * step` (1 <= i <= count) is positive, including when there is a single stop |
| App.EvenlySpacedIncreasing | frontend/src/app.js:40-43 | with at least `count + 1` vertices the sampled indices of stops j < k strictly increase |
| App.EvenlySpacedCollapse | frontend/src/app.js:40-43 | with fewer than `count + 1` vertices the step is 0 and every stop, stop 0 included, is `coords[0]` |
| App.SampleStops | frontend/src/app.js:40-45 | no stops for a non-positive count; a TypeError for an empty polyline; otherwise exactly the evenly spaced stops |
| App.CalculateFuelStops | frontend/src/app.js:35-46 | `[]` without coordinates or with a zero count; otherwise the evenly spaced stops for `floor(distance / 1000)`, or a TypeError for an empty polyline |
| App.CalculateRestStops | frontend/src/app.js:48-60 | `[]` without coordinates or with a zero count; otherwise the evenly spaced stops for `floor(hours / 8)`, or a TypeError for an empty polyline |
| EldSheet.GetStatusRowClass | frontend/src/Eldsheet.js:17-30 | a status named by row label i goes on row i+1; any other status goes on row 1; the result is one of the four rows |
| EldSheet.FormatTime | frontend/src/Eldsheet.js:32-38 | hours, ':' and minutes, each zero-padded to two characters; the result has at least 5 characters, the third from last is ':', and it has exactly 5 for hours in [0, 100) (FormatTimeShape and FormatTimeExamples state the rest) |
| EldSheet.MinutePart | frontend/src/Eldsheet.js:33-34 | the minutes lie in [0, 60] and are the fractional hour rounded to the nearest minute, 60 not carried into the hour |
| EldSheet.NatToStringDigits | frontend/src/Eldsheet.js:35-37 | a number's decimal string is all digits, reads back as the number, and has 1 or 2 characters below 10 or 100 |
| EldSheet.PaddedTwoDigits | frontend/src/Eldsheet.js:35-37 | a number below 100, zero-padded, is two digits that read back as the number |
| EldSheet.FormatTimeShape | frontend/src/Eldsheet.js:32-38 | for 0 <= x < 100 the result is "HH:MM", five characters, whose digits read back as `floor(x)` and the rounded minutes |
| EldSheet.FormatTimeExamples | frontend/src/Eldsheet.js:32-38 | 7.5 gives "07:30", 0 gives "00:00", 23.999 gives "23:60" |
| EldSheet.HourToPercent | frontend/src/Eldsheet.js:14-15 | the percentage times 24 is the hour times 100 |
| EldSheet.HourToPercentScale | frontend/src/Eldsheet.js:14-15 | hour 0, 6 and 24 sit at 0%, 25% and 100%; the mapping is strictly increasing and invertible; hours in [0, 24] stay in [0%, 100%] |
| EldSheet.Bars | frontend/src/Eldsheet.js:53-68 | one bar per event, in order |
| EldSheet.HourToPercentAdditive | frontend/src/Eldsheet.js:14-15 | the axis is linear: the position of an end hour is the start's position plus the position of the span between them |
| EldSheet.BarTitle | frontend/src/Eldsheet.js:62-64 | the tooltip is the status, a space, the formatted start time, '-', and the formatted end time |
| EldSheet.BarOf | frontend/src/Eldsheet.js:54-64 | the bar sits on its status's row; its left edge is the start hour on the axis and its width the `duration` field; when `duration` is end minus start, the bar ends at the end hour; its title starts with the status |
| EldSheet.StatusChangeLines | frontend/src/Eldsheet.js:70-80 | `events.length - 1` lines (none for no events); line k is at event k's end hour |
| EldSheet.ChangeLinesJoinBars | frontend/src/Eldsheet.js:70-72 | if event k ends where event k+1 starts and its `duration` is its end minus its start, line k is at the right edge of bar k and the left edge of bar k+1 |
| EldSheet.HourMarkers | frontend/src/Eldsheet.js:82-90 | exactly 25 ticks, tick h labelled h at `h * 100 / 24` |
| EldSheet.HourMarkersSpan | frontend/src/Eldsheet.js:82-86 | the first tick is at 0%, the last is hour 24 at 100%, and ticks are 100/24 % apart |
| EldSheet.Events | frontend/src/Eldsheet.js:12 | a missing `logEvents` is the empty list, a present one is used as it is |
| EldSheet.Render | frontend/src/Eldsheet.js:11-119 | one bar and one remark per event, one status-change line fewer than events (none for none), and 25 hour ticks |
| EldSheet.RemarkLocation | frontend/src/Eldsheet.js:110 | the location if it is non-empty, else the remarks if present, else "" |
| EldSheet.Remarks | frontend/src/Eldsheet.js:97-114 | one remark card per event |
| EldSheet.RenderMissingLog | frontend/src/Eldsheet.js:12 | a missing log renders like an empty one: no bars, lines or remarks, and all 25 ticks |

## Left out

- The haversine great-circle distance (views.py lines 18-27) is floating-point trigonometry. `TripView.Post` takes it as a function parameter.
- The response's `round(x, 2)` on the summary values and on each day's hours is not modelled. The model keeps exact, unrounded values.
- Parsing the "lat,lon" and cycle-hours fields with `float`, and the catch-all `except` that answers HTTP 400, are not modelled. The model starts from parsed points.
- TripView.InterpolatePoints: requires `steps > 0`. With 0 steps Python raises ZeroDivisionError. The handler only uses 10 and 50.
- IEEE-754 effects are not modelled: NaN beyond the `|| 0` fallbacks, infinities, and float rounding in `Math.floor`, `Math.round` and the percentage arithmetic.
- Coordinates are latitude/longitude pairs, as the backend produces them. A stop is "the first two components" of a vertex, so it is the vertex itself. Vertices with fewer components are not modelled.
- App.CalculateFuelStops and App.CalculateRestStops are not modelled when `route` itself is missing. The page only calls them once a result exists.
- `planTrip`'s fetch, React state, the loading flag, alerts and all JSX markup and CSS are not modelled. This includes the `statusColors` palette and the React keys.
- frontend/src/mapView.js and frontend/src/EldChart.js only draw what they are given, so they are not modelled.
- EldSheet.Remarks: states the card count, not the content of each card. The content is `RemarkLocation` plus the two `FormatTime` strings.
