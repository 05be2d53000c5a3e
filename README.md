# Verified model of the map-drawing helper libraries

This project models, in Dafny, the three stateful libraries of a small
Google Maps teaching repository:

- **PathDrawer** (`path_drawer.dfy`, module `PathDrawing`, with the route
  classifier in `route_classifier.dfy`, module `RouteClassification`) keeps a
  pool of reusable DirectionsRenderer objects. `drawPaths` binds slot *i* to
  route *i* of a directions result. It grows the pool when it is too small.
  When it is too large, it prunes the pool under the current prune level
  (aggressive, moderate or none) and detaches the spare slots. It then gives
  the shortest and fastest routes, or the single best route, their own
  polyline style. The classifier sums each route's leg distances and
  durations and keeps the first minimum of each.
- **MarkerTracker** (`marker_tracker.dfy`, module `MarkerTracking`) is a
  two-way table between markers and the numeric ids it issues from a counter.
- **MarkerLabelLib** (`marker_label_lib.dfy`, module `MarkerLabels`) hands out
  marker labels. It cycles through an alphabet, and when recycling is on it
  first reuses freed labels, last freed first.

`outcomes.dfy` (module `Outcomes`) holds `Option`, `Result` and `Outcome`. A
JavaScript exception becomes an `Error` value: `InvalidArgumentError` for the
exception `prune` throws, and `TypeError` for a member access on, or a call of, `undefined`.

Each library is a class whose fields are the source's private fields. The
renderer pool is a `seq<Handle>` field, and the marker tables are `map`
fields. Methods that change a field carry `modifies this`, and their
postconditions give the whole new state in terms of the old one. Loops
become `while` loops with invariants, including the classifier's nested
running-minimum loop, which is proved against the pure specification
`FirstArgMin`. The properties that relate several calls, or that give a
result its meaning, are stated as lemmas and predicates: first minimum,
inverse tables, prune bounds and the style assignment.

A renderer is modelled by the record `Handle`. It holds the directions
result it shows, its route index, the map it is attached to (`NoMap` for
`null`), its draggable flag and its polyline options. The map object is an
opaque `MapRef`. Leg distances and durations are unbounded integers.

Where the code and its own doc comments disagree:

- The constructor's doc comment (5.3/PathDrawer.js:26) promises that each
  missing polyline style falls back to its default on its own. The code
  throws a TypeError for a style object that lacks any one of the four
  entries (`ResolveStylesAsWritten`). The model's drawer uses the documented
  behaviour (`ResolveStyles`); see Findings.
- The doc comment of `getMarkerId` (4.1/MarkerTracker.js:107) promises `null`
  for an untracked marker. The code reads `.id` of `undefined` and throws.
  The model follows the code (`GetMarkerId` gives a TypeError).
- The doc comment of `getIdCounter` (4.1/MarkerTracker.js:177-178) calls the
  result the last id used. The code returns the counter, which is the id the
  next tracked marker gets. The model follows the code (`GetIdCounter`).

## Model

| member | source | states |
|---|---|---|
| `RouteClassification.FirstArgMin` | 5.3/PathDrawer.js:145-153 | the index a strict-`>` running-minimum scan ends on is the first position holding the minimum |
| `RouteClassification.FirstMinimumUnique` | 5.3/PathDrawer.js:145-153 | at most one index is the first minimum, so the scan's result is fully determined |
| `RouteClassification.FirstArgMinStep` | 5.3/PathDrawer.js:145-148 | extending the scanned prefix by one value moves the candidate to it exactly when that value is strictly smaller |
| `RouteClassification.Classify` | 5.3/PathDrawer.js:130-159 | for a non-empty route set, both indices are in range; `shortest` is the first index of least summed leg distance and `fastest` the first of least summed leg duration |
| `RouteClassification.FindShortestAndFastestRoute` | 5.3/PathDrawer.js:130-159 | the nested summing and running-minimum loop returns exactly `Classify(routes)`; for no routes both indices stay undefined |
| `RouteClassification.ClassificationExamples` | 5.3/PathDrawer.js:145-153 | distances [100,100,50] and durations [10,5,5] classify as shortest 2 and fastest 1; distances [30,30,50] keep index 0 |
| `PathDrawing.ResolveStyles` | 5.3/PathDrawer.js:19-26 | each of the four styles is the caller's entry when given, and the built-in default otherwise, independently of the other three |
| `PathDrawing.ResolveStylesAsWritten` | 5.3/PathDrawer.js:108-126 | the chain as written succeeds exactly when the options are absent or all four entries are present, and then agrees with `ResolveStyles`; otherwise it throws a TypeError |
| `PathDrawing.StyleDefaultsFinding` | 5.3/PathDrawer.js:112-113 | options lacking only `fastest` make the written chain throw, while the documented behaviour defaults `fastest` alone |
| `PathDrawing.LevelDescription` | 5.3/PathDrawer.js:73-76 | a level has a description exactly when it is 0, 1 or 2 |
| `PathDrawing.InitialPruneLevel` | 5.3/PathDrawer.js:77 | a new drawer's level is the requested one when it is a valid level, and aggressive (2) otherwise; it is always valid |
| `PathDrawing.InitialPruneLevelAsWritten` | 5.3/PathDrawer.js:77 | as written, a valid requested level is kept and every other request throws a TypeError |
| `PathDrawing.PruneLevelDefaultFinding` | 5.3/PathDrawer.js:77 | without a prune level, the written constructor throws where the intended one prunes aggressively |
| `PathDrawing.RoundHalf` | 5.3/PathDrawer.js:287 | `Math.round(d/2)`: twice the result is d or d + 1 |
| `PathDrawing.PrunedLengthBounds` | 5.3/PathDrawer.js:282-287 | from len > n slots: aggressive keeps n, moderate keeps n plus half the surplus rounded up (more than n, at most len), any other level keeps len |
| `PathDrawing.ModeratePruneExample` | 5.3/PathDrawer.js:286-287 | moderate pruning from 10 slots to 4 routes keeps 7 |
| `PathDrawing.StyleAssignment` | 5.3/PathDrawer.js:229-240 | a slot is styled best iff it is both shortest and fastest; shortest or fastest only when the two differ; every other slot stays alternative |
| `PathDrawing.PathDrawer.constructor` | 5.3/PathDrawer.js:68-128 | the map is the given one, the level is `InitialPruneLevel`, the styles are `ResolveStyles`, and the pool is empty |
| `PathDrawing.PathDrawer.DrawPaths` | 5.3/PathDrawer.js:168-241 | succeeds exactly when there is at least one route; with none it throws a TypeError after resizing and detaching the pool. Pool length is at least n. It is exactly n after growth, and `PrunedLength` under the current level after shrinking. Slot i < n shows route i on the current map, with the requested drag flag and the style of `StyleOf(i, Classify(routes))`. Slots from n on are the old ones, detached. The attached slots are exactly the first n. Map, level and styles are unchanged |
| `PathDrawing.PathDrawer.RebindPool` | 5.3/PathDrawer.js:176-227 | the pool is grown to n slots or pruned under the current level; slot i < n shows route i in the alternative style and later slots are the old ones, detached |
| `PathDrawing.PathDrawer.ApplyStyles` | 5.3/PathDrawer.js:229-240 | the shortest and fastest slots get the style `StyleOf` gives them; every other slot is untouched |
| `PathDrawing.PathDrawer.GrowAndBind` | 5.3/PathDrawer.js:178-198 | a pool shorter than the route set ends with one slot per route, slot i bound to route i in the alternative style |
| `PathDrawing.PathDrawer.BindRoutes` | 5.3/PathDrawer.js:203-211 | slots below n are rebound to their routes in the alternative style and later slots are untouched |
| `PathDrawing.PathDrawer.DetachFrom` | 5.3/PathDrawer.js:213-215 | every slot from the given index on is detached from the map and otherwise unchanged; earlier slots are untouched |
| `PathDrawing.PathDrawer.HidePaths` | 5.3/PathDrawer.js:246-250 | every slot is detached; pool length, bindings, styles and drag flags are unchanged |
| `PathDrawing.PathDrawer.ShowPaths` | 5.3/PathDrawer.js:255-259 | every slot is attached to the current map; nothing else changes |
| `PathDrawing.PathDrawer.Reset` | 5.3/PathDrawer.js:262-268 | the pool is empty, the level is aggressive and the styles are the defaults; the map is kept |
| `PathDrawing.PathDrawer.ResetAsWritten` | 5.3/PathDrawer.js:264-268 | as written, the pool is emptied and then a TypeError is thrown, so level and styles are left as they were |
| `PathDrawing.PathDrawer.Prune` | 5.3/PathDrawer.js:277-288 | n at or above the pool length gives an invalid-argument failure and no change; otherwise the pool becomes its prefix of `PrunedLength` slots |
| `PathDrawing.PathDrawer.SetPruneLevel` | 5.3/PathDrawer.js:294-296 | the level becomes the given value, unchecked; nothing else changes |
| `PathDrawing.PathDrawer.GetPruneLevel` | 5.3/PathDrawer.js:302-307 | returns the current level and a description that is defined exactly for the three valid levels |
| `PathDrawing.PathDrawer.SetMap` | 5.3/PathDrawer.js:313-315 | the map becomes the given one; the pool, level and styles are unchanged |
| `PathDrawing.PathDrawer.GetMap` | 5.3/PathDrawer.js:321-323 | returns the current map |
| `MarkerTracking.InverseTablesSameSize` | 4.1/MarkerTracker.js:163-165 | two mutually inverse tables have the same number of entries |
| `MarkerTracking.MarkerTracker.constructor` | 4.1/MarkerTracker.js:20-26 | both tables are empty, the counter is 0, no marker was last used, and the invariant holds |
| `MarkerTracking.MarkerTracker.TrackMarker` | 4.1/MarkerTracker.js:33-46 | a tracked marker gives false and no change. A new one is stored in both tables under the old counter, above every id in use, with null info. The counter grows by one and the tables stay inverse |
| `MarkerTracking.MarkerTracker.SetMarkerInfo` | 4.1/MarkerTracker.js:54-64 | false and no change for an untracked marker; otherwise only that marker's info changes and its id is kept |
| `MarkerTracking.MarkerTracker.SetMarkerListener` | 4.1/MarkerTracker.js:74-84 | accepted exactly for tracked markers |
| `MarkerTracking.MarkerTracker.GetMarkerInfo` | 4.1/MarkerTracker.js:91-93 | the stored info of a tracked marker; a TypeError for an untracked one |
| `MarkerTracking.MarkerTracker.GetMarkerById` | 4.1/MarkerTracker.js:100-102 | defined exactly for ids in use, and the marker returned is stored under that id |
| `MarkerTracking.MarkerTracker.GetMarkerId` | 4.1/MarkerTracker.js:109-111 | a tracked marker's id names it back and is below the counter; a TypeError for an untracked marker |
| `MarkerTracking.MarkerTracker.UntrackMarker` | 4.1/MarkerTracker.js:117-122 | removes exactly that marker and its id from both tables, so the count drops by one. The counter is unchanged and the tables stay inverse. An untracked marker gives a TypeError and no change |
| `MarkerTracking.MarkerTracker.UntrackMarkerById` | 4.1/MarkerTracker.js:128-134 | removes exactly that id and its marker from both tables, so the count drops by one, and the counter is unchanged. An unused id gives a TypeError and no change |
| `MarkerTracking.MarkerTracker.Reset` | 4.1/MarkerTracker.js:139-149 | both tables are empty, the counter is 0 and the last-used marker is null |
| `MarkerTracking.MarkerTracker.GetMarkersCount` | 4.1/MarkerTracker.js:163-165 | the number of tracked markers, equal to the number of ids in use |
| `MarkerTracking.MarkerTracker.GetIdCounter` | 4.1/MarkerTracker.js:176-182 | the counter, which is above the id of every tracked marker |
| `MarkerLabels.SymbolAt` | 4.1/MarkerLabelLib.js:48 | with a non-empty alphabet the symbol at any index belongs to the alphabet |
| `MarkerLabels.SymbolCycle` | 4.1/MarkerLabelLib.js:48 | the symbols repeat with period the alphabet length, and the first round is the alphabet in order |
| `MarkerLabels.MarkerLabelLib.constructor` | 4.1/MarkerLabelLib.js:24-30 | keeps the alphabet and recycling flag, index 0, empty bin |
| `MarkerLabels.MarkerLabelLib.RecycleSymbol` | 4.1/MarkerLabelLib.js:36-38 | the symbol is pushed on the bin whether or not recycling is on; index and flag unchanged |
| `MarkerLabels.MarkerLabelLib.NextSymbol` | 4.1/MarkerLabelLib.js:44-49 | with recycling on and a non-empty bin, it pops and returns the last recycled symbol, leaving the index unchanged. Otherwise it returns the alphabet symbol at the index, advances the index and leaves the bin unchanged. With a non-empty alphabet every result is an alphabet symbol or a recycled one |
| `MarkerLabels.MarkerLabelLib.Reset` | 4.1/MarkerLabelLib.js:56-61 | the index is 0; the bin is emptied exactly when asked |
| `MarkerLabels.MarkerLabelLib.EmptyRecycleBin` | 4.1/MarkerLabelLib.js:66-68 | the bin is empty; index and flag unchanged |
| `MarkerLabels.MarkerLabelLib.SetRecycling` | 4.1/MarkerLabelLib.js:74-76 | sets the flag and never changes the bin or the index |
| `MarkerLabels.MarkerLabelLib.IsRecyclingOn` | 4.1/MarkerLabelLib.js:82-84 | returns the recycling flag |

## Left out

- PathDrawing.PathDrawer.constructor: always receives a `PathDrawerParams` record. `new PathDrawer()` with no parameter object throws a TypeError at `params.map` (5.3/PathDrawer.js:71); that call is not modelled.
- Renderers dropped by `prune` are not represented. The source shortens the array without calling `setMap(null)`, so they stay drawn on the map.
- Drawing itself, the DirectionsRenderer object and the directions service are left out. A renderer is the `Handle` record of what `setOptions` gave it.
- Renderers are values in a sequence owned by the drawer, not shared objects. No aliasing between pool slots and callers is modelled.
- Leg distances, durations and their sums are unbounded integers. JavaScript numbers are doubles, which are exact only up to 2^53.
- In the `PathDrawerParams` record, a prune level that is missing or not an integer is one case, `None`.
- MarkerTracker: the `marker.lib` back-reference and the `marker.setMap(null)` calls of `untrackMarkerById` and `reset` change the marker objects, not the tracker, so they are not modelled.
- MarkerTracking.MarkerTracker.SetMarkerListener: models only the answer; registering the listener is an event-system call. Its callback writes a public `lastMarkerUsed` property, so the internal last-used marker is only ever reset to null.
- `getIterator` and `getLastMarkerUsed` are left out. The iteration order of a JavaScript `Map` is not modelled, and the second only returns the field that `reset` clears.
- The `+id` number coercion and the `+ ""` string conversion are identities here: ids are naturals and symbols are strings.
- The built-in alphabets of MarkerLabelLib (4.1/MarkerLabelLib.js:92-124) are data; the alphabet is a constructor parameter.
- The private-field side table of the libraries' base class is replaced by ordinary class fields.
- The example pages (UI event handlers, geocoding, search boxes, street view), the bearing arithmetic and the build script are not part of this model.

## Findings

| source | as written | input that shows it | evidently intended | confidence | as-written member | corrected member |
|---|---|---|---|---|---|---|
| 5.3/PathDrawer.js:108-126 | `typeof x == undefined` is never true. Every middle branch assigns into a `routesPolylineOptions` that is still undefined, which throws a TypeError | `polylineOptions` with `shortest`, `best`, `alternative` but no `fastest` | each of the four styles defaults on its own (doc comment, line 26) | high, not executed | `PathDrawing.ResolveStylesAsWritten`, `PathDrawing.StyleDefaultsFinding` | `PathDrawing.ResolveStyles` |
| 5.3/PathDrawer.js:77 | the fallback `this.AGGRESSIVE_PRUNNING()` calls a static getter through the instance; it is undefined there, so the call throws | `new PathDrawer({})`, with no prune level | default prune level 2 | high, not executed | `PathDrawing.InitialPruneLevelAsWritten`, `PathDrawing.PruneLevelDefaultFinding` | `PathDrawing.InitialPruneLevel` |
| 5.3/PathDrawer.js:266 | the same call in `reset` throws after the pool has been emptied, so the prune level and styles are not restored | any `reset()` | pool emptied, level 2, default styles | high, not executed | `PathDrawing.PathDrawer.ResetAsWritten` | `PathDrawing.PathDrawer.Reset` |
