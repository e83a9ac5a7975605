# MapWidget waypoint proxies — a Dafny model

QGroundControl's 2D map widget (`MapWidget`) shows the active vehicle's
mission. For each waypoint of that vehicle it keeps three parallel,
index-addressed lists: `wps` with its points, `wpIcons` with its icons, and
the vertices of `waypointPath`, the line joining them. Remote changes keep
these lists in step with the vehicle's waypoint list: one changed waypoint
arrives through `updateWaypoint`, a whole new list through
`updateWaypointList`. Operator clicks and drags on the map turn into new
waypoints or new coordinates. Around this bookkeeping the widget also keeps:

- a drag flag;
- the create-path toggle;
- the map's mouse mode;
- a registry of vehicle icons keyed by vehicle id;
- a limiter that re-centres the map on the active vehicle at most once per
  more than 120 ms, on a ground clock that does not run backwards; a
  backward step re-opens the window at once (see `BackwardClockOpensWindow`);
- the zoom arithmetic of the mouse wheel.

The model is organised as follows:

- `MapWidget.MapWidget` is a class with the widget's state as fields. Each of
  the widget's slots is a method, proved against value-level specification
  functions.
- `WaypointProxies` holds those functions for the proxy lists (`Create`,
  `Update`, `Replay`, `Truncated`, `MoveDragged`) and the lemmas about them.
- `Vehicles` models the vehicle side: waypoint objects, the vehicle's ordered
  waypoint list, and `getIndexOf`.
- `IconRegistry` covers the vehicle icon map.
- `FollowLimiter` covers the 120 ms window on unsigned 64-bit ground time.
- `WheelZoom` covers the wheel arithmetic, with C++ truncating division
  written out.

The class invariant `Valid()` says three things. There is one icon per
point. Every vehicle icon is filed under its own vehicle's id. And the path's vertices are the very Point objects held in `wps`: they are created
together and appended to both lists, at src/ui/MapWidget.cc:533-535 and
424-426. As a result, moving path vertex `index` during a drag also moves
`wps[index]`, so `MoveDragged` updates both. Under the same invariant, the
branch of `updateWaypoint` that appends to a too-short path (lines 486-489)
can never be taken; the model proves that the path is long enough at that
point.

## Model

| member | source | states |
|---|---|---|
| WaypointProxies.Append | src/ui/MapWidget.cc:418-426 | one icon, point and path vertex at the end: the count grows by one, the old entries are kept and the new ones carry the name and coordinate |
| WaypointProxies.SetAt | src/ui/MapWidget.cc:471-494 | entry i of all three lists takes the coordinate, the icon keeps its name, the count and every other entry stay |
| WaypointProxies.DropLast | src/ui/MapWidget.cc:672-678 | k removeLast calls on each list leave the first count - k entries |
| WaypointProxies.Create | src/ui/MapWidget.cc:505-546 | creating a proxy keeps one icon per point and the path equal to the point list |
| WaypointProxies.Update | src/ui/MapWidget.cc:442-503 | the effect of one waypoint change on the proxies keeps them aligned |
| WaypointProxies.Replay | src/ui/MapWidget.cc:662-666 | replaying a list of looked-up waypoints keeps the proxies aligned |
| WaypointProxies.Truncated | src/ui/MapWidget.cc:668-679 | the surplus removal leaves exactly min(count, n) proxies, each list a prefix of what it was, still aligned |
| WaypointProxies.MoveDragged | src/ui/MapWidget.cc:584-588 | moving the dragged icon and path vertex (and with it the shared point) keeps the proxies aligned |
| WaypointProxies.CreateAppendsIffNew | src/ui/MapWidget.cc:505-558 | one entry is appended to each list iff no point has exactly the coordinate, always at the end, with the icon named by the id; otherwise nothing changes |
| WaypointProxies.UpdateTouchesOnlyItsIndex | src/ui/MapWidget.cc:459-500 | a change to a waypoint with a proxy keeps the count, leaves everything alone during a drag, and otherwise sets only entry `index` (icon name kept) |
| WaypointProxies.ListReplayBoundsPath | src/ui/MapWidget.cc:662-679 | after replay and truncation the path is never longer than the list |
| WaypointProxies.ReplayDistinctPrefix | src/ui/MapWidget.cc:452-500 | replaying the first k waypoints of a list with distinct coordinates puts waypoint i in proxy i for every i < k |
| WaypointProxies.ListReplayMirrorsDistinctList | src/ui/MapWidget.cc:643-684 | with distinct coordinates and no drag, replay plus truncation leaves exactly one proxy per waypoint, proxy i holding waypoint i's coordinate |
| WaypointProxies.DuplicateCoordinatesShareAProxy | src/ui/MapWidget.cc:452-458 | two waypoints at the same coordinate reload into a single proxy, so the count equality needs distinct coordinates |
| WaypointProxies.DragMovesOnlyItsEntries | src/ui/MapWidget.cc:584-588 | a drag moves the dragged icon and entry `index` of the path and points, and no other icon or point |
| Vehicles.IndexOf | src/ui/MapWidget.cc:447-448 | getIndexOf: -1 iff the waypoint is absent, otherwise the position of its first occurrence |
| Vehicles.Coords | src/ui/MapWidget.cc:454-456 | the coordinates of a waypoint list, one per waypoint, in order |
| Vehicles.Lookups | src/ui/MapWidget.cc:445-456 | what updateWaypoint sees for each waypoint of a list: its index in the active list and its coordinate |
| Vehicles.LookupsOfDistinctList | src/ui/MapWidget.cc:447 | in a list with distinct coordinates every waypoint is found at its own position |
| Vehicles.DistinctListLoadsMirror | src/ui/MapWidget.cc:643-684 | loading the active vehicle's own list, with distinct coordinates and no drag, leaves exactly one proxy per waypoint, proxy i showing waypoint i, whatever was there before |
| Vehicles.Vehicle.AddWaypoint | src/ui/MapWidget.cc:414 | addWaypoint appends the waypoint at the end of the vehicle's list |
| Vehicles.Waypoint.constructor | src/ui/MapWidget.cc:414 | a new waypoint holds the id, coordinate, altitude, yaw and auto-continue it was given |
| IconRegistry.NewIcon | src/ui/MapWidget.cc:800-801 | the icon made on a first sighting carries the vehicle's id, is filed under it, and has none of the fields this file sets |
| IconRegistry.Upsert | src/ui/MapWidget.cc:792-830 | an unseen id gets a fresh icon, without a position; a known id's icon only moves; other ids are untouched |
| IconRegistry.WithYaw | src/ui/MapWidget.cc:756-763 | only the given id's icon turns; an unknown id changes nothing |
| IconRegistry.Selected | src/ui/MapWidget.cc:737-748 | the keys stay the same and every icon is marked selected iff its vehicle id is `u` |
| IconRegistry.SelectedExactlyOne | src/ui/MapWidget.cc:739-746 | afterwards exactly the icon filed under `u` is selected |
| FollowLimiter.Elapsed | src/ui/MapWidget.cc:840 | currTime - lastUpdate in quint64 arithmetic: the plain difference, or the difference plus 2^64 when the clock went back |
| FollowLimiter.Step | src/ui/MapWidget.cc:836-853 | lastUpdate advances iff an active-vehicle message finds more than 120 ms elapsed, whatever follow is; a re-centre happens iff, in addition, follow is checked and the widget is visible |
| FollowLimiter.RecentresAreSpaced | src/ui/MapWidget.cc:836-853 | on a clock that never runs backwards, each re-centre is more than 120 ms after the previous one (and after the starting lastUpdate) |
| FollowLimiter.AtMostOneRecentrePerWindow | src/ui/MapWidget.cc:836-853 | two messages at most 120 ms apart re-centre the map at most once |
| FollowLimiter.BackwardClockOpensWindow | src/ui/MapWidget.cc:840 | a clock that steps back by less than 2^64 - 120 ms always finds the window open, because the unsigned difference wraps round |
| WheelZoom.TruncDiv | src/ui/MapWidget.cc:872-873 | C++ `/` by a positive divisor: the quotient is rounded toward zero on both sides of 0 |
| WheelZoom.Clamp | src/ui/MapWidget.cc:876-877 | the map control bounds the zoom level to [lo, hi] and leaves an in-range level alone |
| WheelZoom.WheelSteps | src/ui/MapWidget.cc:872-873 | numSteps: for either sign of delta, the whole 120-unit steps toward zero, with a remainder of less than 120 |
| WheelZoom.DetailZoom | src/ui/MapWidget.cc:880 | the number of levels the requested zoom lies above the current one, and 0 when it does not |
| WheelZoom.NestedDivision | src/ui/MapWidget.cc:872-873 | dividing by 8 and then by 15 is dividing by 120 |
| WheelZoom.WheelStepsDivideBy120 | src/ui/MapWidget.cc:872-873 | the wheel's steps are delta / 120 rounded toward zero; a turn of under 120 units zooms nowhere |
| WheelZoom.DetailZoomCountsStepsPastMax | src/ui/MapWidget.cc:875-880 | detailZoom counts the steps asked for beyond the upper bound; zooming below the lower bound leaves it 0 |
| MapWidget.MapWidget.constructor | src/ui/MapWidget.cc:29-99 | no vehicle, no proxies, no icons, lastUpdate 0, drag flag clear, zoom 16, view centred on (8.548056, 47.376889) |
| MapWidget.MapWidget.WpExists | src/ui/MapWidget.cc:548-558 | true iff some point has exactly the coordinate |
| MapWidget.MapWidget.CreateWaypointGraphAtMap | src/ui/MapWidget.cc:505-546 | the proxies become Create of the old proxies |
| MapWidget.MapWidget.UpdateWaypoint | src/ui/MapWidget.cc:442-503 | nothing changes for another vehicle; for the active vehicle the proxies become Update of the waypoint's lookup, under the current drag flag |
| MapWidget.MapWidget.CaptureMapClick | src/ui/MapWidget.cc:402-435 | only a release with create-path armed acts; with a vehicle, one waypoint (id = old count, altitude 0, yaw 0, auto-continue) is appended to its list and the proxies stay; without one, a proxy named by the old path length is appended, without the duplicate check |
| MapWidget.MapWidget.CaptureGeometryClick | src/ui/MapWidget.cc:561-567 | the mouse mode becomes None |
| MapWidget.MapWidget.CaptureGeometryDrag | src/ui/MapWidget.cc:569-611 | a waypoint icon whose name is below the point count moves with its path vertex and point; the vehicle's waypoint at that index, if any, takes the coordinate while the echoed update changes no proxy; otherwise nothing changes; the drag flag is clear on return |
| MapWidget.MapWidget.CaptureGeometryEndDrag | src/ui/MapWidget.cc:613-626 | with create-path not armed, the flag clears and the mode becomes Panning; otherwise both stay |
| MapWidget.MapWidget.CreatePathButtonClicked | src/ui/MapWidget.cc:363-392 | the mouse mode is None when create-path is armed and Panning otherwise |
| MapWidget.MapWidget.ClickCreatePath | src/ui/MapWidget.cc:968-971 | a click toggles the checkable button, then the mode follows the new state |
| MapWidget.MapWidget.ClearWaypoints | src/ui/MapWidget.cc:942-973 | all three lists are empty; an armed create-path ends disarmed with the mode Panning |
| MapWidget.MapWidget.UpdateWaypointList | src/ui/MapWidget.cc:643-684 | an unknown vehicle changes nothing; an empty list acts exactly as ClearWaypoints; otherwise the proxies become the truncated replay of the list (see DistinctListLoadsMirror) and the path is never longer than the list |
| MapWidget.MapWidget.LoadList | src/ui/MapWidget.cc:661-679 | the non-empty branch: the proxies become the truncated replay and the path is no longer than the list |
| MapWidget.MapWidget.ReplayWaypoints | src/ui/MapWidget.cc:662-666 | the foreach leaves the proxies equal to Replay of the list's lookups |
| MapWidget.MapWidget.RemoveSurplus | src/ui/MapWidget.cc:668-679 | the removal loop leaves exactly Truncated of the proxies |
| MapWidget.MapWidget.RedoWaypoints | src/ui/MapWidget.cc:686-701 | the proxies are cleared and then loaded from the vehicle's list alone |
| MapWidget.MapWidget.ActiveUASSet | src/ui/MapWidget.cc:703-735 | a null vehicle changes nothing; otherwise it becomes the active one, the proxies are reloaded from scratch and its icon is the one selected |
| MapWidget.MapWidget.UpdateSelectedSystem | src/ui/MapWidget.cc:737-748 | the keys stay; each icon is marked selected iff it is filed under `u`, its other fields unchanged |
| MapWidget.MapWidget.UpdateAttitude | src/ui/MapWidget.cc:750-764 | a null or unknown vehicle changes nothing; otherwise only its icon's yaw changes |
| MapWidget.MapWidget.UpdateGlobalPosition | src/ui/MapWidget.cc:775-855 | the registry is upserted; lastUpdate and the view follow Step for this message; the result says whether the view moved |
| MapWidget.MapWidget.UpdatePosition | src/ui/MapWidget.cc:860-868 | the view moves to (lat, lon) iff follow is checked and the widget is visible |
| MapWidget.MapWidget.WheelEvent | src/ui/MapWidget.cc:870-881 | the zoom becomes the old zoom plus the wheel's steps, clamped to [minZoom, maxZoom], and detailZoom the steps lost above the upper bound |

## Left out

- Redraw requests, bounding boxes, `qDebug` output, pens, colours and cursor shapes: they only affect the screen.
- Qt `connect`/`disconnect` in `activeUASSet`: the model tracks only which vehicle is active.
- The `sendGeometryEndDrag` signal emitted at the end of a drag: nothing in this file consumes it.
- `goTo`, `mapproviderSelected`, `getPointxBearing_Range`, `updateCameraPosition`, `drawBorderCamAtMap`, `clearPath`, `keyPressEvent`, `addUAS` and the resize/show/hide/change event handlers: dialogs, map adapters, trigonometry and drawing.
- The constructor's layouts, buttons and map layers. Of its state, the model keeps only the fields this file uses. The initial mouse mode Panning is the map control's default, which is not part of this model.
- `MAV2DIcon`, `Waypoint2DIcon`, `UASWaypointManager` and `UASManager` are foreign classes:
  - an icon is a value holding its name and coordinate;
  - a vehicle icon keeps only its id and the fields this file sets;
  - `getUASForId` in `updateWaypointList` and `activeUASSet`'s reload is a parameter, the vehicle with the requested id or null;
  - `UpdateWaypoint` looks the waypoint up in `mav`'s own list, where line 447 asks `getUASForId` for the vehicle with `mav`'s id: the model assumes that vehicle is `mav`;
  - `notifyOfChange` is a direct call back into `updateWaypoint`.
- `LineString::points()` is taken to return the live list of vertices, so that `removeLast` and `setCoordinate` through it act on the path.
- Which vehicle `redoWaypoints()` reloads when `activeUASSet` calls it without an argument: the default argument lives in a header that is not part of this model, so `ActiveUASSet` takes that vehicle as a parameter.
- Coordinates are exact pairs. Floating-point subtleties of the equality in `wpExists` (NaN, signed zero) are not modelled. A Point's (longitude, latitude) is its (x, y), so `wpExists` compares whole coordinates.
- The `updateView` parameter of `updateWaypoint`: it only gates a redraw.
- The ground clock (`MG::TIME::getGroundTimeNow`), the follow button's state and the widget's visibility are parameters.
- C++ `int` overflow of the zoom level: zoom levels are small, so it is not modelled.
- `UpdateWaypoint`, `UpdateWaypointList`, `RedoWaypoints`, `LoadList`, `ReplayWaypoints`: they require an active vehicle. Each can run only once `mav` is set: `activeUASSet` sets it (line 716) before it reloads the proxies and before it connects the manager's change signals to these slots (729-730), and the source dereferences `mav` in them without a check (445, 665).
- `Vehicles.Vehicle.constructor`: a stand-in for the foreign vehicle object with its waypoint manager, which `UASManager` creates; nothing in this file constructs a vehicle.
- `Vehicles.Vehicle.AddWaypoint`: the manager's `addWaypoint` is a bare append here; the change signals the manager emits afterwards, and the slots they reach, are not followed.
- `MapWidget.MapWidget.constructor`: the model assumes no vehicle is active at construction, so `mav` starts null. The source calls `activeUASSet(getActiveUAS())` at line 217, before `waypointPath` is created at line 239; with a vehicle already active that call would use `waypointPath` (lines 723, 956, 959) before it exists, which the model cannot represent.
- Reloading a list whose waypoints share coordinates: the proxies then do not mirror the list (see `WaypointProxies.DuplicateCoordinatesShareAProxy`); the one-proxy-per-waypoint promise is proved only for distinct coordinates.
- `UpdateSelectedSystem`: the `foreach` over the icons is a single update of the whole map. Each icon is changed independently of the others, so the order of the loop does not matter. Icons are values in the map rather than objects changed in place.
- Waypoint icon names are always numbers in this file. The model therefore does not include a name that fails to parse as an index.
