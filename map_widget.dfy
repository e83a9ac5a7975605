/**
 * The map widget: its waypoint proxies (wpIcons, wps and the vertices of
 * waypointPath), the drag flag, the create-path toggle, the mouse mode, the
 * active vehicle, the vehicle icon registry, the follow limiter's lastUpdate
 * and the zoom levels. Redraw requests to the map surface are not modelled.
 */
module MapWidget {
  import opened Wrappers
  import opened Coordinates
  import opened WaypointProxies
  import opened Vehicles
  import opened IconRegistry
  import opened FollowLimiter
  import opened WheelZoom

  /** The map control's mouse mode: MapControl::None (the mouse does not move the map) or Panning. */
  datatype MouseMode = NoMouseMode | Panning

  /** The kind of a mouse event reported by the map control. */
  datatype MouseEventKind = MouseButtonPress | MouseButtonRelease | MouseMove | MouseButtonDblClick

  /**
   * A geometry reported by the waypoint layer: one of the waypoint icons,
   * given by its position in wpIcons (the layer holds exactly those icons),
   * or any other geometry (a vehicle icon, the path line), which is not a
   * Waypoint2DIcon.
   */
  datatype LayerGeometry = WaypointIconAt(pos: nat) | OtherGeometry

  class MapWidget {
    var icons: seq<Icon>
    var wps: seq<Coord>
    var path: seq<Coord>
    var waypointIsDrag: bool
    var createPathChecked: bool
    var mouseMode: MouseMode
    var mav: Vehicle?
    var uasIcons: map<int, VehicleIcon>
    var lastUpdate: U64
    var viewCenter: Coord
    var zoom: int
    var detailZoom: int

    /** The three proxy collections as one value. */
    function Proxies(): ProxyState
      reads this
    {
      ProxyState(icons, wps, path)
    }

    ghost predicate Valid()
      reads this
    {
      Aligned(Proxies()) && Registered(uasIcons)
    }

    /** The widget as constructed: no vehicle, no proxies, zoom 16 centred on (8.548056, 47.376889). */
    constructor ()
      ensures Valid() && Proxies() == Empty
      ensures !waypointIsDrag && !createPathChecked && mouseMode == Panning
      ensures mav == null && uasIcons == map[] && lastUpdate == 0
      ensures zoom == 16 && viewCenter == Coord(8.548056, 47.376889)
    {
      icons, wps, path := [], [], [];
      waypointIsDrag, createPathChecked, mouseMode := false, false, Panning;
      mav, uasIcons, lastUpdate := null, map[], 0;
      zoom, detailZoom := 16, 0;
      viewCenter := Coord(8.548056, 47.376889);
    }

    /** wpExists: some point has exactly the coordinate `c`. */
    method WpExists(c: Coord) returns (found: bool)
      ensures found <==> c in wps
    {
      var i := 0;
      while i < |wps|
        invariant 0 <= i <= |wps|
        invariant c !in wps[..i]
      {
        if wps[i] == c {
          return true;
        }
        assert wps[..i + 1] == wps[..i] + [wps[i]];
        i := i + 1;
      }
      assert wps[..i] == wps;
      return false;
    }

    /** createWaypointGraphAtMap: a new icon named `id`, point and path vertex at the end, unless the coordinate is taken. */
    method CreateWaypointGraphAtMap(id: nat, c: Coord)
      requires Valid()
      modifies this`icons, this`wps, this`path
      ensures Valid()
      ensures Proxies() == Create(old(Proxies()), id, c)
    {
      var taken := WpExists(c);
      if !taken {
        icons := icons + [Icon(id, c)];
        wps := wps + [c];
        path := path + [c];
      }
    }

    /**
     * updateWaypoint: a waypoint of vehicle `uas` changed. Only the active
     * vehicle's waypoints are shown; `wp` is looked up in its list.
     */
    method UpdateWaypoint(uas: int, wp: Waypoint)
      requires Valid() && mav != null
      modifies this`icons, this`wps, this`path
      ensures Valid()
      ensures Proxies() == if uas == mav.id
        then Update(old(Proxies()), Lookup(IndexOf(mav.waypoints, wp), old(wp.Coordinate())), waypointIsDrag)
        else old(Proxies())
    {
      if uas == mav.id {
        var index := IndexOf(mav.waypoints, wp);
        if index == -1 {
          return;
        }
        var c := Coord(wp.x, wp.y);
        if !(|icons| > index) {
          CreateWaypointGraphAtMap(index, c);
        } else if !waypointIsDrag {
          wps := wps[index := c];
          icons := icons[index := icons[index].(coord := c)];
          // The path holds the same points as wps, so it is never too short
          // here and the source's branch that appends to it is not taken.
          assert index < |path|;
          path := path[index := c];
        }
      }
    }

    /** captureMapClick: a click adds a waypoint only on button release while create-path is armed. */
    method CaptureMapClick(kind: MouseEventKind, c: Coord)
      requires Valid()
      modifies this`icons, this`wps, this`path, mav
      ensures Valid()
      ensures mav == old(mav)
      ensures !(kind == MouseButtonRelease && createPathChecked) ==>
        Proxies() == old(Proxies()) && (mav != null ==> mav.waypoints == old(mav.waypoints))
      ensures kind == MouseButtonRelease && createPathChecked && mav != null ==>
        && Proxies() == old(Proxies())
        && |mav.waypoints| == |old(mav.waypoints)| + 1
        && mav.waypoints[..|old(mav.waypoints)|] == old(mav.waypoints)
        && var w := mav.waypoints[|old(mav.waypoints)|];
           fresh(w) && w.id == |old(mav.waypoints)| && w.Coordinate() == c
           && w.z == 0.0 && w.yaw == 0.0 && w.autoContinue
      ensures kind == MouseButtonRelease && createPathChecked && mav == null ==>
        Proxies() == Append(old(Proxies()), |old(path)|, c)
    {
      if kind == MouseButtonRelease && createPathChecked {
        if mav != null {
          var w := new Waypoint(|mav.waypoints|, c.x, c.y, 0.0, 0.0, true);
          mav.AddWaypoint(w);
        } else {
          var name := |path|;
          icons := icons + [Icon(name, c)];
          wps := wps + [c];
          path := path + [c];
        }
      }
    }

    /** captureGeometryClick: clicking a geometry stops the mouse from panning the map. */
    method CaptureGeometryClick()
      modifies this`mouseMode
      ensures mouseMode == NoMouseMode
    {
      mouseMode := NoMouseMode;
    }

    /**
     * captureGeometryDrag: a dragged waypoint icon whose name parses to an
     * index below the point count moves, with path vertex (and point) index;
     * the active vehicle's waypoint at that index, if any, takes the new
     * coordinate and its change is notified back into UpdateWaypoint while
     * the drag flag is set. The flag is clear again on return.
     */
    method CaptureGeometryDrag(g: LayerGeometry, c: Coord)
      requires Valid()
      requires g.WaypointIconAt? ==> g.pos < |icons|
      modifies this`icons, this`wps, this`path, this`waypointIsDrag
      modifies if mav == null then {} else set w | w in mav.waypoints
      ensures Valid() && !waypointIsDrag
      ensures mav == old(mav) && (mav != null ==> mav.waypoints == old(mav.waypoints))
      ensures !Moves(g, old(Proxies())) ==>
        Proxies() == old(Proxies()) && (mav != null ==> forall w :: w in mav.waypoints ==> unchanged(w))
      ensures Moves(g, old(Proxies())) ==>
        var index := old(icons[g.pos].name);
        && Proxies() == MoveDragged(old(Proxies()), g.pos, index, c)
        && (mav != null && index < |mav.waypoints| ==>
              var w := mav.waypoints[index];
              && w.Coordinate() == c
              && w.id == old(w.id) && w.z == old(w.z) && w.yaw == old(w.yaw) && w.autoContinue == old(w.autoContinue)
              && forall v :: v in mav.waypoints && v != w ==> unchanged(v))
        && (mav != null && index >= |mav.waypoints| ==> forall v :: v in mav.waypoints ==> unchanged(v))
    {
      waypointIsDrag := true;
      if g.WaypointIconAt? && icons[g.pos].name < |wps| {
        var index := icons[g.pos].name;
        icons := icons[g.pos := icons[g.pos].(coord := c)];
        path := path[index := c];
        wps := wps[index := c];
        if mav != null {
          var list := mav.waypoints;
          if |list| > index {
            var w := list[index];
            w.x := c.x;
            w.y := c.y;
            ghost var before := Proxies();
            // notifyOfChange: the manager signals the change straight back.
            UpdateWaypoint(mav.id, w);
            assert 0 <= IndexOf(list, w) <= index;
            assert Proxies() == before;
          }
        }
      }
      waypointIsDrag := false;
    }

    /** Whether a drag of `g` moves anything: a waypoint icon whose name is below the point count. */
    static predicate Moves(g: LayerGeometry, p: ProxyState)
    {
      g.WaypointIconAt? && g.pos < |p.icons| && p.icons[g.pos].name < |p.wps|
    }

    /** captureGeometryEndDrag: back to panning, unless a path is being created. */
    method CaptureGeometryEndDrag()
      modifies this`waypointIsDrag, this`mouseMode
      ensures !createPathChecked ==> !waypointIsDrag && mouseMode == Panning
      ensures createPathChecked ==> waypointIsDrag == old(waypointIsDrag) && mouseMode == old(mouseMode)
    {
      if !createPathChecked {
        waypointIsDrag := false;
        mouseMode := Panning;
      }
    }

    /** createPathButtonClicked: an armed create-path button stops panning; a released one restores it. */
    method CreatePathButtonClicked()
      modifies this`mouseMode
      ensures mouseMode == if createPathChecked then NoMouseMode else Panning
    {
      if createPathChecked {
        mouseMode := NoMouseMode;
      } else {
        mouseMode := Panning;
      }
    }

    /** A click on the checkable create-path button: it toggles, then its clicked slot runs. */
    method ClickCreatePath()
      modifies this`createPathChecked, this`mouseMode
      ensures createPathChecked == !old(createPathChecked)
      ensures mouseMode == if createPathChecked then NoMouseMode else Panning
    {
      createPathChecked := !createPathChecked;
      CreatePathButtonClicked();
    }

    /** clearWaypoints: no proxies remain; an armed create-path button is released, which sets panning. */
    method ClearWaypoints()
      requires Valid()
      modifies this`icons, this`wps, this`path, this`createPathChecked, this`mouseMode
      ensures Valid() && Proxies() == Empty && !createPathChecked
      ensures mouseMode == if old(createPathChecked) then Panning else old(mouseMode)
    {
      wps := [];
      icons := [];
      path := [];
      if createPathChecked {
        ClickCreatePath();
      }
    }

    /**
     * updateWaypointList: vehicle `uas` (found as `instance`, or null) has a
     * new list. An empty list clears the proxies; otherwise every waypoint is
     * replayed through UpdateWaypoint and the surplus tail is removed.
     */
    method UpdateWaypointList(uas: int, instance: Vehicle?)
      requires Valid() && mav != null
      requires instance != null ==> instance.id == uas
      modifies this`icons, this`wps, this`path, this`createPathChecked, this`mouseMode
      ensures Valid()
      ensures instance == null ==>
        Proxies() == old(Proxies()) && createPathChecked == old(createPathChecked) && mouseMode == old(mouseMode)
      ensures instance != null && instance.waypoints == [] ==>
        && Proxies() == Empty && !createPathChecked
        && mouseMode == (if old(createPathChecked) then Panning else old(mouseMode))
      ensures instance != null && instance.waypoints != [] ==>
        && Proxies() == Truncated(Replay(old(Proxies()), old(Lookups(mav.waypoints, instance.waypoints)), waypointIsDrag),
                                  |instance.waypoints|)
        && createPathChecked == old(createPathChecked) && mouseMode == old(mouseMode)
      ensures instance != null ==> |path| <= |instance.waypoints|
    {
      if instance == null {
        return;
      }
      var list := instance.waypoints;
      if |list| == 0 {
        ClearWaypoints();
        assert Coords(list) == [];
        return;
      }
      LoadList(list);
    }

    /**
     * The non-empty branch of updateWaypointList: replay each waypoint of
     * `list`, then cut the proxies back to the list's length.
     */
    method LoadList(list: seq<Waypoint>)
      requires Valid() && mav != null
      modifies this`icons, this`wps, this`path
      ensures Valid()
      ensures Proxies() == Truncated(Replay(old(Proxies()), old(Lookups(mav.waypoints, list)), waypointIsDrag), |list|)
      ensures |path| <= |list|
    {
      ghost var start := Proxies();
      ghost var ls := Lookups(mav.waypoints, list);
      ReplayWaypoints(list);
      ghost var replayed := Proxies();
      assert replayed == Replay(start, ls, waypointIsDrag);
      RemoveSurplus(|list|);
      assert Proxies() == Truncated(replayed, |list|);
    }

    /** The foreach of updateWaypointList: UpdateWaypoint, for the active vehicle, on each waypoint of `list`. */
    method ReplayWaypoints(list: seq<Waypoint>)
      requires Valid() && mav != null
      modifies this`icons, this`wps, this`path
      ensures Valid()
      ensures Proxies() == Replay(old(Proxies()), old(Lookups(mav.waypoints, list)), waypointIsDrag)
    {
      ghost var start := Proxies();
      ghost var ls := Lookups(mav.waypoints, list);
      var i := 0;
      while i < |list|
        invariant 0 <= i <= |list|
        invariant Valid()
        invariant Proxies() == Replay(start, ls[..i], waypointIsDrag)
      {
        ReplayStep(start, ls, i, waypointIsDrag);
        ghost var l := ls[i];
        assert l == Lookup(IndexOf(mav.waypoints, list[i]), list[i].Coordinate());
        UpdateWaypoint(mav.id, list[i]);
        assert Proxies() == Update(Replay(start, ls[..i], waypointIsDrag), l, waypointIsDrag);
        i := i + 1;
      }
      assert ls[..i] == ls;
    }

    /** The truncation loop of updateWaypointList: removeLast on all three collections until the path has at most `n` vertices. */
    method RemoveSurplus(n: nat)
      requires Valid()
      modifies this`icons, this`wps, this`path
      ensures Valid()
      ensures Proxies() == Truncated(old(Proxies()), n)
    {
      if |path| > n {
        var overSize := |path| - n;
        ghost var before := Proxies();
        for k := 0 to overSize
          invariant Valid()
          invariant Proxies() == DropLast(before, k)
        {
          wps := wps[..|wps| - 1];
          icons := icons[..|icons| - 1];
          path := path[..|path| - 1];
        }
      }
    }

    /** redoWaypoints: clear every proxy, then load vehicle `uas`'s list. */
    method RedoWaypoints(uas: int, instance: Vehicle?)
      requires Valid() && mav != null
      requires instance != null ==> instance.id == uas
      modifies this`icons, this`wps, this`path, this`createPathChecked, this`mouseMode
      ensures Valid() && !createPathChecked
      ensures mouseMode == if old(createPathChecked) then Panning else old(mouseMode)
      ensures instance == null || instance.waypoints == [] ==> Proxies() == Empty
      ensures instance != null && instance.waypoints != [] ==>
        Proxies() == Truncated(Replay(Empty, old(Lookups(mav.waypoints, instance.waypoints)), waypointIsDrag),
                               |instance.waypoints|)
    {
      ClearWaypoints();
      UpdateWaypointList(uas, instance);
    }

    /**
     * activeUASSet: a non-null vehicle becomes the active one, its proxies
     * are reloaded (from `reload`, the vehicle redoWaypoints' default
     * argument names) and its icon is the one selected; null changes nothing.
     */
    method ActiveUASSet(uas: Vehicle?, reloadId: int, reload: Vehicle?)
      requires Valid()
      requires reload != null ==> reload.id == reloadId
      modifies this`mav, this`icons, this`wps, this`path, this`createPathChecked, this`mouseMode, this`uasIcons
      ensures Valid()
      ensures uas == null ==> unchanged(this)
      ensures uas != null ==> mav == uas && !createPathChecked
      ensures uas != null ==> mouseMode == if old(createPathChecked) then Panning else old(mouseMode)
      ensures uas != null ==> uasIcons == Selected(old(uasIcons), uas.id)
      ensures uas != null && (reload == null || reload.waypoints == []) ==> Proxies() == Empty
      ensures uas != null && reload != null && reload.waypoints != [] ==>
        Proxies() == Truncated(Replay(Empty, old(Lookups(uas.waypoints, reload.waypoints)), waypointIsDrag),
                               |reload.waypoints|)
    {
      if uas != null {
        mav := uas;
        RedoWaypoints(reloadId, reload);
        UpdateSelectedSystem(mav.id);
      }
    }

    /** updateSelectedSystem: mark each vehicle icon selected iff its vehicle id is `u`. */
    method UpdateSelectedSystem(u: int)
      requires Valid()
      modifies this`uasIcons
      ensures Valid() && uasIcons == Selected(old(uasIcons), u)
      ensures uasIcons.Keys == old(uasIcons).Keys
      ensures forall k :: k in uasIcons ==> uasIcons[k] == old(uasIcons)[k].(selected := Some(k == u))
    {
      uasIcons := map k | k in uasIcons :: uasIcons[k].(selected := Some(uasIcons[k].uasId == u));
    }

    /** updateAttitude: turn the vehicle's icon to `yaw`; an unknown or null vehicle changes nothing. */
    method UpdateAttitude(uas: Vehicle?, yaw: real)
      requires Valid()
      modifies this`uasIcons
      ensures Valid()
      ensures uasIcons == if uas == null then old(uasIcons) else WithYaw(old(uasIcons), uas.id, yaw)
    {
      if uas != null {
        if uas.id in uasIcons {
          var icon := uasIcons[uas.id];
          uasIcons := uasIcons[uas.id := icon.(yaw := Some(yaw))];
        }
      }
    }

    /**
     * updateGlobalPosition: insert or move the vehicle's icon; for the active
     * vehicle, when more than 120 ms of ground time `now` have passed since
     * lastUpdate, advance lastUpdate and, with follow checked, re-centre.
     */
    method UpdateGlobalPosition(uas: Vehicle, lat: real, lon: real, now: U64, follow: bool, visible: bool)
      returns (recentred: bool)
      requires Valid()
      modifies this`uasIcons, this`lastUpdate, this`viewCenter
      ensures Valid()
      ensures uasIcons == Upsert(old(uasIcons), uas.id, Coord(lat, lon))
      ensures var o := Step(old(lastUpdate), PositionUpdate(mav != null && uas.id == mav.id, now, follow, visible));
        && lastUpdate == o.lastUpdate && recentred == o.recentre
        && viewCenter == if o.recentre then Coord(lat, lon) else old(viewCenter)
    {
      if uas.id !in uasIcons {
        uasIcons := uasIcons[uas.id := NewIcon(uas.id)];
      } else {
        var icon := uasIcons[uas.id];
        uasIcons := uasIcons[uas.id := icon.(pos := Some(Coord(lat, lon)))];
      }
      recentred := false;
      if mav != null && uas.id == mav.id {
        if Elapsed(now, lastUpdate) > Interval {
          lastUpdate := now;
          if follow {
            recentred := UpdatePosition(lat, lon, follow, visible);
          }
        }
      }
    }

    /** updatePosition: centre the view on (lat, lon) when follow is checked and the widget is visible. */
    method UpdatePosition(lat: real, lon: real, follow: bool, visible: bool) returns (moved: bool)
      modifies this`viewCenter
      ensures moved == (follow && visible)
      ensures viewCenter == if moved then Coord(lat, lon) else old(viewCenter)
    {
      moved := follow && visible;
      if moved {
        viewCenter := Coord(lat, lon);
      }
    }

    /**
     * wheelEvent: zoom by the wheel's steps; the map control bounds the level
     * to [minZoom, maxZoom], and detailZoom keeps the steps past the maximum.
     */
    method WheelEvent(delta: Int32, minZoom: int, maxZoom: int)
      requires minZoom <= maxZoom
      modifies this`zoom, this`detailZoom
      ensures zoom == Clamp(old(zoom) + WheelSteps(delta), minZoom, maxZoom)
      ensures detailZoom == DetailZoom(old(zoom) + WheelSteps(delta), zoom)
    {
      var numDegrees := TruncDiv(delta, 8);
      var numSteps := TruncDiv(numDegrees, 15);
      var newZoom := zoom + numSteps;
      zoom := Clamp(newZoom, minZoom, maxZoom);
      detailZoom := DetailZoom(newZoom, zoom);
    }
  }
}
