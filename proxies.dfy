/**
 * The widget's waypoint proxies as values: one icon, one point and one path
 * vertex per waypoint shown on the map. The functions here say what each of
 * the widget's operations does to the three collections; the class
 * MapWidget.MapWidget is proved against them.
 */
module WaypointProxies {
  import opened Coordinates

  /**
   * A waypoint icon (Waypoint2DIcon). `name` is the number the icon was
   * created with; a drag parses it back as the waypoint index.
   */
  datatype Icon = Icon(name: nat, coord: Coord)

  /** wpIcons, wps and the vertices of waypointPath, index by index. */
  datatype ProxyState = ProxyState(icons: seq<Icon>, wps: seq<Coord>, path: seq<Coord>)

  const Empty := ProxyState([], [], [])

  /**
   * The path's vertices are the very Point objects held in wps, and there is
   * one icon per point: the three collections never drift apart.
   */
  predicate Aligned(p: ProxyState)
  {
    |p.icons| == |p.wps| && p.path == p.wps
  }

  /** Proxy i shows coordinate i of `cs`, and there is one proxy per coordinate. */
  predicate Mirrors(p: ProxyState, cs: seq<Coord>)
  {
    && p.wps == cs && p.path == cs && |p.icons| == |cs|
    && forall i :: 0 <= i < |cs| ==> p.icons[i].coord == cs[i]
  }

  /** The proxy count. */
  function Count(p: ProxyState): nat
  {
    |p.wps|
  }

  /** An answer of getIndexOf: a position in the list, or -1 for a waypoint not in it. */
  type FoundIndex = i: int | -1 <= i

  /** What a waypoint-changed event carries once looked up: getIndexOf's answer and the waypoint's coordinate. */
  datatype Lookup = Lookup(index: FoundIndex, coord: Coord)

  /** One new icon, point and path vertex at the end. */
  function Append(p: ProxyState, name: nat, c: Coord): (r: ProxyState)
    ensures Aligned(p) ==> Aligned(r)
    ensures Count(r) == Count(p) + 1 && |r.icons| == |p.icons| + 1
    ensures r.wps[..Count(p)] == p.wps && r.icons[..|p.icons|] == p.icons
    ensures r.wps[Count(p)] == c && r.icons[|p.icons|] == Icon(name, c)
  {
    ProxyState(p.icons + [Icon(name, c)], p.wps + [c], p.path + [c])
  }

  /** createWaypointGraphAtMap: append a proxy unless some point already has exactly this coordinate. */
  function Create(p: ProxyState, id: nat, c: Coord): (r: ProxyState)
    ensures Aligned(p) ==> Aligned(r)
  {
    if c in p.wps then p else Append(p, id, c)
  }

  /** setCoordinate on entry i of wps, of wpIcons and of the path. */
  function SetAt(p: ProxyState, i: nat, c: Coord): (r: ProxyState)
    requires Aligned(p) && i < |p.icons|
    ensures Aligned(r) && Count(r) == Count(p)
    ensures r.wps[i] == c && r.icons[i] == Icon(p.icons[i].name, c)
    ensures forall j :: 0 <= j < Count(p) && j != i ==> r.wps[j] == p.wps[j] && r.icons[j] == p.icons[j]
  {
    ProxyState(p.icons[i := p.icons[i].(coord := c)], p.wps[i := c], p.path[i := c])
  }

  /**
   * updateWaypoint for the active vehicle: ignore an unknown waypoint, create
   * a proxy for an index past the icons, leave an existing proxy alone while a
   * drag is in progress, and otherwise move it.
   */
  function Update(p: ProxyState, l: Lookup, drag: bool): (r: ProxyState)
    requires Aligned(p)
    ensures Aligned(r)
  {
    if l.index == -1 then p
    else if l.index >= |p.icons| then Create(p, l.index, l.coord)
    else if drag then p
    else SetAt(p, l.index, l.coord)
  }

  /** The replay loop of updateWaypointList: Update for each looked-up waypoint, in list order. */
  function Replay(p: ProxyState, ls: seq<Lookup>, drag: bool): (r: ProxyState)
    requires Aligned(p)
    ensures Aligned(r)
    decreases |ls|
  {
    if ls == [] then p
    else Update(Replay(p, ls[..|ls| - 1], drag), ls[|ls| - 1], drag)
  }

  /** Replaying one more lookup is one more Update. */
  lemma ReplayStep(p: ProxyState, ls: seq<Lookup>, i: nat, drag: bool)
    requires Aligned(p) && i < |ls|
    ensures Replay(p, ls[..i + 1], drag) == Update(Replay(p, ls[..i], drag), ls[i], drag)
  {
    assert ls[..i + 1][..i] == ls[..i];
  }

  /** k calls of removeLast on each of the three collections. */
  function DropLast(p: ProxyState, k: nat): (r: ProxyState)
    requires Aligned(p) && k <= |p.wps|
    ensures Aligned(r) && Count(r) == Count(p) - k
    ensures r.wps == p.wps[..Count(r)] && r.icons == p.icons[..Count(r)]
  {
    ProxyState(p.icons[..|p.icons| - k], p.wps[..|p.wps| - k], p.path[..|p.path| - k])
  }

  /**
   * The truncation step of updateWaypointList: when the path has more
   * vertices than the list has waypoints, remove the surplus from the tail.
   */
  function Truncated(p: ProxyState, n: nat): (r: ProxyState)
    requires Aligned(p)
    ensures Aligned(r)
    ensures Count(r) == if Count(p) > n then n else Count(p)
    ensures r.wps == p.wps[..Count(r)] && r.icons == p.icons[..Count(r)]
  {
    if |p.path| > n then DropLast(p, |p.path| - n) else p
  }

  /**
   * captureGeometryDrag on the proxies: the dragged icon (at position `pos`)
   * and path vertex `index` move; wps[index] moves with it, being the same
   * Point object.
   */
  function MoveDragged(p: ProxyState, pos: nat, index: nat, c: Coord): (r: ProxyState)
    requires Aligned(p) && pos < |p.icons| && index < |p.wps|
    ensures Aligned(r)
  {
    ProxyState(p.icons[pos := p.icons[pos].(coord := c)], p.wps[index := c], p.path[index := c])
  }

  /** getIndexOf on a list whose waypoint at position i is the i-th of `cs`. */
  function Indexed(cs: seq<Coord>): (ls: seq<Lookup>)
    ensures |ls| == |cs|
    ensures forall i :: 0 <= i < |cs| ==> ls[i] == Lookup(i, cs[i])
  {
    seq(|cs|, i requires 0 <= i < |cs| => Lookup(i, cs[i]))
  }

  // ---------------------------------------------------------------------
  // Properties

  /**
   * createWaypointGraphAtMap appends exactly one entry to each collection, at
   * the end whatever the id, iff no point has exactly the coordinate;
   * otherwise nothing changes.
   */
  lemma CreateAppendsIffNew(p: ProxyState, id: nat, c: Coord)
    requires Aligned(p)
    ensures var r := Create(p, id, c);
      && (Count(r) == Count(p) + 1 <==> c !in p.wps)
      && (c in p.wps ==> r == p)
      && (c !in p.wps ==>
            && r.wps[..Count(p)] == p.wps && r.icons[..Count(p)] == p.icons
            && r.wps[Count(p)] == c && r.icons[Count(p)] == Icon(id, c))
  {
  }

  /**
   * A change to a waypoint that already has a proxy touches entry `index`
   * only, and only when no drag is in progress.
   */
  lemma UpdateTouchesOnlyItsIndex(p: ProxyState, l: Lookup, drag: bool)
    requires Aligned(p) && 0 <= l.index < Count(p)
    ensures var r := Update(p, l, drag);
      && Count(r) == Count(p)
      && (drag ==> r == p)
      && (!drag ==> r.wps[l.index] == l.coord && r.icons[l.index].coord == l.coord
                    && r.icons[l.index].name == p.icons[l.index].name)
      && (forall j :: 0 <= j < Count(p) && j != l.index ==>
            r.wps[j] == p.wps[j] && r.icons[j] == p.icons[j])
  {
  }

  /** After the truncation step the path is never longer than the waypoint list. */
  lemma ListReplayBoundsPath(p: ProxyState, ls: seq<Lookup>, drag: bool)
    requires Aligned(p)
    ensures |Truncated(Replay(p, ls, drag), |ls|).path| <= |ls|
  {
  }

  /**
   * Replaying the first k waypoints of a list with pairwise distinct
   * coordinates, with no drag in progress, puts waypoint i's coordinate in
   * proxy i for every i < k, whatever proxies there were before.
   */
  lemma {:induction false} ReplayDistinctPrefix(p: ProxyState, cs: seq<Coord>, k: nat)
    requires Aligned(p) && Distinct(cs) && k <= |cs|
    ensures var r := Replay(p, Indexed(cs)[..k], false);
      && Count(r) == (if Count(p) > k then Count(p) else k)
      && r.wps[..k] == cs[..k]
      && forall i :: 0 <= i < k ==> r.icons[i].coord == cs[i]
  {
    if k > 0 {
      var ls := Indexed(cs)[..k];
      assert ls[..k - 1] == Indexed(cs)[..k - 1];
      ReplayDistinctPrefix(p, cs, k - 1);
      DistinctStep(Replay(p, ls[..k - 1], false), Count(p), cs, k - 1);
    }
  }

  /** One step of ReplayDistinctPrefix: waypoint k lands in proxy k. */
  lemma DistinctStep(q: ProxyState, n: nat, cs: seq<Coord>, k: nat)
    requires Aligned(q) && Distinct(cs) && k < |cs|
    requires Count(q) == (if n > k then n else k)
    requires q.wps[..k] == cs[..k]
    requires forall i :: 0 <= i < k ==> q.icons[i].coord == cs[i]
    ensures var r := Update(q, Lookup(k, cs[k]), false);
      && Count(r) == (if n > k + 1 then n else k + 1)
      && r.wps[..k + 1] == cs[..k + 1]
      && forall i :: 0 <= i < k + 1 ==> r.icons[i].coord == cs[i]
  {
    if k >= |q.icons| {
      assert q.wps == cs[..k];
      assert cs[k] !in q.wps by {
        forall j | 0 <= j < |q.wps| ensures q.wps[j] != cs[k] {
          assert q.wps[j] == cs[j];
        }
      }
      assert q.wps + [cs[k]] == cs[..k + 1];
    } else {
      var r := SetAt(q, k, cs[k]);
      assert r.wps[..k + 1] == cs[..k + 1] by {
        forall j | 0 <= j < k + 1 ensures r.wps[j] == cs[j] {
          if j < k { assert q.wps[..k][j] == cs[..k][j]; }
        }
      }
    }
  }

  /**
   * A full list replay followed by truncation, on a list with pairwise
   * distinct coordinates and no drag in progress, leaves exactly one proxy
   * per waypoint, proxy i holding waypoint i's coordinate.
   */
  lemma ListReplayMirrorsDistinctList(p: ProxyState, cs: seq<Coord>)
    requires Aligned(p) && Distinct(cs)
    ensures Mirrors(Truncated(Replay(p, Indexed(cs), false), |cs|), cs)
  {
    ReplayDistinctPrefix(p, cs, |cs|);
    assert Indexed(cs)[..|cs|] == Indexed(cs);
  }

  /**
   * Without distinct coordinates the reload does not mirror the list: two
   * waypoints at the same coordinate (as a create-path click can add, having
   * no duplicate check) get a single proxy, because the second one's
   * creation finds the coordinate taken.
   */
  lemma DuplicateCoordinatesShareAProxy(c: Coord)
    ensures var r := Truncated(Replay(Empty, [Lookup(0, c), Lookup(1, c)], false), 2);
      Count(r) == 1 && r.wps == [c]
  {
    var ls := [Lookup(0, c), Lookup(1, c)];
    var first := Update(Empty, ls[0], false);
    assert first.wps == [c];
    assert ls[..1][..0] == [];
    assert Replay(Empty, ls[..1], false) == first;
    assert ls[..2] == ls;
    assert Replay(Empty, ls, false) == Update(first, ls[1], false) == first;
  }

  /**
   * A drag moves the dragged icon and the point at the parsed index, and no
   * other icon or point.
   */
  lemma DragMovesOnlyItsEntries(p: ProxyState, pos: nat, index: nat, c: Coord)
    requires Aligned(p) && pos < |p.icons| && index < |p.wps|
    ensures var r := MoveDragged(p, pos, index, c);
      && Count(r) == Count(p)
      && r.icons[pos].coord == c && r.icons[pos].name == p.icons[pos].name
      && r.path[index] == c && r.wps[index] == c
      && (forall j :: 0 <= j < Count(p) && j != pos ==> r.icons[j] == p.icons[j])
      && (forall j :: 0 <= j < Count(p) && j != index ==> r.wps[j] == p.wps[j])
  {
  }
}
