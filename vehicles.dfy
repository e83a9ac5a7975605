/**
 * The vehicle side that the widget reads and writes: a vehicle (a UAS with
 * its waypoint manager) owns an ordered list of waypoint objects. Waypoints
 * are objects because the widget finds them by identity (getIndexOf) and
 * moves them in place (setX/setY).
 */
module Vehicles {
  import opened Coordinates
  import opened WaypointProxies

  class Waypoint {
    var id: nat
    var x: real
    var y: real
    var z: real
    var yaw: real
    var autoContinue: bool

    constructor (id: nat, x: real, y: real, z: real, yaw: real, autoContinue: bool)
      ensures this.id == id && this.x == x && this.y == y && this.z == z
      ensures this.yaw == yaw && this.autoContinue == autoContinue
    {
      this.id, this.x, this.y, this.z := id, x, y, z;
      this.yaw, this.autoContinue := yaw, autoContinue;
    }

    /** The waypoint's map coordinate, (getX(), getY()). */
    function Coordinate(): Coord
      reads this
    {
      Coord(x, y)
    }
  }

  class Vehicle {
    const id: int
    var waypoints: seq<Waypoint>

    constructor (id: int)
      ensures this.id == id && waypoints == []
    {
      this.id := id;
      waypoints := [];
    }

    /** The waypoint manager's addWaypoint: the waypoint goes at the end of the list. */
    method AddWaypoint(w: Waypoint)
      modifies this
      ensures waypoints == old(waypoints) + [w]
    {
      waypoints := waypoints + [w];
    }
  }

  /** getIndexOf: the position of the first occurrence of `w` in `s`, or -1. */
  function IndexOf(s: seq<Waypoint>, w: Waypoint): (r: FoundIndex)
    ensures r < |s|
    ensures r == -1 <==> w !in s
    ensures r >= 0 ==> s[r] == w && w !in s[..r]
  {
    if s == [] then -1
    else if s[0] == w then 0
    else
      var k := IndexOf(s[1..], w);
      assert s[1..][..if k < 0 then 0 else k] == s[1..if k < 0 then 1 else k + 1];
      if k == -1 then -1 else k + 1
  }

  /** The coordinates of a waypoint list, in order. */
  function Coords(ws: seq<Waypoint>): (cs: seq<Coord>)
    reads set w | w in ws
    ensures |cs| == |ws|
    ensures forall i :: 0 <= i < |ws| ==> cs[i] == ws[i].Coordinate()
  {
    if ws == [] then [] else [ws[0].Coordinate()] + Coords(ws[1..])
  }

  /**
   * What updateWaypoint sees for each waypoint of `ws` when it looks the
   * waypoint up in the active vehicle's list `target`.
   */
  function Lookups(target: seq<Waypoint>, ws: seq<Waypoint>): (ls: seq<Lookup>)
    reads set w | w in ws
    ensures |ls| == |ws|
    ensures forall i :: 0 <= i < |ws| ==> ls[i] == Lookup(IndexOf(target, ws[i]), ws[i].Coordinate())
  {
    if ws == [] then [] else [Lookup(IndexOf(target, ws[0]), ws[0].Coordinate())] + Lookups(target, ws[1..])
  }

  /**
   * In a list whose coordinates are pairwise distinct, each waypoint is found
   * at its own position, so looking the list up in itself yields Indexed.
   */
  lemma LookupsOfDistinctList(ws: seq<Waypoint>)
    requires Distinct(Coords(ws))
    ensures Lookups(ws, ws) == Indexed(Coords(ws))
  {
    var cs := Coords(ws);
    forall i | 0 <= i < |ws| ensures IndexOf(ws, ws[i]) == i {
      var r := IndexOf(ws, ws[i]);
      assert cs[r] == cs[i];
    }
  }

  /**
   * Loading a list with pairwise distinct coordinates that is the active
   * vehicle's own list, with no drag in progress, leaves exactly one proxy per
   * waypoint, proxy i showing waypoint i, whatever proxies there were before.
   */
  lemma DistinctListLoadsMirror(p: ProxyState, list: seq<Waypoint>)
    requires Aligned(p) && Distinct(Coords(list))
    ensures Mirrors(Truncated(Replay(p, Lookups(list, list), false), |list|), Coords(list))
  {
    LookupsOfDistinctList(list);
    ListReplayMirrorsDistinctList(p, Coords(list));
  }
}
