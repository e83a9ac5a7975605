/**
 * The vehicle icon registry (uasIcons): one MAV2DIcon per vehicle id seen in
 * a position message. An icon field this file never sets stays None: its
 * value is whatever MAV2DIcon's own constructor gives it.
 */
module IconRegistry {
  import opened Wrappers
  import opened Coordinates

  datatype VehicleIcon = VehicleIcon(uasId: int, pos: Option<Coord>, yaw: Option<real>, selected: Option<bool>)

  /** The icon created on a vehicle's first position message: only its vehicle id is set. */
  function NewIcon(id: int): (icon: VehicleIcon)
    ensures icon.uasId == id && Registered(map[id := icon])
    ensures icon.pos.None? && icon.yaw.None? && icon.selected.None?
  {
    VehicleIcon(id, None, None, None)
  }

  /** Every icon is filed under the id of the vehicle it was made for. */
  predicate Registered(m: map<int, VehicleIcon>)
  {
    forall k :: k in m ==> m[k].uasId == k
  }

  /**
   * updateGlobalPosition on the registry: a first sighting inserts a new icon
   * (without moving it); a later one only moves the existing icon.
   */
  function Upsert(m: map<int, VehicleIcon>, id: int, c: Coord): (r: map<int, VehicleIcon>)
    ensures r.Keys == m.Keys + {id}
    ensures forall k :: k in m && k != id ==> r[k] == m[k]
    ensures id !in m ==> r[id] == NewIcon(id)
    ensures id in m ==> r[id] == m[id].(pos := Some(c))
    ensures Registered(m) ==> Registered(r)
  {
    if id !in m then m[id := NewIcon(id)] else m[id := m[id].(pos := Some(c))]
  }

  /** updateAttitude on the registry: turn the vehicle's icon, if there is one. */
  function WithYaw(m: map<int, VehicleIcon>, id: int, yaw: real): (r: map<int, VehicleIcon>)
    ensures id !in m ==> r == m
    ensures r.Keys == m.Keys
    ensures forall k :: k in m && k != id ==> r[k] == m[k]
    ensures id in m ==> r[id] == m[id].(yaw := Some(yaw))
    ensures Registered(m) ==> Registered(r)
  {
    if id in m then m[id := m[id].(yaw := Some(yaw))] else m
  }

  /** updateSelectedSystem on the registry: each icon is marked selected iff its vehicle id is `u`. */
  function Selected(m: map<int, VehicleIcon>, u: int): (r: map<int, VehicleIcon>)
    ensures r.Keys == m.Keys
    ensures forall k :: k in m ==> r[k] == m[k].(selected := Some(m[k].uasId == u))
    ensures Registered(m) ==> Registered(r)
  {
    map k | k in m :: m[k].(selected := Some(m[k].uasId == u))
  }

  /** After updateSelectedSystem(u), exactly the icon filed under `u` is selected. */
  lemma SelectedExactlyOne(m: map<int, VehicleIcon>, u: int)
    requires Registered(m)
    ensures forall k :: k in Selected(m, u) ==> (Selected(m, u)[k].selected == Some(true) <==> k == u)
  {
  }
}
