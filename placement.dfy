/**
 * The placement rules of client.py and of visual_main.py: where a unit
 * taken from a side's reserve may be put down. `find_pinpoint_tile` looks
 * up a side's Pinpoint in dictionary order; `can_place_unit_on_tile`
 * checks the tile and answers with the first rule that refuses it.
 */
module Placement {
  import opened Hex
  import opened Units
  import opened Tiles
  import opened HexGrid

  /** Why a placement is refused: one value per message of the source. */
  datatype PlaceError =
    | NotOwnTerritory      // the tile belongs to the other side
    | Occupied             // the tile already holds a unit
    | WallPresent          // a wall is to go where a wall stands
    | UnitUnderWall        // a wall is to go where a unit stands
    | NextToPinpoint       // the tile touches a Pinpoint
    | NoPinpoint           // a Setpoint needs its side's Pinpoint, and there is none
    | TooFarFromPinpoint   // a Setpoint more than four steps from the Pinpoint
    | MedicalExists        // the side already has a Medical unit on the map

  /** The answer of `can_place_unit_on_tile`: allowed, or the first rule that refuses. */
  datatype Verdict = Allowed | Refused(reason: PlaceError)

  /** How far from its side's Pinpoint a Setpoint may stand. */
  const SetpointRange: nat := 4

  /** `t.unit and t.unit.is_pinpoint and t.unit.owner == side` */
  predicate PinpointOf(tiles: TileMap, units: UnitStore, c: Coord, side: Side)
    requires c in tiles
  {
    var u := Resolve(tiles[c].unit, units);
    u.Some? && u.value.isPinpoint && u.value.owner == side
  }

  /** `t.unit and t.unit.is_medical and t.unit.owner == side` */
  predicate MedicalOf(tiles: TileMap, units: UnitStore, c: Coord, side: Side)
    requires c in tiles
  {
    var u := Resolve(tiles[c].unit, units);
    u.Some? && u.value.isMedical && u.value.owner == side
  }

  /** `nb.unit and nb.unit.is_pinpoint`, of either side. */
  predicate AnyPinpoint(tiles: TileMap, units: UnitStore, c: Coord)
    requires c in tiles
  {
    var u := Resolve(tiles[c].unit, units);
    u.Some? && u.value.isPinpoint
  }

  /** Some neighbour of `c` holds a Pinpoint, whichever side owns it. */
  predicate NearPinpoint(tiles: TileMap, units: UnitStore, c: Coord) {
    exists n :: n in NeighborsOf(tiles.Keys, c) && AnyPinpoint(tiles, units, n)
  }

  /** Every coordinate of `ord` is a tile. */
  predicate AllTiles(tiles: TileMap, ord: seq<Coord>) {
    forall i :: 0 <= i < |ord| ==> ord[i] in tiles
  }

  /**
   * The tile `find_pinpoint_tile` returns: the first one in `ord` holding
   * `side`'s Pinpoint, if any does.
   */
  function FirstPinpoint(tiles: TileMap, units: UnitStore, ord: seq<Coord>, side: Side): (r: Option<Coord>)
    requires AllTiles(tiles, ord)
    ensures r.Some? ==> exists i :: 0 <= i < |ord| && ord[i] == r.value
                          && PinpointOf(tiles, units, ord[i], side)
                          && forall j :: 0 <= j < i ==> !PinpointOf(tiles, units, ord[j], side)
    ensures r.None? <==> forall i :: 0 <= i < |ord| ==> !PinpointOf(tiles, units, ord[i], side)
  {
    if ord == [] then None
    else if PinpointOf(tiles, units, ord[0], side) then Some(ord[0])
    else
      var r := FirstPinpoint(tiles, units, ord[1..], side);
      assert forall i :: 0 < i < |ord| ==> ord[i] == ord[1..][i - 1];
      r
  }

  /** `find_pinpoint_tile`: the search loop over the tiles in dictionary order. */
  method FindPinpointTile(tiles: TileMap, units: UnitStore, ord: seq<Coord>, side: Side) returns (r: Option<Coord>)
    requires AllTiles(tiles, ord)
    ensures r == FirstPinpoint(tiles, units, ord, side)
  {
    var i := 0;
    while i < |ord|
      invariant 0 <= i <= |ord|
      invariant FirstPinpoint(tiles, units, ord[i..], side) == FirstPinpoint(tiles, units, ord, side)
    {
      if PinpointOf(tiles, units, ord[i], side) {
        return Some(ord[i]);
      }
      assert ord[i..][1..] == ord[i + 1..];
      i := i + 1;
    }
    return None;
  }

  /** The neighbour loop of `can_place_unit_on_tile`: is some neighbour a Pinpoint? */
  method PinpointNearby(tiles: TileMap, units: UnitStore, c: Coord) returns (near: bool)
    ensures near == NearPinpoint(tiles, units, c)
  {
    var nbs := NeighborsOf(tiles.Keys, c);
    var i := 0;
    while i < |nbs|
      invariant 0 <= i <= |nbs|
      invariant forall j :: 0 <= j < i ==> !AnyPinpoint(tiles, units, nbs[j])
    {
      if AnyPinpoint(tiles, units, nbs[i]) {
        return true;
      }
      i := i + 1;
    }
    near := false;
  }

  /** The loop of visual_main.py over every tile: does `side` already have a Medical unit down? */
  method MedicalOnMap(tiles: TileMap, units: UnitStore, ord: seq<Coord>, side: Side) returns (found: bool)
    requires AllTiles(tiles, ord)
    ensures found <==> exists i :: 0 <= i < |ord| && MedicalOf(tiles, units, ord[i], side)
  {
    var i := 0;
    while i < |ord|
      invariant 0 <= i <= |ord|
      invariant forall j :: 0 <= j < i ==> !MedicalOf(tiles, units, ord[j], side)
    {
      if MedicalOf(tiles, units, ord[i], side) {
        return true;
      }
      i := i + 1;
    }
    found := false;
  }

  /** The Setpoint distance rule shared by both copies. */
  function SetpointVerdict(tiles: TileMap, units: UnitStore, ord: seq<Coord>, u: Unit, c: Coord): Verdict
    requires AllTiles(tiles, ord)
  {
    var pp := FirstPinpoint(tiles, units, ord, u.owner);
    if pp.None? then Refused(NoPinpoint)
    else if HexDistance(c, pp.value) > SetpointRange then Refused(TooFarFromPinpoint)
    else Allowed
  }

  /**
   * The verdict of client.py's `can_place_unit_on_tile` for unit `u` on tile
   * `c`: territory first, then the slot rule of the unit's kind, then the
   * Pinpoint neighbourhood (Soldiers and walls are exempt), then the
   * Setpoint distance.
   */
  function PlaceVerdict(tiles: TileMap, units: UnitStore, ord: seq<Coord>, u: Unit, c: Coord): Verdict
    requires c in tiles && AllTiles(tiles, ord)
  {
    var t := tiles[c];
    if t.owner != u.owner then Refused(NotOwnTerritory)
    else if u.name == Soldier && t.unit.Some? then Refused(Occupied)
    else if u.name != Soldier && u.isWall && t.wall.Some? then Refused(WallPresent)
    else if u.name != Soldier && u.isWall && t.unit.Some? then Refused(UnitUnderWall)
    else if u.name != Soldier && !u.isWall && t.unit.Some? then Refused(Occupied)
    else if NearPinpoint(tiles, units, c) && u.name != Soldier && u.name != Wall then Refused(NextToPinpoint)
    else if u.isSetpoint then SetpointVerdict(tiles, units, ord, u, c)
    else Allowed
  }

  /** client.py's `can_place_unit_on_tile`. */
  method CanPlace(tiles: TileMap, units: UnitStore, ord: seq<Coord>, u: Unit, c: Coord) returns (v: Verdict)
    requires c in tiles && AllTiles(tiles, ord)
    ensures v == PlaceVerdict(tiles, units, ord, u, c)
  {
    var t := tiles[c];
    if t.owner != u.owner {
      return Refused(NotOwnTerritory);
    }
    if u.name == Soldier {
      if t.unit.Some? {
        return Refused(Occupied);
      }
    } else if u.isWall {
      if t.wall.Some? {
        return Refused(WallPresent);
      }
      if t.unit.Some? {
        return Refused(UnitUnderWall);
      }
    } else if t.unit.Some? {
      return Refused(Occupied);
    }
    var near := PinpointNearby(tiles, units, c);
    if near && u.name != Soldier && u.name != Wall {
      return Refused(NextToPinpoint);
    }
    if u.isSetpoint {
      var pp := FindPinpointTile(tiles, units, ord, u.owner);
      if pp.None? {
        return Refused(NoPinpoint);
      }
      if HexDistance(c, pp.value) > SetpointRange {
        return Refused(TooFarFromPinpoint);
      }
    }
    return Allowed;
  }

  /**
   * The verdict of visual_main.py's copy: any occupant refuses first, then
   * territory, then the Pinpoint neighbourhood (only Soldiers are exempt),
   * the Setpoint distance, and one Medical unit per side.
   */
  function VisualPlaceVerdict(tiles: TileMap, units: UnitStore, ord: seq<Coord>, u: Unit, c: Coord): Verdict
    requires c in tiles && AllTiles(tiles, ord)
  {
    var t := tiles[c];
    if t.unit.Some? then Refused(Occupied)
    else if t.owner != u.owner then Refused(NotOwnTerritory)
    else if NearPinpoint(tiles, units, c) && u.name != Soldier then Refused(NextToPinpoint)
    else if u.isSetpoint && SetpointVerdict(tiles, units, ord, u, c).Refused? then SetpointVerdict(tiles, units, ord, u, c)
    else if u.isMedical && exists i :: 0 <= i < |ord| && MedicalOf(tiles, units, ord[i], u.owner) then Refused(MedicalExists)
    else Allowed
  }

  /** visual_main.py's `can_place_unit_on_tile`. */
  method CanPlaceVisual(tiles: TileMap, units: UnitStore, ord: seq<Coord>, u: Unit, c: Coord) returns (v: Verdict)
    requires c in tiles && AllTiles(tiles, ord)
    ensures v == VisualPlaceVerdict(tiles, units, ord, u, c)
  {
    var t := tiles[c];
    if t.unit.Some? {
      return Refused(Occupied);
    }
    if t.owner != u.owner {
      return Refused(NotOwnTerritory);
    }
    var near := PinpointNearby(tiles, units, c);
    if near && u.name != Soldier {
      return Refused(NextToPinpoint);
    }
    if u.isSetpoint {
      var pp := FindPinpointTile(tiles, units, ord, u.owner);
      if pp.None? {
        return Refused(NoPinpoint);
      }
      if HexDistance(c, pp.value) > SetpointRange {
        return Refused(TooFarFromPinpoint);
      }
    }
    if u.isMedical {
      var found := MedicalOnMap(tiles, units, ord, u.owner);
      if found {
        return Refused(MedicalExists);
      }
    }
    return Allowed;
  }

  /** The slot rule of client.py: Soldiers may stand on a wall, walls need an empty tile, the rest need no occupant. */
  predicate SlotAllows(t: Tile, u: Unit) {
    if u.name == Soldier then t.unit.None?
    else if u.isWall then t.wall.None? && t.unit.None?
    else t.unit.None?
  }

  /** The Setpoint rule: its side has a Pinpoint, and the first one is at most four steps away. */
  predicate SetpointInRange(tiles: TileMap, units: UnitStore, ord: seq<Coord>, u: Unit, c: Coord)
    requires AllTiles(tiles, ord)
  {
    var pp := FirstPinpoint(tiles, units, ord, u.owner);
    pp.Some? && HexDistance(c, pp.value) <= SetpointRange
  }

  /**
   * client.py allows a placement exactly when every rule holds: own
   * territory, the slot rule, no Pinpoint next door unless the unit is a
   * Soldier or a wall, and a Setpoint within range of its Pinpoint.
   */
  lemma PlaceAllowedIff(tiles: TileMap, units: UnitStore, ord: seq<Coord>, u: Unit, c: Coord)
    requires c in tiles && AllTiles(tiles, ord)
    ensures PlaceVerdict(tiles, units, ord, u, c) == Allowed <==>
              && tiles[c].owner == u.owner
              && SlotAllows(tiles[c], u)
              && (NearPinpoint(tiles, units, c) ==> u.name == Soldier || u.name == Wall)
              && (u.isSetpoint ==> SetpointInRange(tiles, units, ord, u, c))
  {
  }

  /**
   * visual_main.py allows a placement exactly when the tile is empty and
   * its own, no Pinpoint is next door unless the unit is a Soldier, a
   * Setpoint is within range, and a Medical unit is its side's first.
   */
  lemma VisualPlaceAllowedIff(tiles: TileMap, units: UnitStore, ord: seq<Coord>, u: Unit, c: Coord)
    requires c in tiles && AllTiles(tiles, ord)
    ensures VisualPlaceVerdict(tiles, units, ord, u, c) == Allowed <==>
              && tiles[c].unit.None?
              && tiles[c].owner == u.owner
              && (NearPinpoint(tiles, units, c) ==> u.name == Soldier)
              && (u.isSetpoint ==> SetpointInRange(tiles, units, ord, u, c))
              && (u.isMedical ==> forall i :: 0 <= i < |ord| ==> !MedicalOf(tiles, units, ord[i], u.owner))
  {
  }

  /**
   * Where the copies disagree: with a Medical unit of the side already on
   * the map, client.py still lets a second one onto an empty tile of its
   * own away from a Pinpoint, visual_main.py refuses it; an occupied tile of
   * the other side is refused for territory by client.py and for the
   * occupant by visual_main.py. Both let a Soldier onto an empty tile of its
   * own that holds only a wall.
   */
  lemma CopiesDiffer(tiles: TileMap, units: UnitStore, ord: seq<Coord>, u: Unit, c: Coord)
    requires c in tiles && AllTiles(tiles, ord)
    ensures u.isMedical && !u.isSetpoint && u.name == Medical && !u.isWall
            && u.owner == tiles[c].owner && tiles[c].unit.None? && !NearPinpoint(tiles, units, c)
            && (exists i :: 0 <= i < |ord| && MedicalOf(tiles, units, ord[i], u.owner))
            ==> PlaceVerdict(tiles, units, ord, u, c) == Allowed
                && VisualPlaceVerdict(tiles, units, ord, u, c) == Refused(MedicalExists)
    ensures tiles[c].owner != u.owner && tiles[c].unit.Some?
            ==> PlaceVerdict(tiles, units, ord, u, c) == Refused(NotOwnTerritory)
                && VisualPlaceVerdict(tiles, units, ord, u, c) == Refused(Occupied)
    ensures u.name == Soldier && !u.isSetpoint && !u.isMedical
            && tiles[c].owner == u.owner && tiles[c].unit.None? && tiles[c].wall.Some?
            ==> PlaceVerdict(tiles, units, ord, u, c) == Allowed
                && VisualPlaceVerdict(tiles, units, ord, u, c) == Allowed
  {
  }

  /** A Setpoint is refused on every tile when its side has no Pinpoint, in both copies. */
  lemma SetpointNeedsPinpoint(tiles: TileMap, units: UnitStore, ord: seq<Coord>, u: Unit, c: Coord)
    requires c in tiles && AllTiles(tiles, ord)
    requires u.isSetpoint && forall i :: 0 <= i < |ord| ==> !PinpointOf(tiles, units, ord[i], u.owner)
    ensures PlaceVerdict(tiles, units, ord, u, c).Refused?
    ensures VisualPlaceVerdict(tiles, units, ord, u, c).Refused?
  {
  }

  /** Whatever else holds, a tile of the other side is refused in client.py with the territory message. */
  lemma TerritoryFirst(tiles: TileMap, units: UnitStore, ord: seq<Coord>, u: Unit, c: Coord)
    requires c in tiles && AllTiles(tiles, ord) && tiles[c].owner != u.owner
    ensures PlaceVerdict(tiles, units, ord, u, c) == Refused(NotOwnTerritory)
    ensures tiles[c].unit.None? ==> VisualPlaceVerdict(tiles, units, ord, u, c) == Refused(NotOwnTerritory)
  {
  }
}
