/**
 * Tiles: the record kept for every axial coordinate of the map, with the
 * occupant and wall slots and the place/remove rules that keep at most one
 * occupant per tile.
 */
module Tiles {
  import opened Hex
  import opened Units

  datatype Terrain = Land | Gold

  /**
   * The tile record. `unit` and `wall` hold the identity of the unit in the
   * store; `wall` and `goldTimer` are read in the source through `getattr`
   * with defaults None and 0.0, which are their initial values here.
   * Cooldowns are reals: the mining loop stores 12.0 and subtracts `dt`.
   */
  datatype Tile = Tile(
    q: int,
    r: int,
    owner: Side,
    terrain: Terrain,
    unit: Option<UnitId>,
    wall: Option<UnitId>,
    blocked: bool,
    boundary: bool,
    goldCooldown: real,
    goldAmount: int,
    goldTimer: real)
  {
    /** The coordinate pair that `__hash__` hashes and `__eq__` compares. */
    function Key(): Coord {
      Coord(q, r)
    }

    /** `__eq__`: two tiles are equal when their coordinates are. */
    predicate SameTile(other: Tile) {
      q == other.q && r == other.r
    }

    predicate IsEmpty() {
      unit.None?
    }

    /** `place_unit`: fails on an occupied tile, otherwise sets the occupant. */
    function PlaceUnit(u: UnitId): (res: Result<Tile, TileError>)
      ensures res.Ok? <==> unit.None?
      ensures res.Ok? ==> res.value == this.(unit := Some(u))
      ensures res.Err? ==> res.error == NotAvailable
    {
      if !IsEmpty() then Err(NotAvailable) else Ok(this.(unit := Some(u)))
    }

    /** `remove_unit`: fails on an empty tile, otherwise empties it and returns the occupant. */
    function RemoveUnit(): (res: Result<(Tile, UnitId), TileError>)
      ensures res.Ok? <==> unit.Some?
      ensures res.Ok? ==> res.value.1 == unit.value && res.value.0 == this.(unit := None)
      ensures res.Err? ==> res.error == NoUnitToRemove
    {
      if unit.None? then Err(NoUnitToRemove) else Ok((this.(unit := None), unit.value))
    }
  }

  datatype TileError = NotAvailable | NoUnitToRemove

  /**
   * The unit record a slot refers to. A slot naming an identity the store
   * does not know reads as empty; the maps built by this model never hold one.
   */
  function Resolve(slot: Option<UnitId>, units: UnitStore): (u: Option<Unit>)
    ensures u.Some? <==> slot.Some? && slot.value in units
  {
    if slot.Some? && slot.value in units then Some(units[slot.value]) else None
  }

  /** `tile.unit and tile.unit.name == "Soldier"` */
  predicate SoldierOn(t: Tile, units: UnitStore) {
    var u := Resolve(t.unit, units); u.Some? && u.value.name == Soldier
  }

  /** A freshly generated tile: land, empty, no cooldown, with the given owner. */
  function NewTile(c: Coord, owner: Side): Tile {
    Tile(c.q, c.r, owner, Land, None, None, false, false, 0.0, 0, 0.0)
  }

  /** Placing on an empty tile and removing again gives back the unit and the original tile. */
  lemma PlaceRemoveRoundTrip(t: Tile, u: UnitId)
    requires t.IsEmpty()
    ensures t.PlaceUnit(u).Ok?
    ensures t.PlaceUnit(u).value.RemoveUnit() == Ok((t, u))
  {
  }

  /** Placing on an occupied tile fails and keeps the occupant; placing twice always fails. */
  lemma PlaceTwiceFails(t: Tile, u: UnitId, v: UnitId)
    requires t.PlaceUnit(u).Ok?
    ensures t.PlaceUnit(u).value.PlaceUnit(v) == Err(NotAvailable)
    ensures t.PlaceUnit(u).value.unit == Some(u)
  {
  }

  /** Equality depends only on the coordinates: changing any other field keeps a tile equal to itself. */
  lemma EqualityIgnoresState(a: Tile)
    ensures forall o, u, w, bd ::
              a.SameTile(a.(owner := o, unit := u, wall := w, boundary := bd, goldTimer := 0.0, goldCooldown := 0.0))
  {
  }
}
