/**
 * Units: one record type for every kind of unit, with the role flags of the
 * source, the damage rule and the fixed stat table of the factories.
 *
 * Units are values. A unit object of the source, which several places may
 * refer to at once (a tile, a battle, a move order), is an entry of the
 * unit store kept by the map (HexGrid.HexMap.units) under a `UnitId`;
 * `take_damage` changing the object in place is that entry being replaced
 * by `TakeDamage`'s result.
 */
module Units {
  import opened Hex

  /** Identity of a unit object: the key of the unit store. */
  type UnitId = nat

  /** Every unit object of a game, by identity. */
  type UnitStore = map<UnitId, Unit>

  /** The `name` of a unit. `Wall` is the name the placement rule exempts beside `Soldier`. */
  datatype UnitName = Soldier | Pinpoint | Setpoint | Medical | Maintenance | Wall

  /**
   * The unit record. `isWall` and `hasFought` are read in the source with
   * `getattr(..., False)`; they are fields here, false unless set.
   * Health is a real because combat damage is fractional.
   */
  datatype Unit = Unit(
    name: UnitName,
    movable: bool,
    health: real,
    attack: int,
    owner: Side,
    isPinpoint: bool,
    isSetpoint: bool,
    isMedical: bool,
    isMaintenance: bool,
    isWall: bool,
    hasFought: bool)
  {
    /** `take_damage`: health drops by `amount` and is clamped at zero; nothing else changes. */
    function TakeDamage(amount: real): (u: Unit)
      ensures u.health >= 0.0
      ensures u.health == health - amount || (u.health == 0.0 && health - amount < 0.0)
      ensures amount >= 0.0 && health >= 0.0 ==> u.health <= health
      ensures u == this.(health := u.health)
    {
      this.(health := if health - amount < 0.0 then 0.0 else health - amount)
    }

    predicate IsAlive() {
      health > 0.0
    }

    /** How many of the four role flags are set. */
    function RoleCount(): nat {
      (if isPinpoint then 1 else 0) + (if isSetpoint then 1 else 0)
      + (if isMedical then 1 else 0) + (if isMaintenance then 1 else 0)
    }
  }

  /** A plain record with the dataclass defaults for the flags. */
  function NewUnit(name: UnitName, movable: bool, health: real, attack: int, owner: Side): Unit {
    Unit(name, movable, health, attack, owner, false, false, false, false, false, false)
  }

  function CreatePinpoint(owner: Side): Unit {
    NewUnit(Pinpoint, false, 100.0, 0, owner).(isPinpoint := true)
  }

  function CreateSetpoint(owner: Side): Unit {
    NewUnit(Setpoint, false, 60.0, 5, owner).(isSetpoint := true)
  }

  function CreateSoldier(owner: Side): Unit {
    NewUnit(Soldier, true, 20.0, 2, owner)
  }

  function CreateMedical(owner: Side): Unit {
    NewUnit(Medical, false, 40.0, 0, owner).(isMedical := true)
  }

  function CreateMaintenance(owner: Side): Unit {
    NewUnit(Maintenance, false, 80.0, 0, owner).(isMaintenance := true)
  }

  /** The factory stat table: health, attack and movability of each kind. */
  lemma FactoryStats(owner: Side)
    ensures var u := CreateSoldier(owner); u.health == 20.0 && u.attack == 2 && u.movable
    ensures var u := CreatePinpoint(owner); u.health == 100.0 && u.attack == 0 && !u.movable
    ensures var u := CreateSetpoint(owner); u.health == 60.0 && u.attack == 5 && !u.movable
    ensures var u := CreateMedical(owner); u.health == 40.0 && u.attack == 0 && !u.movable
    ensures var u := CreateMaintenance(owner); u.health == 80.0 && u.attack == 0 && !u.movable
  {
  }

  /**
   * Each factory sets exactly the role flag of its kind and the Soldier sets
   * none; every factory leaves `hasFought` and `isWall` false and gives the
   * unit to `owner`.
   */
  lemma FactoryRoles(owner: Side)
    ensures CreateSoldier(owner).RoleCount() == 0
    ensures CreatePinpoint(owner).RoleCount() == 1 && CreatePinpoint(owner).isPinpoint
    ensures CreateSetpoint(owner).RoleCount() == 1 && CreateSetpoint(owner).isSetpoint
    ensures CreateMedical(owner).RoleCount() == 1 && CreateMedical(owner).isMedical
    ensures CreateMaintenance(owner).RoleCount() == 1 && CreateMaintenance(owner).isMaintenance
    ensures forall u :: u in {CreateSoldier(owner), CreatePinpoint(owner), CreateSetpoint(owner),
                              CreateMedical(owner), CreateMaintenance(owner)}
              ==> u.owner == owner && !u.hasFought && !u.isWall && (u.movable <==> u.name == Soldier)
  {
  }

  /** A hit kills exactly when it is at least the remaining health. */
  lemma {:induction false} LethalDamage(u: Unit, amount: real)
    requires u.health > 0.0
    ensures !u.TakeDamage(amount).IsAlive() <==> amount >= u.health
  {
  }
}
