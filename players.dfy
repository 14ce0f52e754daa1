/**
 * Players: a side's money and the inventory of every unit it has bought,
 * with the purchase rule (costs, the Setpoint and Medical caps, and the
 * order in which the checks are made).
 */
module Players {
  import opened Hex
  import opened Units

  datatype PurchaseError = NotEnoughMoney | MaxSetpoints | MedicalExists | InvalidUnitType

  const StartingMoney: int := 5000
  const MaxSetpointCount: nat := 3

  /** The price of a unit type; `none` for a type the shop does not sell. */
  function Cost(unitType: string): Option<int> {
    if unitType == "soldier" then Some(100)
    else if unitType == "setpoint" then Some(500)
    else if unitType == "medical" then Some(1000)
    else None
  }

  /** `sum(1 for u in inventory if u.is_setpoint)`. */
  function SetpointCount(inventory: seq<Unit>): nat {
    if inventory == [] then 0
    else (if inventory[0].isSetpoint then 1 else 0) + SetpointCount(inventory[1..])
  }

  /** `any(u.is_medical for u in inventory)`. */
  predicate HasMedical(inventory: seq<Unit>) {
    exists i :: 0 <= i < |inventory| && inventory[i].isMedical
  }

  /** Number of medical units in an inventory. */
  function MedicalCount(inventory: seq<Unit>): nat {
    if inventory == [] then 0
    else (if inventory[0].isMedical then 1 else 0) + MedicalCount(inventory[1..])
  }

  /**
   * What `purchase_unit` does for a player named `name` holding `money` and
   * `inventory`: the unit bought, or the error raised. The funds check comes
   * first, then the cap of the type.
   */
  function PurchaseOutcome(name: Side, money: int, inventory: seq<Unit>, unitType: string)
    : (r: Result<Unit, PurchaseError>)
    ensures r.Ok? ==> Cost(unitType).Some? && money >= Cost(unitType).value
    ensures r.Ok? ==> r.value.owner == name && r.value.health > 0.0 && !r.value.hasFought
    ensures r.Ok? && r.value.isSetpoint ==> SetpointCount(inventory) < MaxSetpointCount
    ensures r.Ok? && r.value.isMedical ==> !HasMedical(inventory)
    ensures Cost(unitType).None? <==> r == Err(InvalidUnitType)
    ensures Cost(unitType).Some? ==>
              (r.Ok? <==> && money >= Cost(unitType).value
                          && (unitType == "setpoint" ==> SetpointCount(inventory) < MaxSetpointCount)
                          && (unitType == "medical" ==> !HasMedical(inventory)))
    ensures r.Ok? && unitType == "soldier" ==> r.value == CreateSoldier(name)
    ensures r.Ok? && unitType == "setpoint" ==> r.value == CreateSetpoint(name)
    ensures r.Ok? && unitType == "medical" ==> r.value == CreateMedical(name)
  {
    if unitType == "soldier" then
      if money < 100 then Err(NotEnoughMoney) else Ok(CreateSoldier(name))
    else if unitType == "setpoint" then
      if money < 500 then Err(NotEnoughMoney)
      else if SetpointCount(inventory) >= MaxSetpointCount then Err(MaxSetpoints)
      else Ok(CreateSetpoint(name))
    else if unitType == "medical" then
      if money < 1000 then Err(NotEnoughMoney)
      else if HasMedical(inventory) then Err(MedicalExists)
      else Ok(CreateMedical(name))
    else Err(InvalidUnitType)
  }

  class Player {
    const name: Side
    var money: int
    /** Every unit bought so far; a placed or recalled unit stays listed. */
    var inventory: seq<Unit>

    /** A new player has 5000 and owns nothing. */
    constructor (name: Side)
      ensures this.name == name && money == StartingMoney && inventory == []
    {
      this.name := name;
      money := StartingMoney;
      inventory := [];
    }

    /**
     * `purchase_unit`: on success money drops by the cost and the new unit is
     * appended; on any error (the source raises) nothing changes.
     */
    method PurchaseUnit(unitType: string) returns (r: Result<Unit, PurchaseError>)
      modifies this
      ensures r == PurchaseOutcome(name, old(money), old(inventory), unitType)
      ensures r.Ok? ==> money == old(money) - Cost(unitType).value && inventory == old(inventory) + [r.value]
      ensures r.Err? ==> money == old(money) && inventory == old(inventory)
    {
      r := PurchaseOutcome(name, money, inventory, unitType);
      if r.Ok? {
        money := money - Cost(unitType).value;
        inventory := inventory + [r.value];
      }
    }
  }

  /** The new state of a player after a purchase attempt. */
  function AfterPurchase(name: Side, money: int, inventory: seq<Unit>, unitType: string): (int, seq<Unit>) {
    var r := PurchaseOutcome(name, money, inventory, unitType);
    if r.Ok? then (money - Cost(unitType).value, inventory + [r.value]) else (money, inventory)
  }

  lemma {:induction false} SetpointCountAppend(inventory: seq<Unit>, u: Unit)
    ensures SetpointCount(inventory + [u]) == SetpointCount(inventory) + (if u.isSetpoint then 1 else 0)
  {
    if inventory != [] {
      assert (inventory + [u])[1..] == inventory[1..] + [u];
      SetpointCountAppend(inventory[1..], u);
    }
  }

  lemma {:induction false} MedicalCountAppend(inventory: seq<Unit>, u: Unit)
    ensures MedicalCount(inventory + [u]) == MedicalCount(inventory) + (if u.isMedical then 1 else 0)
  {
    if inventory != [] {
      assert (inventory + [u])[1..] == inventory[1..] + [u];
      MedicalCountAppend(inventory[1..], u);
    }
  }

  lemma {:induction false} MedicalCountZero(inventory: seq<Unit>)
    ensures MedicalCount(inventory) == 0 <==> !HasMedical(inventory)
  {
    if inventory != [] {
      MedicalCountZero(inventory[1..]);
      if inventory[0].isMedical {
      } else {
        assert HasMedical(inventory) ==> HasMedical(inventory[1..]) by {
          if HasMedical(inventory) {
            var i :| 0 <= i < |inventory| && inventory[i].isMedical;
            assert inventory[1..][i - 1].isMedical;
          }
        }
        assert HasMedical(inventory[1..]) ==> HasMedical(inventory) by {
          if HasMedical(inventory[1..]) {
            var i :| 0 <= i < |inventory[1..]| && inventory[1..][i].isMedical;
            assert inventory[i + 1].isMedical;
          }
        }
      }
    }
  }

  /**
   * The caps hold forever: an inventory never gets a fourth Setpoint or a
   * second Medical, and money never goes negative through a purchase.
   */
  lemma PurchaseKeepsCaps(name: Side, money: int, inventory: seq<Unit>, unitType: string)
    requires money >= 0 && SetpointCount(inventory) <= MaxSetpointCount && MedicalCount(inventory) <= 1
    ensures var (m, inv) := AfterPurchase(name, money, inventory, unitType);
            m >= 0 && SetpointCount(inv) <= MaxSetpointCount && MedicalCount(inv) <= 1
  {
    var r := PurchaseOutcome(name, money, inventory, unitType);
    if r.Ok? {
      SetpointCountAppend(inventory, r.value);
      MedicalCountAppend(inventory, r.value);
      MedicalCountZero(inventory);
    }
  }

  /** A known type that the player cannot afford is refused for money, whatever the caps say. */
  lemma FundsCheckedFirst(name: Side, money: int, inventory: seq<Unit>, unitType: string)
    requires Cost(unitType).Some? && money < Cost(unitType).value
    ensures PurchaseOutcome(name, money, inventory, unitType) == Err(NotEnoughMoney)
  {
  }

  /** With enough money a soldier purchase always succeeds and yields a fresh Soldier. */
  lemma SoldierAlwaysAvailable(name: Side, money: int, inventory: seq<Unit>)
    requires money >= 100
    ensures PurchaseOutcome(name, money, inventory, "soldier") == Ok(CreateSoldier(name))
    ensures AfterPurchase(name, money, inventory, "soldier") == (money - 100, inventory + [CreateSoldier(name)])
  {
  }

  /** With 500 or more and fewer than three Setpoints, a Setpoint purchase succeeds, costs 500 and appends a fresh Setpoint. */
  lemma SetpointAvailable(name: Side, money: int, inventory: seq<Unit>)
    requires money >= 500 && SetpointCount(inventory) < MaxSetpointCount
    ensures PurchaseOutcome(name, money, inventory, "setpoint") == Ok(CreateSetpoint(name))
    ensures AfterPurchase(name, money, inventory, "setpoint") == (money - 500, inventory + [CreateSetpoint(name)])
  {
  }

  /** With 1000 or more and no Medical held, a Medical purchase succeeds, costs 1000 and appends a fresh Medical. */
  lemma MedicalAvailable(name: Side, money: int, inventory: seq<Unit>)
    requires money >= 1000 && !HasMedical(inventory)
    ensures PurchaseOutcome(name, money, inventory, "medical") == Ok(CreateMedical(name))
    ensures AfterPurchase(name, money, inventory, "medical") == (money - 1000, inventory + [CreateMedical(name)])
  {
  }

  /** With a Medical already bought, a second is refused once the price is affordable. */
  lemma SecondMedicalRefused(name: Side, money: int, inventory: seq<Unit>)
    requires money >= 1000 && HasMedical(inventory)
    ensures PurchaseOutcome(name, money, inventory, "medical") == Err(MedicalExists)
    ensures AfterPurchase(name, money, inventory, "medical") == (money, inventory)
  {
  }

  /** With three Setpoints already bought, a fourth is refused once the price is affordable. */
  lemma FourthSetpointRefused(name: Side, money: int, inventory: seq<Unit>)
    requires money >= 500 && SetpointCount(inventory) >= MaxSetpointCount
    ensures PurchaseOutcome(name, money, inventory, "setpoint") == Err(MaxSetpoints)
    ensures AfterPurchase(name, money, inventory, "setpoint") == (money, inventory)
  {
  }
}
