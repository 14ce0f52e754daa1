/**
 * The per-frame systems of the game object (game/game_logic.py): gold-mine
 * cooldowns and mining, setpoint bombardment, hospital healing and the
 * timers of shot effects. The random draws of the source (mining yields,
 * hit rolls) are parameters: `draw(c)` is the amount `randint(50, 2000)`
 * gives for the mine at `c`, `hit(c)` whether the roll of the setpoint at
 * `c` is below 0.4.
 */
module Economy {
  import opened Hex
  import opened Units
  import opened Tiles
  import opened HexGrid
  import opened Players

  const MiningTime: real := 5.0
  const MiningCooldown: real := 12.0
  const FirePeriod: real := 1.0
  const SetpointDamage: real := 5.0
  const HealPeriod: real := 3.0
  const HealCap: real := 20.0
  const ShotLife: real := 0.5

  /** A tile-level change that keeps every tile at its key keeps the map's shape. */
  predicate SameKeys(a: TileMap, b: TileMap) {
    a.Keys == b.Keys && forall c :: c in a ==> a[c].Key() == b[c].Key()
  }

  // ---------------------------------------------------------------------
  // Gold cooldowns
  // ---------------------------------------------------------------------

  /** One pass of the cooldown loop: a running cooldown drops by `dt`, clamped at zero. */
  function CooledTile(t: Tile, dt: real): Tile {
    if t.goldCooldown > 0.0 then
      t.(goldCooldown := if t.goldCooldown - dt < 0.0 then 0.0 else t.goldCooldown - dt)
    else t
  }

  function Cooled(tiles: TileMap, dt: real): (t: TileMap)
    ensures SameKeys(tiles, t)
  {
    map c | c in tiles :: CooledTile(tiles[c], dt)
  }

  /**
   * `_update_gold_cooldowns`: a running cooldown falls by `dt` and never
   * below zero, a cooldown that is not running stays as it is, and no
   * other field of any tile changes.
   */
  lemma CooledFacts(tiles: TileMap, dt: real, c: Coord)
    requires c in tiles && dt >= 0.0
    ensures var was := tiles[c].goldCooldown;
            var now := Cooled(tiles, dt)[c].goldCooldown;
            && (was > 0.0 ==> now == (if was - dt < 0.0 then 0.0 else was - dt) && 0.0 <= now <= was)
            && (was <= 0.0 ==> now == was)
            && (was >= 0.0 ==> now >= 0.0)
    ensures Cooled(tiles, dt)[c] == tiles[c].(goldCooldown := Cooled(tiles, dt)[c].goldCooldown)
  {
  }

  /** Cooldowns at most `dt` are over after one pass. */
  lemma CooldownExpires(tiles: TileMap, dt: real, c: Coord)
    requires c in tiles && 0.0 <= tiles[c].goldCooldown <= dt
    ensures Cooled(tiles, dt)[c].goldCooldown == 0.0
  {
  }

  function CooledPrefix(t0: TileMap, done: seq<Coord>, dt: real): TileMap {
    map x | x in t0 :: if x in done then CooledTile(t0[x], dt) else t0[x]
  }

  /** The loop of `_update_gold_cooldowns` over the tiles in dictionary order. */
  method CoolAll(t0: TileMap, ord: seq<Coord>, dt: real) returns (t: TileMap)
    requires OrderOk(ord, t0)
    ensures t == Cooled(t0, dt)
  {
    SortedDistinct(ord);
    t := t0;
    var i := 0;
    while i < |ord|
      invariant 0 <= i <= |ord|
      invariant t == CooledPrefix(t0, ord[..i], dt)
    {
      var c := ord[i];
      assert c !in ord[..i];
      assert ord[..i + 1] == ord[..i] + [c];
      t := t[c := CooledTile(t[c], dt)];
      i := i + 1;
    }
    assert ord[..i] == ord;
  }

  // ---------------------------------------------------------------------
  // Mining
  // ---------------------------------------------------------------------

  /** Money paid to a side by one mine. */
  datatype Payout = Payout(side: Side, amount: int)

  datatype MineStep = MineStep(tile: Tile, payout: Option<Payout>)

  /**
   * One pass of the mining loop on tile `t`, with `amount` the random yield
   * drawn if the mine pays out.
   */
  function MineTile(t: Tile, units: UnitStore, dt: real, amount: int): MineStep {
    if t.terrain == Gold && SoldierOn(t, units) then
      if t.goldCooldown <= 0.0 then
        var timer := t.goldTimer + dt;
        if timer >= MiningTime then
          MineStep(t.(goldCooldown := MiningCooldown, goldAmount := amount, goldTimer := 0.0),
                   Some(Payout(Resolve(t.unit, units).value.owner, amount)))
        else MineStep(t.(goldTimer := timer), None)
      else MineStep(t.(goldTimer := 0.0), None)
    else MineStep(t.(goldTimer := 0.0), None)
  }

  function Mined(tiles: TileMap, units: UnitStore, dt: real, draw: Coord -> int): (t: TileMap)
    ensures SameKeys(tiles, t)
  {
    map c | c in tiles :: MineTile(tiles[c], units, dt, draw(c)).tile
  }

  /** What mining tile `t` pays to `side`. */
  function Pay(t: Tile, units: UnitStore, dt: real, amount: int, side: Side): int {
    var p := MineTile(t, units, dt, amount).payout;
    if p.Some? && p.value.side == side then p.value.amount else 0
  }

  /** What the mine at `c` pays to `side`. */
  function PaidTo(tiles: TileMap, units: UnitStore, dt: real, draw: Coord -> int, c: Coord, side: Side): int {
    if c in tiles then Pay(tiles[c], units, dt, draw(c), side) else 0
  }

  /** What the mines listed in `cs` pay to `side`, summed in list order. */
  function Gain(tiles: TileMap, units: UnitStore, cs: seq<Coord>, dt: real, draw: Coord -> int, side: Side): int {
    if cs == [] then 0
    else Gain(tiles, units, cs[..|cs| - 1], dt, draw, side) + PaidTo(tiles, units, dt, draw, cs[|cs| - 1], side)
  }

  /**
   * The rules of one mine in one frame. A gold tile with a Soldier on it and
   * no running cooldown accumulates `dt`; when that reaches 5 s the
   * Soldier's side is paid the drawn amount, the cooldown becomes 12 s and
   * the timer restarts. A running cooldown, or a tile that is not gold with
   * a Soldier on it, resets the timer. Owner, unit and wall never change.
   */
  lemma MiningRules(t: Tile, units: UnitStore, dt: real, amount: int)
    ensures var s := MineTile(t, units, dt, amount);
            && s.tile.Key() == t.Key() && s.tile.owner == t.owner && s.tile.unit == t.unit && s.tile.wall == t.wall
            && s.tile.boundary == t.boundary && s.tile.terrain == t.terrain
            && (s.payout.Some? <==> t.terrain == Gold && SoldierOn(t, units) && t.goldCooldown <= 0.0
                                    && t.goldTimer + dt >= MiningTime)
            && (s.payout.Some? ==> s.payout.value == Payout(Resolve(t.unit, units).value.owner, amount)
                                   && s.tile.goldCooldown == MiningCooldown && s.tile.goldTimer == 0.0
                                   && s.tile.goldAmount == amount)
            && (s.payout.None? && t.terrain == Gold && SoldierOn(t, units) && t.goldCooldown <= 0.0
                ==> s.tile.goldTimer == t.goldTimer + dt && s.tile.goldCooldown == t.goldCooldown)
            && (!(t.terrain == Gold && SoldierOn(t, units)) || t.goldCooldown > 0.0
                ==> s.tile.goldTimer == 0.0 && s.tile.goldCooldown == t.goldCooldown && s.payout.None?)
  {
  }

  /** With yields drawn from [50, 2000], no side's gain is negative. */
  lemma {:induction false} GainNonNegative(tiles: TileMap, units: UnitStore, cs: seq<Coord>, dt: real, draw: Coord -> int, side: Side)
    requires forall c :: GoldAmountMin <= draw(c) <= GoldAmountMax
    ensures Gain(tiles, units, cs, dt, draw, side) >= 0
  {
    if cs != [] {
      GainNonNegative(tiles, units, cs[..|cs| - 1], dt, draw, side);
    }
  }

  /** A mine pays exactly one side, so a side is paid only for mines its Soldiers hold. */
  lemma PaidOnlyToOccupant(tiles: TileMap, units: UnitStore, dt: real, draw: Coord -> int, c: Coord, side: Side)
    requires PaidTo(tiles, units, dt, draw, c, side) != 0
    ensures c in tiles && SoldierOn(tiles[c], units) && Resolve(tiles[c].unit, units).value.owner == side
    ensures PaidTo(tiles, units, dt, draw, c, side.Other()) == 0
    ensures PaidTo(tiles, units, dt, draw, c, side) == draw(c)
  {
  }

  function MinedPrefix(t0: TileMap, units: UnitStore, done: seq<Coord>, dt: real, draw: Coord -> int): TileMap {
    map x | x in t0 :: if x in done then MineTile(t0[x], units, dt, draw(x)).tile else t0[x]
  }

  lemma MinedPrefixStep(t0: TileMap, units: UnitStore, ord: seq<Coord>, i: nat, dt: real, draw: Coord -> int)
    requires OrderOk(ord, t0) && NoDuplicates(ord) && i < |ord|
    ensures ord[i] in t0
    ensures MinedPrefix(t0, units, ord[..i + 1], dt, draw)
            == MinedPrefix(t0, units, ord[..i], dt, draw)[ord[i] := MineTile(t0[ord[i]], units, dt, draw(ord[i])).tile]
  {
    var c := ord[i];
    assert c !in ord[..i];
    assert ord[..i + 1] == ord[..i] + [c];
    var t := MinedPrefix(t0, units, ord[..i], dt, draw);
    var t2 := MinedPrefix(t0, units, ord[..i + 1], dt, draw);
    assert t2.Keys == t.Keys;
    forall x | x in t2 ensures t2[x] == t[c := MineTile(t0[c], units, dt, draw(c)).tile][x] {
      assert x in ord[..i + 1] <==> x in ord[..i] || x == c;
    }
  }

  lemma MinedPrefixComplete(t0: TileMap, units: UnitStore, ord: seq<Coord>, dt: real, draw: Coord -> int)
    requires OrderOk(ord, t0)
    ensures MinedPrefix(t0, units, ord, dt, draw) == Mined(t0, units, dt, draw)
  {
  }

  lemma GainStep(t0: TileMap, units: UnitStore, ord: seq<Coord>, i: nat, dt: real, draw: Coord -> int, side: Side)
    requires i < |ord| && ord[i] in t0
    ensures Gain(t0, units, ord[..i + 1], dt, draw, side)
            == Gain(t0, units, ord[..i], dt, draw, side) + Pay(t0[ord[i]], units, dt, draw(ord[i]), side)
  {
    assert ord[..i + 1][..i] == ord[..i];
  }


  /** The body of the mining loop for one tile: the new tile, and what each side is paid. */
  method MineStepOf(t0: Tile, units: UnitStore, dt: real, amount: int) returns (t: Tile, paidAlly: int, paidEnemy: int)
    ensures t == MineTile(t0, units, dt, amount).tile
    ensures paidAlly == Pay(t0, units, dt, amount, Ally) && paidEnemy == Pay(t0, units, dt, amount, Enemy)
  {
    var step := MineTile(t0, units, dt, amount);
    t := step.tile;
    paidAlly, paidEnemy := 0, 0;
    if step.payout.Some? {
      if step.payout.value.side == Ally {
        paidAlly := step.payout.value.amount;
      } else {
        paidEnemy := step.payout.value.amount;
      }
    }
  }

  /** The loop of `_process_gold_mining`: the new tiles, and what each side earned. */
  method MineAll(t0: TileMap, units: UnitStore, ord: seq<Coord>, dt: real, draw: Coord -> int)
    returns (t: TileMap, allyGain: int, enemyGain: int)
    requires OrderOk(ord, t0)
    ensures t == Mined(t0, units, dt, draw)
    ensures allyGain == Gain(t0, units, ord, dt, draw, Ally)
    ensures enemyGain == Gain(t0, units, ord, dt, draw, Enemy)
  {
    SortedDistinct(ord);
    t := t0;
    allyGain, enemyGain := 0, 0;
    var i := 0;
    while i < |ord|
      invariant 0 <= i <= |ord|
      invariant t == MinedPrefix(t0, units, ord[..i], dt, draw)
      invariant allyGain == Gain(t0, units, ord[..i], dt, draw, Ally)
      invariant enemyGain == Gain(t0, units, ord[..i], dt, draw, Enemy)
    {
      var c := ord[i];
      MinedPrefixStep(t0, units, ord, i, dt, draw);
      GainStep(t0, units, ord, i, dt, draw, Ally);
      GainStep(t0, units, ord, i, dt, draw, Enemy);
      var tile, paidAlly, paidEnemy := MineStepOf(t0[c], units, dt, draw(c));
      t := t[c := tile];
      allyGain := allyGain + paidAlly;
      enemyGain := enemyGain + paidEnemy;
      i := i + 1;
    }
    assert ord[..i] == ord;
    MinedPrefixComplete(t0, units, ord, dt, draw);
  }

  // ---------------------------------------------------------------------
  // Setpoint bombardment
  // ---------------------------------------------------------------------

  /** A shot effect: the tile hit and the time left to show it. */
  datatype Shot = Shot(tile: Coord, timer: real)

  /** `ring2_list`: the neighbours of every tile of the first ring, in order, with repeats. */
  function RingTwo(keys: set<Coord>, ring: seq<Coord>): seq<Coord> {
    if ring == [] then [] else NeighborsOf(keys, ring[0]) + RingTwo(keys, ring[1..])
  }

  /** The tiles `consider_tile` is called on: the first ring, then the second. */
  function Reach(keys: set<Coord>, c: Coord): seq<Coord> {
    NeighborsOf(keys, c) + RingTwo(keys, NeighborsOf(keys, c))
  }

  /** `tile.unit.name == "Soldier" and tile.unit.owner != side` */
  predicate EnemySoldierAt(tiles: TileMap, units: UnitStore, x: Coord, side: Side) {
    x in tiles && SoldierOn(tiles[x], units) && Resolve(tiles[x].unit, units).value.owner != side
  }

  /** `consider_tile` over `list`, skipping the coordinates in `seen`. */
  function Candidates(tiles: TileMap, units: UnitStore, list: seq<Coord>, side: Side, seen: set<Coord>): seq<Coord> {
    if list == [] then []
    else if list[0] in seen then Candidates(tiles, units, list[1..], side, seen)
    else (if EnemySoldierAt(tiles, units, list[0], side) then [list[0]] else [])
         + Candidates(tiles, units, list[1..], side, seen + {list[0]})
  }

  /**
   * The candidates are the enemy Soldiers of the list, each coordinate
   * once; coordinates seen before are left out.
   */
  lemma {:induction false} CandidatesMembers(tiles: TileMap, units: UnitStore, list: seq<Coord>, side: Side, seen: set<Coord>)
    ensures forall x :: x in Candidates(tiles, units, list, side, seen) <==>
                        x in list && x !in seen && EnemySoldierAt(tiles, units, x, side)
    ensures NoDuplicates(Candidates(tiles, units, list, side, seen))
  {
    if list != [] {
      var x := list[0];
      if x in seen {
        CandidatesMembers(tiles, units, list[1..], side, seen);
        assert forall y :: y in list <==> y == x || y in list[1..];
      } else {
        CandidatesMembers(tiles, units, list[1..], side, seen + {x});
        assert forall y :: y in list <==> y == x || y in list[1..];
      }
    }
  }

  /** Every tile of the two rings is on the map, within hex distance 2 of the setpoint. */
  lemma {:induction false} RingTwoWithin(keys: set<Coord>, c: Coord, ring: seq<Coord>)
    requires forall n :: n in ring ==> HexDistance(c, n) <= 1
    ensures forall x :: x in RingTwo(keys, ring) ==> x in keys && HexDistance(c, x) <= 2
  {
    if ring != [] {
      RingTwoWithin(keys, c, ring[1..]);
      var n := ring[0];
      NeighborsExactlyAdjacent(keys, n);
      forall x | x in NeighborsOf(keys, n) ensures HexDistance(c, x) <= 2 {
        DirectionsAreUnitSteps(n, Coord(x.q - n.q, x.r - n.r));
        assert n.Plus(Coord(x.q - n.q, x.r - n.r)) == x;
        HexDistanceIsMetric(c, n, x);
      }
    }
  }

  lemma ReachWithin(keys: set<Coord>, c: Coord)
    ensures forall x :: x in Reach(keys, c) ==> x in keys && HexDistance(c, x) <= 2
  {
    NeighborsExactlyAdjacent(keys, c);
    forall n | n in NeighborsOf(keys, c) ensures HexDistance(c, n) <= 1 {
      DirectionsAreUnitSteps(c, Coord(n.q - c.q, n.r - c.r));
      assert c.Plus(Coord(n.q - c.q, n.r - c.r)) == n;
    }
    RingTwoWithin(keys, c, NeighborsOf(keys, c));
  }

  /** The sort key `(dist, -priority)` folded into one number: distance first, boundary tiles first on a tie. */
  function Rank(tiles: TileMap, from: Coord, x: Coord): nat {
    2 * HexDistance(from, x) + (if x in tiles && tiles[x].boundary then 0 else 1)
  }

  /**
   * `candidates.sort(...)[0]`: the position of the first candidate of least
   * rank. Python's sort is stable, so among equal ranks the earliest wins.
   */
  function FirstBest(tiles: TileMap, from: Coord, cs: seq<Coord>): (k: nat)
    requires cs != []
    ensures k < |cs|
    ensures forall j :: 0 <= j < |cs| ==> Rank(tiles, from, cs[k]) <= Rank(tiles, from, cs[j])
    ensures forall j :: 0 <= j < k ==> Rank(tiles, from, cs[k]) < Rank(tiles, from, cs[j])
  {
    if |cs| == 1 then 0
    else
      var k := FirstBest(tiles, from, cs[1..]);
      if Rank(tiles, from, cs[0]) <= Rank(tiles, from, cs[1..][k]) then 0 else 1 + k
  }

  /** The least rank means the least distance, and a boundary tile beats an interior one at equal distance. */
  lemma RankOrder(tiles: TileMap, from: Coord, a: Coord, b: Coord)
    requires a in tiles && b in tiles
    ensures Rank(tiles, from, a) <= Rank(tiles, from, b) <==>
              HexDistance(from, a) < HexDistance(from, b)
              || (HexDistance(from, a) == HexDistance(from, b) && (tiles[a].boundary || !tiles[b].boundary))
  {
  }

  /** The setpoint on tile `c`, if any. */
  function SetpointAt(tiles: TileMap, units: UnitStore, c: Coord): Option<Unit> {
    if c in tiles && Resolve(tiles[c].unit, units).Some? && Resolve(tiles[c].unit, units).value.isSetpoint
    then Resolve(tiles[c].unit, units) else None
  }

  /** The targets the setpoint at `c` may fire on. */
  function Targets(tiles: TileMap, units: UnitStore, c: Coord, side: Side): seq<Coord> {
    Candidates(tiles, units, Reach(tiles.Keys, c), side, {})
  }

  /** The state the bombardment works on. */
  datatype Battery = Battery(tiles: TileMap, units: UnitStore, shots: seq<Shot>)

  /**
   * One pass of the bombardment loop on tile `c`: a setpoint there picks
   * its target and, if its roll `hit` succeeds, deals 5 damage; a target
   * left at no health is taken off its tile; a hit is recorded as a shot.
   */
  function Fire(b: Battery, c: Coord, hit: bool): Battery {
    var sp := SetpointAt(b.tiles, b.units, c);
    if sp.None? then b
    else
      var cs := Targets(b.tiles, b.units, c, sp.value.owner);
      if cs == [] || !hit then b
      else
        var target := cs[FirstBest(b.tiles, c, cs)];
        CandidatesMembers(b.tiles, b.units, Reach(b.tiles.Keys, c), sp.value.owner, {});
        assert EnemySoldierAt(b.tiles, b.units, target, sp.value.owner);
        var id := b.tiles[target].unit.value;
        var hurt := b.units[id].TakeDamage(SetpointDamage);
        var tiles := if hurt.health <= 0.0 then b.tiles[target := b.tiles[target].(unit := None)] else b.tiles;
        Battery(tiles, b.units[id := hurt], b.shots + [Shot(target, ShotLife)])
  }

  /** The loop of `_process_setpoint_fire` over the tiles in `ord`. */
  function Volley(b: Battery, ord: seq<Coord>, hit: Coord -> bool): Battery
    decreases |ord|
  {
    if ord == [] then b else Volley(Fire(b, ord[0], hit(ord[0])), ord[1..], hit)
  }

  /** The target of the setpoint at `c`, when it has one. */
  function TargetOf(tiles: TileMap, units: UnitStore, c: Coord): Option<Coord> {
    var sp := SetpointAt(tiles, units, c);
    if sp.None? then None
    else
      var cs := Targets(tiles, units, c, sp.value.owner);
      if cs == [] then None else Some(cs[FirstBest(tiles, c, cs)])
  }

  /**
   * A setpoint aims at the nearest enemy Soldier reached through two rings
   * of neighbours, a boundary tile winning a tie between equal distances;
   * it has no target exactly when there is no such Soldier.
   */
  lemma TargetRules(tiles: TileMap, units: UnitStore, c: Coord)
    requires SetpointAt(tiles, units, c).Some?
    ensures var side := SetpointAt(tiles, units, c).value.owner;
            var t := TargetOf(tiles, units, c);
            && (t.None? <==> forall x :: x in Reach(tiles.Keys, c) ==> !EnemySoldierAt(tiles, units, x, side))
            && (t.Some? ==>
                 && t.value in Reach(tiles.Keys, c) && EnemySoldierAt(tiles, units, t.value, side)
                 && HexDistance(c, t.value) <= 2
                 && forall x :: x in Reach(tiles.Keys, c) && EnemySoldierAt(tiles, units, x, side)
                      ==> HexDistance(c, t.value) < HexDistance(c, x)
                          || (HexDistance(c, t.value) == HexDistance(c, x) && (tiles[t.value].boundary || !tiles[x].boundary)))
  {
    var side := SetpointAt(tiles, units, c).value.owner;
    var cs := Targets(tiles, units, c, side);
    CandidatesMembers(tiles, units, Reach(tiles.Keys, c), side, {});
    ReachWithin(tiles.Keys, c);
    if cs != [] {
      var target := cs[FirstBest(tiles, c, cs)];
      assert target in cs;
      forall x | x in Reach(tiles.Keys, c) && EnemySoldierAt(tiles, units, x, side)
        ensures HexDistance(c, target) < HexDistance(c, x)
                || (HexDistance(c, target) == HexDistance(c, x) && (tiles[target].boundary || !tiles[x].boundary))
      {
        assert x in cs;
        var j :| 0 <= j < |cs| && cs[j] == x;
        RankOrder(tiles, c, target, x);
      }
    }
  }

  /**
   * A hit takes exactly 5 health from the target (never below 0), and the
   * target leaves its tile exactly when no health is left; no other unit and
   * no other tile changes, and the hit is recorded as a 0.5 s shot.
   */
  lemma FireRules(b: Battery, c: Coord)
    requires TargetOf(b.tiles, b.units, c).Some?
    ensures var target := TargetOf(b.tiles, b.units, c).value;
            var a := Fire(b, c, true);
            && target in b.tiles && b.tiles[target].unit.Some? && b.tiles[target].unit.value in b.units
            && var id := b.tiles[target].unit.value;
            && id in a.units
            && a.units == b.units[id := b.units[id].(health := a.units[id].health)]
            && a.units[id].health == (if b.units[id].health - SetpointDamage < 0.0 then 0.0 else b.units[id].health - SetpointDamage)
            && a.tiles.Keys == b.tiles.Keys
            && (forall x :: x in a.tiles && x != target ==> a.tiles[x] == b.tiles[x])
            && a.tiles[target] == b.tiles[target].(unit := if a.units[id].health <= 0.0 then None else Some(id))
            && a.shots == b.shots + [Shot(target, ShotLife)]
  {
    TargetRules(b.tiles, b.units, c);
  }

  /** A frame without a setpoint, a target or a successful roll leaves the bombardment state as it was. */
  lemma FireMisses(b: Battery, c: Coord, hit: bool)
    requires TargetOf(b.tiles, b.units, c).None? || !hit
    ensures Fire(b, c, hit) == b
  {
  }

  /** The loop building `ring2_list`. */
  method SecondRing(keys: set<Coord>, ring1: seq<Coord>) returns (ring2: seq<Coord>)
    ensures ring2 == RingTwo(keys, ring1)
  {
    ring2 := [];
    var k := 0;
    while k < |ring1|
      invariant 0 <= k <= |ring1|
      invariant ring2 + RingTwo(keys, ring1[k..]) == RingTwo(keys, ring1)
    {
      assert ring1[k..][1..] == ring1[k + 1..];
      ring2 := ring2 + NeighborsOf(keys, ring1[k]);
      k := k + 1;
    }
    assert ring1[k..] == [];
  }

  /** The two loops calling `consider_tile`, with the `seen` set of coordinates. */
  method Consider(tiles: TileMap, units: UnitStore, list: seq<Coord>, side: Side) returns (cands: seq<Coord>)
    ensures cands == Candidates(tiles, units, list, side, {})
  {
    var seen: set<Coord> := {};
    cands := [];
    var i := 0;
    while i < |list|
      invariant 0 <= i <= |list|
      invariant cands + Candidates(tiles, units, list[i..], side, seen) == Candidates(tiles, units, list, side, {})
    {
      var x := list[i];
      assert list[i..][1..] == list[i + 1..];
      if x !in seen {
        seen := seen + {x};
        if EnemySoldierAt(tiles, units, x, side) {
          cands := cands + [x];
        }
      }
      i := i + 1;
    }
    assert list[i..] == [];
  }

  /** The candidates of the setpoint at `c`: its two rings, each coordinate considered once. */
  method CollectCandidates(tiles: TileMap, units: UnitStore, c: Coord, side: Side) returns (cands: seq<Coord>)
    ensures cands == Targets(tiles, units, c, side)
  {
    var ring1 := NeighborsOf(tiles.Keys, c);
    var ring2 := SecondRing(tiles.Keys, ring1);
    cands := Consider(tiles, units, ring1 + ring2, side);
  }

  /** The loop of `_process_setpoint_fire` over the tiles in dictionary order. */
  method FireAll(b0: Battery, ord: seq<Coord>, hit: Coord -> bool) returns (b: Battery)
    ensures b == Volley(b0, ord, hit)
  {
    b := b0;
    var i := 0;
    while i < |ord|
      invariant 0 <= i <= |ord|
      invariant Volley(b, ord[i..], hit) == Volley(b0, ord, hit)
    {
      var c := ord[i];
      assert ord[i..][1..] == ord[i + 1..];
      var sp := SetpointAt(b.tiles, b.units, c);
      if sp.Some? {
        var cs := CollectCandidates(b.tiles, b.units, c, sp.value.owner);
        if cs != [] && hit(c) {
          var target := cs[FirstBest(b.tiles, c, cs)];
          CandidatesMembers(b.tiles, b.units, Reach(b.tiles.Keys, c), sp.value.owner, {});
          assert target in cs;
          var id := b.tiles[target].unit.value;
          var hurt := b.units[id].TakeDamage(SetpointDamage);
          var tiles := b.tiles;
          if hurt.health <= 0.0 {
            tiles := tiles[target := tiles[target].(unit := None)];
          }
          b := Battery(tiles, b.units[id := hurt], b.shots + [Shot(target, ShotLife)]);
        }
      }
      i := i + 1;
    }
  }

  /** One setpoint's turn changes no owner, wall or key, and only appends to the shots. */
  lemma FireKeepsGround(b: Battery, c: Coord, hit: bool)
    ensures var a := Fire(b, c, hit);
            && SameKeys(b.tiles, a.tiles) && a.units.Keys == b.units.Keys
            && (forall x :: x in a.tiles ==> a.tiles[x].owner == b.tiles[x].owner && a.tiles[x].wall == b.tiles[x].wall)
            && |a.shots| >= |b.shots| && a.shots[..|b.shots|] == b.shots
  {
    if TargetOf(b.tiles, b.units, c).Some? && hit {
      FireRules(b, c);
    }
  }

  /** Bombardment changes no owner and no key, and keeps every tile at its coordinate. */
  lemma {:induction false} VolleyKeepsGround(b: Battery, ord: seq<Coord>, hit: Coord -> bool)
    ensures var a := Volley(b, ord, hit);
            && SameKeys(b.tiles, a.tiles) && a.units.Keys == b.units.Keys
            && (forall c :: c in a.tiles ==> a.tiles[c].owner == b.tiles[c].owner && a.tiles[c].wall == b.tiles[c].wall)
            && |a.shots| >= |b.shots| && a.shots[..|b.shots|] == b.shots
    decreases |ord|
  {
    if ord != [] {
      var f := Fire(b, ord[0], hit(ord[0]));
      FireKeepsGround(b, ord[0], hit(ord[0]));
      VolleyKeepsGround(f, ord[1..], hit);
      var a := Volley(f, ord[1..], hit);
      assert a.shots[..|b.shots|] == a.shots[..|f.shots|][..|b.shots|];
    }
  }

  // ---------------------------------------------------------------------
  // Healing
  // ---------------------------------------------------------------------

  /** An entry of the hospital queue: the unit, its hospital tile and the time since its last point. */
  datatype HealEntry = HealEntry(unit: UnitId, hospital: Coord, timer: real)

  /** `hosp.unit and hosp.unit.is_medical` */
  predicate MedicalOn(tiles: TileMap, units: UnitStore, c: Coord) {
    c in tiles && Resolve(tiles[c].unit, units).Some? && Resolve(tiles[c].unit, units).value.isMedical
  }

  datatype HealStep = HealStep(units: UnitStore, kept: Option<HealEntry>)

  /** `min(20, health + 1)` */
  function HealedHealth(h: real): real {
    if HealCap <= h + 1.0 then HealCap else h + 1.0
  }

  /**
   * One pass of the healing loop: an entry whose hospital lost its Medical
   * unit is dropped; otherwise its timer runs and every 3 s the unit gains
   * a point of health up to 20; an entry is dropped once its unit has 20.
   * An entry naming a unit the store does not know is dropped as well.
   */
  function HealOne(tiles: TileMap, units: UnitStore, e: HealEntry, dt: real): HealStep {
    if !MedicalOn(tiles, units, e.hospital) || e.unit !in units then HealStep(units, None)
    else
      var timer := e.timer + dt;
      var u := units[e.unit];
      var units2 := if timer >= HealPeriod then units[e.unit := u.(health := HealedHealth(u.health))] else units;
      var timer2 := if timer >= HealPeriod then 0.0 else timer;
      if units2[e.unit].health >= HealCap then HealStep(units2, None)
      else HealStep(units2, Some(HealEntry(e.unit, e.hospital, timer2)))
  }

  datatype Ward = Ward(units: UnitStore, queue: seq<HealEntry>)

  /** The loop of `_process_healing` over the queue, the dropped entries removed afterwards. */
  function HealAll(tiles: TileMap, units: UnitStore, q: seq<HealEntry>, dt: real): Ward {
    if q == [] then Ward(units, [])
    else
      var s := HealOne(tiles, units, q[0], dt);
      var rest := HealAll(tiles, s.units, q[1..], dt);
      Ward(rest.units, (if s.kept.Some? then [s.kept.value] else []) + rest.queue)
  }

  /**
   * One entry's rules: healing adds exactly one point when the 3 s timer
   * fires and never lifts health above 20; an entry stays queued only while
   * its hospital holds a Medical unit and its unit is still below 20.
   */
  lemma HealRules(tiles: TileMap, units: UnitStore, e: HealEntry, dt: real)
    requires e.unit in units
    ensures var s := HealOne(tiles, units, e, dt);
            var h := units[e.unit].health;
            && e.unit in s.units
            && (MedicalOn(tiles, units, e.hospital) && e.timer + dt >= HealPeriod
                ==> s.units[e.unit].health == (if h + 1.0 >= HealCap then HealCap else h + 1.0))
            && (!MedicalOn(tiles, units, e.hospital) || e.timer + dt < HealPeriod ==> s.units == units)
            && (h <= HealCap ==> s.units[e.unit].health <= HealCap)
            && (s.kept.Some? <==> MedicalOn(tiles, units, e.hospital) && s.units[e.unit].health < HealCap)
            && (s.kept.Some? ==> s.kept.value.unit == e.unit && s.kept.value.hospital == e.hospital)
  {
    HealOneShape(tiles, units, e, dt);
  }

  /** After healing, every queued entry is for a known unit at a hospital with a Medical unit, and the queue never grows. */
  lemma {:induction false} HealAllKeeps(tiles: TileMap, units: UnitStore, q: seq<HealEntry>, dt: real)
    ensures var w := HealAll(tiles, units, q, dt);
            && w.units.Keys == units.Keys
            && |w.queue| <= |q|
            && forall i :: 0 <= i < |w.queue| ==>
                 w.queue[i].unit in w.units && MedicalOn(tiles, units, w.queue[i].hospital)
  {
    if q != [] {
      var s := HealOne(tiles, units, q[0], dt);
      HealOneHealth(tiles, units, q[0], dt);
      HealthOnlyKeepsMedical(tiles, units, s.units);
      HealAllKeeps(tiles, s.units, q[1..], dt);
      HealAllHealth(tiles, s.units, q[1..], dt);
      var rest := HealAll(tiles, s.units, q[1..], dt);
      if s.kept.Some? {
        HealRules(tiles, units, q[0], dt);
        assert HealAll(tiles, units, q, dt).queue == [s.kept.value] + rest.queue;
      }
    }
  }

  /** Stores that differ only in health have Medical units on the same tiles. */
  lemma HealthOnlyKeepsMedical(tiles: TileMap, u1: UnitStore, u2: UnitStore)
    requires u2.Keys == u1.Keys && forall id :: id in u1 ==> u2[id] == u1[id].(health := u2[id].health)
    ensures forall c :: MedicalOn(tiles, u2, c) <==> MedicalOn(tiles, u1, c)
  {
  }

  /** One entry either leaves the store alone or heals its own unit by one point. */
  lemma HealOneShape(tiles: TileMap, units: UnitStore, e: HealEntry, dt: real)
    ensures var s := HealOne(tiles, units, e, dt);
            || s.units == units
            || (e.unit in units && s.units == units[e.unit := units[e.unit].(health := HealedHealth(units[e.unit].health))])
  {
  }

  /** One entry changes the health of its own unit and nothing else. */
  lemma HealOneHealth(tiles: TileMap, units: UnitStore, e: HealEntry, dt: real)
    ensures var s := HealOne(tiles, units, e, dt);
            && s.units.Keys == units.Keys
            && (forall id :: id in units ==> s.units[id] == units[id].(health := s.units[id].health))
            && (forall id :: id in units && id != e.unit ==> s.units[id] == units[id])
  {
    HealOneShape(tiles, units, e, dt);
  }

  /** Healing changes health only. */
  lemma {:induction false} HealAllHealth(tiles: TileMap, units: UnitStore, q: seq<HealEntry>, dt: real)
    ensures var w := HealAll(tiles, units, q, dt);
            w.units.Keys == units.Keys && forall id :: id in units ==> w.units[id] == units[id].(health := w.units[id].health)
  {
    if q != [] {
      var s := HealOne(tiles, units, q[0], dt);
      HealOneHealth(tiles, units, q[0], dt);
      HealAllHealth(tiles, s.units, q[1..], dt);
    }
  }

  /** The body of the healing loop for one entry: the new store, and the entry if it stays. */
  method HealEntryStep(tiles: TileMap, units0: UnitStore, e: HealEntry, dt: real) returns (units: UnitStore, kept: Option<HealEntry>)
    ensures HealStep(units, kept) == HealOne(tiles, units0, e, dt)
  {
    units := units0;
    kept := None;
    if !MedicalOn(tiles, units, e.hospital) || e.unit !in units {
      return;
    }
    var timer := e.timer + dt;
    if timer >= HealPeriod {
      var h := units[e.unit].health;
      units := units[e.unit := units[e.unit].(health := HealedHealth(h))];
      timer := 0.0;
    }
    if units[e.unit].health < HealCap {
      kept := Some(HealEntry(e.unit, e.hospital, timer));
    }
  }

  /** The healing loop over the queue, keeping the entries that are not done. */
  method HealQueue(tiles: TileMap, units0: UnitStore, q: seq<HealEntry>, dt: real) returns (units: UnitStore, kept: seq<HealEntry>)
    ensures Ward(units, kept) == HealAll(tiles, units0, q, dt)
  {
    units := units0;
    kept := [];
    var i := 0;
    while i < |q|
      invariant 0 <= i <= |q|
      invariant var rest := HealAll(tiles, units, q[i..], dt);
                rest.units == HealAll(tiles, units0, q, dt).units
                && kept + rest.queue == HealAll(tiles, units0, q, dt).queue
    {
      assert q[i..][1..] == q[i + 1..];
      var stays: Option<HealEntry>;
      units, stays := HealEntryStep(tiles, units, q[i], dt);
      if stays.Some? {
        kept := kept + [stays.value];
      }
      i := i + 1;
    }
    assert q[i..] == [];
  }

  /** `send_to_hospital`'s search: the first tile in order holding a Medical unit of `side`. */
  function Hospital(tiles: TileMap, units: UnitStore, ord: seq<Coord>, side: Side): (h: Option<Coord>)
    ensures h.Some? ==> h.value in ord && MedicalOn(tiles, units, h.value)
                        && Resolve(tiles[h.value].unit, units).value.owner == side
  {
    if ord == [] then None
    else if MedicalOn(tiles, units, ord[0]) && Resolve(tiles[ord[0]].unit, units).value.owner == side then Some(ord[0])
    else Hospital(tiles, units, ord[1..], side)
  }

  /** The search loop of `send_to_hospital` over the tiles in dictionary order. */
  method FindHospital(tiles: TileMap, units: UnitStore, ord: seq<Coord>, side: Side) returns (h: Option<Coord>)
    ensures h == Hospital(tiles, units, ord, side)
  {
    var i := 0;
    while i < |ord|
      invariant 0 <= i <= |ord|
      invariant Hospital(tiles, units, ord[i..], side) == Hospital(tiles, units, ord, side)
    {
      var c := ord[i];
      assert ord[i..][1..] == ord[i + 1..];
      if MedicalOn(tiles, units, c) && Resolve(tiles[c].unit, units).value.owner == side {
        return Some(c);
      }
      i := i + 1;
    }
    return None;
  }

  /** The search finds a hospital exactly when the side has a Medical unit on a listed tile. */
  lemma {:induction false} HospitalFound(tiles: TileMap, units: UnitStore, ord: seq<Coord>, side: Side)
    ensures Hospital(tiles, units, ord, side).None? <==>
              forall c :: c in ord && MedicalOn(tiles, units, c) ==> Resolve(tiles[c].unit, units).value.owner != side
  {
    if ord != [] {
      HospitalFound(tiles, units, ord[1..], side);
      assert forall c :: c in ord <==> c == ord[0] || c in ord[1..];
    }
  }

  // ---------------------------------------------------------------------
  // Shot effects
  // ---------------------------------------------------------------------

  /** `_update_shot_effects`: every timer drops by `dt`; the shots whose time is up go. */
  function Faded(shots: seq<Shot>, dt: real): seq<Shot> {
    if shots == [] then []
    else
      var s := shots[0].(timer := shots[0].timer - dt);
      (if s.timer <= 0.0 then [] else [s]) + Faded(shots[1..], dt)
  }

  /** No shot is added, and every shot left still has time to run. */
  lemma {:induction false} FadedShrinks(shots: seq<Shot>, dt: real)
    ensures |Faded(shots, dt)| <= |shots|
    ensures forall i :: 0 <= i < |Faded(shots, dt)| ==> Faded(shots, dt)[i].timer > 0.0
  {
    if shots != [] {
      FadedShrinks(shots[1..], dt);
    }
  }

  /** A shot stays, `dt` shorter, exactly when it had more than `dt` left. */
  lemma {:induction false} FadedKeeps(shots: seq<Shot>, dt: real, s: Shot)
    ensures s in Faded(shots, dt) <==> Shot(s.tile, s.timer + dt) in shots && s.timer > 0.0
  {
    if shots != [] {
      FadedKeeps(shots[1..], dt, s);
      assert Shot(s.tile, s.timer + dt) in shots <==> Shot(s.tile, s.timer + dt) == shots[0] || Shot(s.tile, s.timer + dt) in shots[1..];
    }
  }

  /** The loop of `_update_shot_effects`. */
  method FadeShots(shots0: seq<Shot>, dt: real) returns (shots: seq<Shot>)
    ensures shots == Faded(shots0, dt)
  {
    shots := [];
    var i := 0;
    while i < |shots0|
      invariant 0 <= i <= |shots0|
      invariant shots + Faded(shots0[i..], dt) == Faded(shots0, dt)
    {
      assert shots0[i..][1..] == shots0[i + 1..];
      var s := shots0[i].(timer := shots0[i].timer - dt);
      ghost var rest := Faded(shots0[i + 1..], dt);
      assert Faded(shots0[i..], dt) == (if s.timer <= 0.0 then [] else [s]) + rest;
      if s.timer > 0.0 {
        assert shots + ([s] + rest) == (shots + [s]) + rest;
        shots := shots + [s];
      } else {
        assert [] + rest == rest;
      }
      i := i + 1;
    }
  }

  // ---------------------------------------------------------------------
  // The game object
  // ---------------------------------------------------------------------

  /** The radius of the game's map. */
  const GameMapSize := 6

  /** `HexMap(size=6)`: the map a new game starts on. */
  method NewGameMap(allyPick: nat, enemyPick: nat, allyAmount: int, enemyAmount: int) returns (m: HexMap)
    requires GoldAmountMin <= allyAmount <= GoldAmountMax && GoldAmountMin <= enemyAmount <= GoldAmountMax
    ensures fresh(m) && m.Valid() && m.size == GameMapSize
    ensures m.units == map[0 := CreatePinpoint(Ally), 1 := CreatePinpoint(Enemy)] && m.nextId == 2
    ensures IsStartingMap(m.tiles, m.order, GameMapSize, allyPick, enemyPick, allyAmount, enemyAmount)
  {
    m := new HexMap(GameMapSize, allyPick, enemyPick, allyAmount, enemyAmount);
  }

  /** The map and the two players of a new game. */
  method NewGameObjects(allyPick: nat, enemyPick: nat, allyAmount: int, enemyAmount: int) returns (m: HexMap, a: Player, e: Player)
    requires GoldAmountMin <= allyAmount <= GoldAmountMax && GoldAmountMin <= enemyAmount <= GoldAmountMax
    ensures fresh(m) && m.Valid()
    ensures m.units == map[0 := CreatePinpoint(Ally), 1 := CreatePinpoint(Enemy)] && m.nextId == 2
    ensures fresh(a) && a.name == Ally && a.money == StartingMoney && a.inventory == []
    ensures fresh(e) && e.name == Enemy && e.money == StartingMoney && e.inventory == []
    ensures a != e
  {
    a := new Player(Ally);
    e := new Player(Enemy);
    m := NewGameMap(allyPick, enemyPick, allyAmount, enemyAmount);
  }

  /** What `update_systems` changes: the tiles, the store, both purses, the fire timer, the queue and the shots. */
  datatype Systems = Systems(tiles: TileMap, units: UnitStore, allyMoney: int, enemyMoney: int,
                             fireTimer: real, healQueue: seq<HealEntry>, shots: seq<Shot>)

  /**
   * One frame of `update_systems`: the cooldowns run, the mines pay on the
   * cooled tiles, the fire timer advances and at 1 s resets and fires a
   * volley, the queue heals on the tiles after the volley, and the shots fade.
   */
  function SystemsFrame(s: Systems, ord: seq<Coord>, dt: real, draw: Coord -> int, hit: Coord -> bool): Systems {
    var cooled := Cooled(s.tiles, dt);
    var timer := s.fireTimer + dt;
    var b := Battery(Mined(cooled, s.units, dt, draw), s.units, s.shots);
    var fired := if timer < FirePeriod then b else Volley(b, ord, hit);
    var ward := HealAll(fired.tiles, fired.units, s.healQueue, dt);
    Systems(fired.tiles, ward.units,
            s.allyMoney + Gain(cooled, s.units, ord, dt, draw, Ally),
            s.enemyMoney + Gain(cooled, s.units, ord, dt, draw, Enemy),
            if timer < FirePeriod then timer else 0.0, ward.queue, Faded(fired.shots, dt))
  }

  /**
   * After a frame no purse has shrunk (with gold draws in their range), the
   * fire timer is below its 1 s period, the queue has not grown, and every
   * shot left still has time to show.
   */
  lemma SystemsFrameFacts(s: Systems, ord: seq<Coord>, dt: real, draw: Coord -> int, hit: Coord -> bool)
    requires forall c :: GoldAmountMin <= draw(c) <= GoldAmountMax
    ensures var r := SystemsFrame(s, ord, dt, draw, hit);
            && r.allyMoney >= s.allyMoney && r.enemyMoney >= s.enemyMoney
            && r.fireTimer < FirePeriod
            && |r.healQueue| <= |s.healQueue|
            && forall i :: 0 <= i < |r.shots| ==> r.shots[i].timer > 0.0
  {
    var cooled := Cooled(s.tiles, dt);
    var timer := s.fireTimer + dt;
    var b := Battery(Mined(cooled, s.units, dt, draw), s.units, s.shots);
    var fired := if timer < FirePeriod then b else Volley(b, ord, hit);
    GainNonNegative(cooled, s.units, ord, dt, draw, Ally);
    GainNonNegative(cooled, s.units, ord, dt, draw, Enemy);
    HealAllKeeps(fired.tiles, fired.units, s.healQueue, dt);
    FadedShrinks(fired.shots, dt);
  }

  /** The stages of a frame, each as its system leaves it, make up `SystemsFrame`. */
  lemma SystemsFrameOf(s: Systems, ord: seq<Coord>, dt: real, draw: Coord -> int, hit: Coord -> bool,
                       b: Battery, fired: Battery, r: Systems)
    requires b == Battery(Mined(Cooled(s.tiles, dt), s.units, dt, draw), s.units, s.shots)
    requires fired == if s.fireTimer + dt < FirePeriod then b else Volley(b, ord, hit)
    requires r.fireTimer == if s.fireTimer + dt < FirePeriod then s.fireTimer + dt else 0.0
    requires r.allyMoney == s.allyMoney + Gain(Cooled(s.tiles, dt), s.units, ord, dt, draw, Ally)
    requires r.enemyMoney == s.enemyMoney + Gain(Cooled(s.tiles, dt), s.units, ord, dt, draw, Enemy)
    requires Ward(r.units, r.healQueue) == HealAll(fired.tiles, fired.units, s.healQueue, dt)
    requires r.tiles == fired.tiles && r.shots == Faded(fired.shots, dt)
    ensures r == SystemsFrame(s, ord, dt, draw, hit)
  {
  }

  class Game {
    const hexMap: HexMap
    const ally: Player
    const enemy: Player
    var healQueue: seq<HealEntry>
    var fireTimer: real
    var recentShots: seq<Shot>

    ghost predicate Valid()
      reads this, hexMap, ally, enemy
    {
      hexMap.Valid() && ally != enemy && ally.name == Ally && enemy.name == Enemy
    }

    function PlayerOf(s: Side): Player
      reads this
    {
      if s == Ally then ally else enemy
    }

    /** `Game()`: a radius-6 hexMap, both players, nothing queued. */
    constructor (allyPick: nat, enemyPick: nat, allyAmount: int, enemyAmount: int)
      requires GoldAmountMin <= allyAmount <= GoldAmountMax && GoldAmountMin <= enemyAmount <= GoldAmountMax
      ensures Valid() && fresh(hexMap) && fresh(ally) && fresh(enemy)
      ensures ally.money == StartingMoney && enemy.money == StartingMoney
      ensures ally.inventory == [] && enemy.inventory == []
      ensures healQueue == [] && fireTimer == 0.0 && recentShots == []
    {
      var m, a, e := NewGameObjects(allyPick, enemyPick, allyAmount, enemyAmount);
      hexMap, ally, enemy := m, a, e;
      healQueue := [];
      fireTimer := 0.0;
      recentShots := [];
    }

    /** `_update_gold_cooldowns` */
    method UpdateGoldCooldowns(dt: real)
      requires Valid()
      modifies hexMap
      ensures Valid() && hexMap.order == old(hexMap.order) && hexMap.units == old(hexMap.units)
      ensures hexMap.tiles == Cooled(old(hexMap.tiles), dt)
      ensures SameOwners(old(hexMap.tiles), hexMap.tiles)
    {
      var t := CoolAll(hexMap.tiles, hexMap.order, dt);
      SlotChangeKeepsShape(hexMap.tiles, t, hexMap.order, hexMap.size);
      hexMap.tiles := t;
    }

    /** `_process_gold_mining`: the tiles advance and each side is paid for its mines. */
    method ProcessGoldMining(dt: real, draw: Coord -> int)
      requires Valid()
      modifies hexMap, ally, enemy
      ensures Valid() && hexMap.order == old(hexMap.order) && hexMap.units == old(hexMap.units)
      ensures hexMap.tiles == Mined(old(hexMap.tiles), hexMap.units, dt, draw)
      ensures SameOwners(old(hexMap.tiles), hexMap.tiles)
      ensures ally.money == old(ally.money) + Gain(old(hexMap.tiles), hexMap.units, hexMap.order, dt, draw, Ally)
      ensures enemy.money == old(enemy.money) + Gain(old(hexMap.tiles), hexMap.units, hexMap.order, dt, draw, Enemy)
      ensures ally.inventory == old(ally.inventory) && enemy.inventory == old(enemy.inventory)
    {
      var t, ga, ge := MineAll(hexMap.tiles, hexMap.units, hexMap.order, dt, draw);
      SlotChangeKeepsShape(hexMap.tiles, t, hexMap.order, hexMap.size);
      hexMap.tiles := t;
      ally.money := ally.money + ga;
      enemy.money := enemy.money + ge;
    }

    /** `_process_setpoint_fire`: the period timer, and a volley once it reaches 1 s. */
    method ProcessSetpointFire(dt: real, hit: Coord -> bool)
      requires Valid()
      modifies this, hexMap
      ensures Valid() && hexMap.order == old(hexMap.order) && healQueue == old(healQueue)
      ensures SameOwners(old(hexMap.tiles), hexMap.tiles)
      ensures old(fireTimer) + dt < FirePeriod ==>
                fireTimer == old(fireTimer) + dt && hexMap.tiles == old(hexMap.tiles) && hexMap.units == old(hexMap.units)
                && recentShots == old(recentShots)
      ensures old(fireTimer) + dt >= FirePeriod ==>
                fireTimer == 0.0
                && Battery(hexMap.tiles, hexMap.units, recentShots)
                   == Volley(Battery(old(hexMap.tiles), old(hexMap.units), old(recentShots)), hexMap.order, hit)
    {
      fireTimer := fireTimer + dt;
      if fireTimer < FirePeriod {
        return;
      }
      fireTimer := 0.0;
      var b := FireAll(Battery(hexMap.tiles, hexMap.units, recentShots), hexMap.order, hit);
      VolleyKeepsGround(Battery(hexMap.tiles, hexMap.units, recentShots), hexMap.order, hit);
      SlotChangeKeepsShape(hexMap.tiles, b.tiles, hexMap.order, hexMap.size);
      hexMap.tiles := b.tiles;
      hexMap.units := b.units;
      recentShots := b.shots;
    }

    /** `send_to_hospital`: queue `id` at the first hospital of its side, if there is one. */
    method SendToHospital(id: UnitId)
      requires Valid() && id in hexMap.units
      modifies this
      ensures var h := Hospital(hexMap.tiles, hexMap.units, hexMap.order, hexMap.units[id].owner);
              healQueue == old(healQueue) + (if h.Some? then [HealEntry(id, h.value, 0.0)] else [])
      ensures fireTimer == old(fireTimer) && recentShots == old(recentShots)
    {
      var h := FindHospital(hexMap.tiles, hexMap.units, hexMap.order, hexMap.units[id].owner);
      if h.Some? {
        healQueue := healQueue + [HealEntry(id, h.value, 0.0)];
      }
    }

    /** `_process_healing` */
    method ProcessHealing(dt: real)
      requires Valid()
      modifies this, hexMap
      ensures Valid() && hexMap.tiles == old(hexMap.tiles) && hexMap.order == old(hexMap.order)
      ensures Ward(hexMap.units, healQueue) == HealAll(hexMap.tiles, old(hexMap.units), old(healQueue), dt)
      ensures fireTimer == old(fireTimer) && recentShots == old(recentShots)
    {
      var u, q := HealQueue(hexMap.tiles, hexMap.units, healQueue, dt);
      HealAllHealth(hexMap.tiles, hexMap.units, healQueue, dt);
      hexMap.units := u;
      healQueue := q;
    }

    /** `_update_shot_effects` */
    method UpdateShotEffects(dt: real)
      modifies this
      ensures recentShots == Faded(old(recentShots), dt)
      ensures healQueue == old(healQueue) && fireTimer == old(fireTimer)
    {
      recentShots := FadeShots(recentShots, dt);
    }

    /** `update_systems`: the five systems, in this order, once per frame. */
    method UpdateSystems(dt: real, draw: Coord -> int, hit: Coord -> bool)
      requires Valid()
      modifies this, hexMap, ally, enemy
      ensures Valid() && hexMap.order == old(hexMap.order)
      ensures ally.inventory == old(ally.inventory) && enemy.inventory == old(enemy.inventory)
      ensures SameOwners(old(hexMap.tiles), hexMap.tiles)
      ensures Systems(hexMap.tiles, hexMap.units, ally.money, enemy.money, fireTimer, healQueue, recentShots)
              == SystemsFrame(Systems(old(hexMap.tiles), old(hexMap.units), old(ally.money), old(enemy.money),
                                      old(fireTimer), old(healQueue), old(recentShots)),
                              old(hexMap.order), dt, draw, hit)
    {
      ghost var s0 := Systems(hexMap.tiles, hexMap.units, ally.money, enemy.money, fireTimer, healQueue, recentShots);
      ghost var ord := hexMap.order;
      UpdateGoldCooldowns(dt);
      ProcessGoldMining(dt, draw);
      ghost var b := Battery(hexMap.tiles, hexMap.units, recentShots);
      ProcessSetpointFire(dt, hit);
      ghost var fired := Battery(hexMap.tiles, hexMap.units, recentShots);
      ProcessHealing(dt);
      UpdateShotEffects(dt);
      SystemsFrameOf(s0, ord, dt, draw, hit, b, fired,
                     Systems(hexMap.tiles, hexMap.units, ally.money, enemy.money, fireTimer, healQueue, recentShots));
    }
  }
}
