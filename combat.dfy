/**
 * The combat block of client.py's frame loop. Battles are fought in rounds
 * of `COMBAT_TICK` seconds: each round every battle deals both sides their
 * damage, marks both units as having fought, and ends when one or both
 * fall, leaving the survivor (or nobody) on the tile.
 */
module Combat {
  import opened Hex
  import opened Units
  import opened Tiles
  import opened HexGrid
  import opened Battles

  /** Seconds per round. */
  const CombatTick: real := 2.0
  /** The damage scale applied to every attack. */
  const CombatSpeed: real := 0.6

  /**
   * The territory multiplier: 1.5 on one's own tile, 0.5 on a foreign one,
   * where a critical hit lifts the 0.5 to 1.0.
   */
  function Multiplier(ownTile: bool, crit: bool): real {
    if crit && !ownTile then 1.0 else if ownTile then 1.5 else 0.5
  }

  /**
   * The damage one side deals in a round, as a multiple of its attack:
   * speed times tick is 1.2, times the multiplier, doubled on a critical hit.
   */
  function Damage(attack: int, ownTile: bool, crit: bool): real {
    var a := attack as real;
    if crit && !ownTile then 2.4 * a
    else if crit then 3.6 * a
    else if ownTile then 1.8 * a
    else 0.6 * a
  }

  /**
   * The table is the formula of the battle loop: attack times speed times
   * multiplier times tick, doubled on a critical hit.
   */
  lemma DamageFormula(attack: int, ownTile: bool, crit: bool)
    ensures var d := attack as real * CombatSpeed * Multiplier(ownTile, crit) * CombatTick;
            Damage(attack, ownTile, crit) == if crit then d * 2.0 else d
  {
  }

  /**
   * A critical hit leaves the home bonus alone and only cancels the
   * foreign-tile penalty; either way it doubles the damage, so it never
   * lowers it for a non-negative attack.
   */
  lemma CritOnlyLiftsPenalty(attack: int, ownTile: bool)
    requires attack >= 0
    ensures Multiplier(true, true) == Multiplier(true, false) == 1.5
    ensures Multiplier(false, true) == 1.0 && Multiplier(false, false) == 0.5
    ensures Damage(attack, ownTile, true) >= Damage(attack, ownTile, false) >= 0.0
    ensures ownTile ==> Damage(attack, ownTile, true) == 2.0 * Damage(attack, ownTile, false)
    ensures !ownTile ==> Damage(attack, ownTile, true) == 4.0 * Damage(attack, ownTile, false)
  {
  }

  /** What a battle's round leaves: the tiles, the units, and whether the battle is over. */
  datatype Fought = Fought(tiles: TileMap, units: UnitStore, finished: bool)

  /** `tile.unit` once a side has fallen: nobody when both fell, else the one left standing. */
  function Survivor(b: Battle, attAlive: bool, defAlive: bool): Option<UnitId> {
    if !attAlive && !defAlive then None
    else if !defAlive then Some(b.att)
    else Some(b.def)
  }

  /**
   * The damage each side deals in a battle's round: to the defender, then
   * to the attacker. Both come from the units as they stand before the
   * round; `critAtt` and `critDef` are the rolls, which count only for
   * Soldiers.
   */
  function Hits(tiles: TileMap, units: UnitStore, b: Battle, critAtt: bool, critDef: bool): (real, real)
    requires b.tile in tiles && b.att in units && b.def in units
  {
    var a := units[b.att];
    var d := units[b.def];
    var owner := tiles[b.tile].owner;
    (Damage(a.attack, owner == a.owner, critAtt && a.name == Soldier),
     Damage(d.attack, owner == d.owner, critDef && d.name == Soldier))
  }

  /**
   * The blows land: both units are marked as having fought, the defender
   * takes `toDef`, then the attacker `toAtt`; if a side has fallen the
   * battle is over and the tile holds the survivor.
   */
  function Clash(tiles: TileMap, units: UnitStore, b: Battle, toDef: real, toAtt: real): Fought
    requires b.tile in tiles && b.att in units && b.def in units
  {
    var u1 := units[b.att := units[b.att].(hasFought := true)];
    var u2 := u1[b.def := u1[b.def].(hasFought := true)];
    var u3 := u2[b.def := u2[b.def].TakeDamage(toDef)];
    var u4 := u3[b.att := u3[b.att].TakeDamage(toAtt)];
    var attAlive := u4[b.att].IsAlive();
    var defAlive := u4[b.def].IsAlive();
    if attAlive && defAlive then Fought(tiles, u4, false)
    else Fought(tiles[b.tile := tiles[b.tile].(unit := Survivor(b, attAlive, defAlive))], u4, true)
  }

  /**
   * One battle's round. A battle naming a unit the store does not know is
   * over at once, as is one whose tile is off the map (which the frame
   * loop never produces).
   */
  function Fight(tiles: TileMap, units: UnitStore, b: Battle, critAtt: bool, critDef: bool): Fought {
    if b.tile !in tiles || b.att !in units || b.def !in units then Fought(tiles, units, true)
    else
      var h := Hits(tiles, units, b, critAtt, critDef);
      Clash(tiles, units, b, h.0, h.1)
  }

  /** Every battle is on a tile of the map. */
  predicate OnMap(tiles: TileMap, battles: seq<Battle>) {
    forall i :: 0 <= i < |battles| ==> battles[i].tile in tiles
  }

  /** What a round leaves: the tiles, the units, the battles not finished. */
  datatype Round = Round(tiles: TileMap, units: UnitStore, battles: seq<Battle>)

  /** One battle's round as the loop applies it: tiles, units, the battle, and its index in the list. */
  type FightStep = (TileMap, UnitStore, Battle, nat) -> Fought

  /**
   * The round over the first `n` battles, in list order, each fought with
   * `fight` on the tiles and units the ones before it left; the battles
   * that are not finished are kept, in order.
   */
  function RoundWith(fight: FightStep, tiles: TileMap, units: UnitStore, battles: seq<Battle>, n: nat): Round
    requires n <= |battles|
  {
    if n == 0 then Round(tiles, units, [])
    else
      var p := RoundWith(fight, tiles, units, battles, n - 1);
      var f := fight(p.tiles, p.units, battles[n - 1], n - 1);
      Round(f.tiles, f.units, p.battles + (if f.finished then [] else [battles[n - 1]]))
  }

  /** `Fight` with the `i`-th battle's rolls `critAtt(i)` and `critDef(i)`. */
  function Rolled(critAtt: nat -> bool, critDef: nat -> bool): FightStep {
    (tiles: TileMap, units: UnitStore, b: Battle, i: nat) => Fight(tiles, units, b, critAtt(i), critDef(i))
  }

  /** The round of the battle loop over its first `n` battles. */
  function RoundOf(tiles: TileMap, units: UnitStore, battles: seq<Battle>, n: nat,
                   critAtt: nat -> bool, critDef: nat -> bool): Round
    requires n <= |battles|
  {
    RoundWith(Rolled(critAtt, critDef), tiles, units, battles, n)
  }

  /** The combat block's state: the tiles, units and battles, and the round timer. */
  datatype Arena = Arena(tiles: TileMap, units: UnitStore, battles: seq<Battle>, accum: real)

  /**
   * The combat block: bank `dt`; with no battles the timer is reset; with
   * battles and a full tick banked, one round is fought and one tick is
   * taken off the timer.
   */
  function CombatFrame(a: Arena, dt: real, critAtt: nat -> bool, critDef: nat -> bool): Arena {
    var acc := a.accum + dt;
    if a.battles == [] then a.(accum := 0.0)
    else if acc < CombatTick then a.(accum := acc)
    else
      var r := RoundOf(a.tiles, a.units, a.battles, |a.battles|, critAtt, critDef);
      Arena(r.tiles, r.units, r.battles, acc - CombatTick)
  }

  // ---------------------------------------------------------------------
  // The loops
  // ---------------------------------------------------------------------

  /** The second half of the battle loop's body: the marks, the damage, the outcome. */
  method LandBlows(tiles: TileMap, units: UnitStore, b: Battle, toDef: real, toAtt: real) returns (r: Fought)
    requires b.tile in tiles && b.att in units && b.def in units
    ensures r == Clash(tiles, units, b, toDef, toAtt)
  {
    var us := units;
    us := us[b.att := us[b.att].(hasFought := true)];
    us := us[b.def := us[b.def].(hasFought := true)];
    us := us[b.def := us[b.def].TakeDamage(toDef)];
    us := us[b.att := us[b.att].TakeDamage(toAtt)];
    ghost var c := Clash(tiles, units, b, toDef, toAtt);
    assert us == c.units;
    var attAlive := us[b.att].IsAlive();
    var defAlive := us[b.def].IsAlive();
    var t := tiles;
    var over := false;
    if !attAlive && !defAlive {
      t := t[b.tile := t[b.tile].(unit := None)];
      over := true;
    } else if !defAlive {
      t := t[b.tile := t[b.tile].(unit := Some(b.att))];
      over := true;
    } else if !attAlive {
      t := t[b.tile := t[b.tile].(unit := Some(b.def))];
      over := true;
    }
    return Fought(t, us, over);
  }

  /** The body of the battle loop, as client.py writes it: the damage of each side, then the blows. */
  method FightOnce(tiles: TileMap, units: UnitStore, b: Battle, critAtt: bool, critDef: bool) returns (r: Fought)
    ensures r == Fight(tiles, units, b, critAtt, critDef)
  {
    if b.tile !in tiles || b.att !in units || b.def !in units {
      return Fought(tiles, units, true);
    }
    var tile := tiles[b.tile];
    var att := units[b.att];
    var def := units[b.def];
    var baseAtt := att.attack as real * CombatSpeed;
    var baseDef := def.attack as real * CombatSpeed;
    var critA := critAtt && att.name == Soldier;
    var critD := critDef && def.name == Soldier;
    var toDef := baseAtt * Multiplier(tile.owner == att.owner, critA) * CombatTick;
    var toAtt := baseDef * Multiplier(tile.owner == def.owner, critD) * CombatTick;
    if critA {
      toDef := toDef * 2.0;
    }
    if critD {
      toAtt := toAtt * 2.0;
    }
    DamageFormula(att.attack, tile.owner == att.owner, critA);
    DamageFormula(def.attack, tile.owner == def.owner, critD);
    assert toDef == Hits(tiles, units, b, critAtt, critDef).0;
    assert toAtt == Hits(tiles, units, b, critAtt, critDef).1;
    r := LandBlows(tiles, units, b, toDef, toAtt);
  }

  /** `for i, b in enumerate(battles)`, then dropping the finished battles. */
  method FightAll(tiles: TileMap, units: UnitStore, battles: seq<Battle>, critAtt: nat -> bool, critDef: nat -> bool)
    returns (r: Round)
    ensures r == RoundOf(tiles, units, battles, |battles|, critAtt, critDef)
  {
    r := Round(tiles, units, []);
    var i := 0;
    while i < |battles|
      invariant 0 <= i <= |battles|
      invariant r == RoundOf(tiles, units, battles, i, critAtt, critDef)
    {
      var f := FightOnce(r.tiles, r.units, battles[i], critAtt(i), critDef(i));
      r := Round(f.tiles, f.units, if f.finished then r.battles else r.battles + [battles[i]]);
      i := i + 1;
    }
  }

  /** The combat block of a frame. */
  method CombatUpdate(a: Arena, dt: real, critAtt: nat -> bool, critDef: nat -> bool) returns (r: Arena)
    ensures r == CombatFrame(a, dt, critAtt, critDef)
  {
    r := a.(accum := a.accum + dt);
    if a.battles != [] {
      if r.accum >= CombatTick {
        var round := FightAll(a.tiles, a.units, a.battles, critAtt, critDef);
        r := Arena(round.tiles, round.units, round.battles, r.accum - CombatTick);
      }
    } else {
      r := r.(accum := 0.0);
    }
  }

  // ---------------------------------------------------------------------
  // What a round does
  // ---------------------------------------------------------------------

  /** `max(0, h - d)`, the clamp of `take_damage`. */
  function Clamped(h: real, d: real): real {
    if h - d < 0.0 then 0.0 else h - d
  }

  /**
   * Both damages come from the units as they were before the round, and
   * both land: each unit keeps its record but for health, clamped after
   * the other's damage, and the `hasFought` mark; no other unit changes.
   */
  lemma FightIsSimultaneous(tiles: TileMap, units: UnitStore, b: Battle, critAtt: bool, critDef: bool)
    requires b.tile in tiles && b.att in units && b.def in units && b.att != b.def
    ensures var r := Fight(tiles, units, b, critAtt, critDef);
            var a := units[b.att];
            var d := units[b.def];
            var owner := tiles[b.tile].owner;
            && r.units[b.def] == d.(hasFought := true,
                 health := Clamped(d.health, Damage(a.attack, owner == a.owner, critAtt && a.name == Soldier)))
            && r.units[b.att] == a.(hasFought := true,
                 health := Clamped(a.health, Damage(d.attack, owner == d.owner, critDef && d.name == Soldier)))
            && (forall id :: id in units && id != b.att && id != b.def ==> r.units[id] == units[id])
  {
  }

  /**
   * A battle ends exactly when a side falls (or a unit is unknown), and
   * the tile then holds the survivor, or nobody when both fall; a battle
   * that goes on leaves every tile as it was. Only the battle's tile can
   * change, and only in its unit.
   */
  lemma FightOutcome(tiles: TileMap, units: UnitStore, b: Battle, critAtt: bool, critDef: bool)
    requires b.tile in tiles
    ensures var r := Fight(tiles, units, b, critAtt, critDef);
            && (b.att in units && b.def in units ==>
                  && (r.finished <==> !r.units[b.att].IsAlive() || !r.units[b.def].IsAlive())
                  && (!r.units[b.att].IsAlive() && !r.units[b.def].IsAlive() ==> r.tiles[b.tile].unit.None?)
                  && (r.units[b.att].IsAlive() && !r.units[b.def].IsAlive() ==> r.tiles[b.tile].unit == Some(b.att))
                  && (!r.units[b.att].IsAlive() && r.units[b.def].IsAlive() ==> r.tiles[b.tile].unit == Some(b.def)))
            && (b.att !in units || b.def !in units ==> r == Fought(tiles, units, true))
            && (!r.finished ==> r.tiles == tiles)
            && (forall c :: c in tiles && c != b.tile ==> c in r.tiles && r.tiles[c] == tiles[c])
            && b.tile in r.tiles && r.tiles[b.tile] == tiles[b.tile].(unit := r.tiles[b.tile].unit)
  {
  }

  /** A fight neither adds nor drops a tile or a unit. */
  lemma FightKeepsKeys(tiles: TileMap, units: UnitStore, b: Battle, critAtt: bool, critDef: bool)
    ensures Fight(tiles, units, b, critAtt, critDef).tiles.Keys == tiles.Keys
    ensures Fight(tiles, units, b, critAtt, critDef).units.Keys == units.Keys
  {
  }

  /** No `hasFought` mark of `before` is cleared in `after`. */
  predicate KeepsMarks(before: UnitStore, after: UnitStore) {
    forall id :: id in before && before[id].hasFought ==> id in after && after[id].hasFought
  }

  /** Both units of `b` are marked in `after` when `before` knows them. */
  predicate MarksBattle(before: UnitStore, after: UnitStore, b: Battle) {
    b.att in before && b.def in before ==>
      && b.att in after && after[b.att].hasFought
      && b.def in after && after[b.def].hasFought
  }

  /** A fight never clears a `hasFought` mark and marks both units of the battle. */
  lemma FightMarks(tiles: TileMap, units: UnitStore, b: Battle, critAtt: bool, critDef: bool)
    requires b.tile in tiles
    ensures KeepsMarks(units, Fight(tiles, units, b, critAtt, critDef).units)
    ensures MarksBattle(units, Fight(tiles, units, b, critAtt, critDef).units, b)
  {
  }

  /** Both units of each of the first `n` battles that `known` holds are marked in `after`. */
  predicate BothMarked(known: UnitStore, after: UnitStore, battles: seq<Battle>, n: nat)
    requires n <= |battles|
  {
    forall k :: 0 <= k < n && battles[k].att in known && battles[k].def in known ==>
      && battles[k].att in after && after[battles[k].att].hasFought
      && battles[k].def in after && after[battles[k].def].hasFought
  }

  /** A fight keeps the marks the earlier battles made and adds its own. */
  lemma BothMarkedAfterFight(known: UnitStore, before: UnitStore, after: UnitStore, battles: seq<Battle>, n: nat)
    requires n < |battles| && BothMarked(known, before, battles, n)
    requires KeepsMarks(before, after) && MarksBattle(before, after, battles[n])
    requires known.Keys <= before.Keys
    ensures BothMarked(known, after, battles, n + 1)
  {
  }

  /**
   * What the round's lemmas need of a fight: it keeps the map's tiles and
   * the store's units, never clears a mark, and marks its own battle.
   */
  ghost predicate FightsWell(fight: FightStep) {
    forall tiles: TileMap, units: UnitStore, b: Battle, i: nat ::
      var f := fight(tiles, units, b, i);
      && f.tiles.Keys == tiles.Keys && f.units.Keys == units.Keys
      && (b.tile in tiles ==> KeepsMarks(units, f.units) && MarksBattle(units, f.units, b))
  }

  /** `Fight`, whatever the rolls, is such a fight. */
  lemma RolledFightsWell(critAtt: nat -> bool, critDef: nat -> bool)
    ensures FightsWell(Rolled(critAtt, critDef))
  {
    forall tiles: TileMap, units: UnitStore, b: Battle, i: nat
      ensures var f := Rolled(critAtt, critDef)(tiles, units, b, i);
              && f.tiles.Keys == tiles.Keys && f.units.Keys == units.Keys
              && (b.tile in tiles ==> KeepsMarks(units, f.units) && MarksBattle(units, f.units, b))
    {
      FightKeepsKeys(tiles, units, b, critAtt(i), critDef(i));
      if b.tile in tiles {
        FightMarks(tiles, units, b, critAtt(i), critDef(i));
      }
    }
  }

  /** A round with such a fight neither adds nor drops a tile or a unit, and marks every battle's units. */
  lemma {:induction false} RoundWithMarks(fight: FightStep, tiles: TileMap, units: UnitStore, battles: seq<Battle>, n: nat)
    requires n <= |battles| && OnMap(tiles, battles) && FightsWell(fight)
    ensures RoundWith(fight, tiles, units, battles, n).tiles.Keys == tiles.Keys
    ensures RoundWith(fight, tiles, units, battles, n).units.Keys == units.Keys
    ensures BothMarked(units, RoundWith(fight, tiles, units, battles, n).units, battles, n)
  {
    if n > 0 {
      RoundWithMarks(fight, tiles, units, battles, n - 1);
      var p := RoundWith(fight, tiles, units, battles, n - 1);
      var f := fight(p.tiles, p.units, battles[n - 1], n - 1);
      BothMarkedAfterFight(units, p.units, f.units, battles, n - 1);
    }
  }

  /** After a round every unit of every battle fought in it has fought, and no tile or unit comes or goes. */
  lemma RoundMarks(tiles: TileMap, units: UnitStore, battles: seq<Battle>, critAtt: nat -> bool, critDef: nat -> bool)
    requires OnMap(tiles, battles)
    ensures var r := RoundOf(tiles, units, battles, |battles|, critAtt, critDef);
            && r.tiles.Keys == tiles.Keys && r.units.Keys == units.Keys
            && BothMarked(units, r.units, battles, |battles|)
  {
    RolledFightsWell(critAtt, critDef);
    RoundWithMarks(Rolled(critAtt, critDef), tiles, units, battles, |battles|);
  }

  /**
   * `kept` is what a round can leave of the first `n` battles: no more of
   * them than were fought, each one of them, one per tile when they were.
   */
  predicate KeptFrom(kept: seq<Battle>, battles: seq<Battle>, n: nat)
    requires n <= |battles|
  {
    && |kept| <= n
    && (forall k :: 0 <= k < |kept| ==> kept[k] in battles[..n])
    && (OnePerTile(battles) ==> OnePerTile(kept))
  }

  /** Keeping the `i`-th battle or not, the list is still one a round can leave. */
  lemma KeptStep(battles: seq<Battle>, i: nat, kept: seq<Battle>, finished: bool)
    requires i < |battles| && KeptFrom(kept, battles, i)
    ensures KeptFrom(kept + (if finished then [] else [battles[i]]), battles, i + 1)
  {
    assert battles[..i + 1] == battles[..i] + [battles[i]];
    if OnePerTile(battles) && !finished {
      forall k | 0 <= k < |kept| ensures kept[k].tile != battles[i].tile {
        var j :| 0 <= j < i && battles[j] == kept[k];
      }
    }
  }

  /** Whatever the fight, the battles a round keeps are among those fought, one per tile when those were. */
  lemma {:induction false} RoundWithKeeps(fight: FightStep, tiles: TileMap, units: UnitStore, battles: seq<Battle>, n: nat)
    requires n <= |battles|
    ensures KeptFrom(RoundWith(fight, tiles, units, battles, n).battles, battles, n)
  {
    if n > 0 {
      RoundWithKeeps(fight, tiles, units, battles, n - 1);
      var p := RoundWith(fight, tiles, units, battles, n - 1);
      KeptStep(battles, n - 1, p.battles, fight(p.tiles, p.units, battles[n - 1], n - 1).finished);
    }
  }

  /** The battles still listed after a round are among those fought, one per tile when those were. */
  lemma RoundKeeps(tiles: TileMap, units: UnitStore, battles: seq<Battle>, critAtt: nat -> bool, critDef: nat -> bool)
    ensures var r := RoundOf(tiles, units, battles, |battles|, critAtt, critDef);
            && |r.battles| <= |battles|
            && (forall k :: 0 <= k < |r.battles| ==> r.battles[k] in battles)
            && (OnePerTile(battles) ==> OnePerTile(r.battles))
  {
    RoundWithKeeps(Rolled(critAtt, critDef), tiles, units, battles, |battles|);
    assert battles[..|battles|] == battles;
  }

  /**
   * A combat block keeps the map's tiles and the store's units, and the
   * battles it leaves are among those it had, on the map and one per tile
   * when those were.
   */
  lemma CombatFrameKeeps(a: Arena, dt: real, critAtt: nat -> bool, critDef: nat -> bool)
    requires OnMap(a.tiles, a.battles)
    ensures var r := CombatFrame(a, dt, critAtt, critDef);
            && r.tiles.Keys == a.tiles.Keys && r.units.Keys == a.units.Keys
            && OnMap(r.tiles, r.battles)
            && (forall k :: 0 <= k < |r.battles| ==> r.battles[k] in a.battles)
            && (OnePerTile(a.battles) ==> OnePerTile(r.battles))
  {
    RoundMarks(a.tiles, a.units, a.battles, critAtt, critDef);
    RoundKeeps(a.tiles, a.units, a.battles, critAtt, critDef);
  }

  /**
   * The round timer: with no battles it is reset and nothing else changes;
   * short of a full tick it only banks the time; with a full tick one round
   * is fought, every battle's units have fought, and one tick is taken
   * off, so a timer that starts non-negative stays so.
   */
  lemma CombatTimer(a: Arena, dt: real, critAtt: nat -> bool, critDef: nat -> bool)
    requires OnMap(a.tiles, a.battles)
    ensures var r := CombatFrame(a, dt, critAtt, critDef);
            && (a.battles == [] ==> r == a.(accum := 0.0))
            && (a.battles != [] && a.accum + dt < CombatTick ==> r == a.(accum := a.accum + dt))
            && (a.battles != [] && a.accum + dt >= CombatTick ==>
                  && r.accum == a.accum + dt - CombatTick
                  && BothMarked(a.units, r.units, a.battles, |a.battles|))
            && (a.accum >= 0.0 && dt >= 0.0 ==> r.accum >= 0.0)
  {
    RoundMarks(a.tiles, a.units, a.battles, critAtt, critDef);
  }
}
