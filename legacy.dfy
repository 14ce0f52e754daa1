/**
 * The older game object (game_logic.py): gold is collected on demand by a
 * side from every mine it owns whose cooldown is over, and cooldowns are
 * whole numbers that fall by one per call of `update_cooldowns`. The map is
 * the radius-6 map of game/hex_map.py. `draw(c)` is the amount
 * `randint(50, 2000)` gives for the mine at `c`.
 */
module LegacyEconomy {
  import opened Hex
  import opened Units
  import opened Tiles
  import opened HexGrid
  import opened Players
  import opened Economy

  const LegacyCooldown: real := 12.0

  /** A mine `side` may collect from: gold, owned by `side`, cooldown over. */
  predicate Collectable(t: Tile, side: Side) {
    t.terrain == Gold && t.owner == side && t.goldCooldown <= 0.0
  }

  /** One pass of the `collect_gold` loop on tile `t`, with `amount` the new draw. */
  function CollectTile(t: Tile, side: Side, amount: int): Tile {
    if Collectable(t, side) then t.(goldAmount := amount, goldCooldown := LegacyCooldown) else t
  }

  function Collected(tiles: TileMap, side: Side, draw: Coord -> int): (t: TileMap)
    ensures SameKeys(tiles, t)
  {
    map c | c in tiles :: CollectTile(tiles[c], side, draw(c))
  }

  /** The money `collect_gold(side)` credits for the mines listed in `cs`: their stored amounts. */
  function Collection(tiles: TileMap, cs: seq<Coord>, side: Side): int {
    if cs == [] then 0
    else
      var c := cs[|cs| - 1];
      Collection(tiles, cs[..|cs| - 1], side)
      + (if c in tiles && Collectable(tiles[c], side) then tiles[c].goldAmount else 0)
  }

  /**
   * The rules of `collect_gold` for one tile: a collectable mine pays the
   * amount it stored, then stores the new draw and a cooldown of 12; any
   * other tile is left as it is.
   */
  lemma CollectRules(tiles: TileMap, side: Side, draw: Coord -> int, c: Coord)
    requires c in tiles
    ensures var t := Collected(tiles, side, draw)[c];
            && (Collectable(tiles[c], side) ==>
                  t == tiles[c].(goldAmount := draw(c), goldCooldown := LegacyCooldown))
            && (!Collectable(tiles[c], side) ==> t == tiles[c])
            && !Collectable(t, side)
  {
  }

  /** A list with no collectable mine pays nothing. */
  lemma {:induction false} NothingCollectable(tiles: TileMap, cs: seq<Coord>, side: Side)
    requires forall c :: c in cs && c in tiles ==> !Collectable(tiles[c], side)
    ensures Collection(tiles, cs, side) == 0
  {
    if cs != [] {
      NothingCollectable(tiles, cs[..|cs| - 1], side);
    }
  }

  /** A second `collect_gold` right after the first credits nothing: every mine it paid is cooling. */
  lemma SecondCollectPaysNothing(tiles: TileMap, cs: seq<Coord>, side: Side, draw: Coord -> int)
    ensures Collection(Collected(tiles, side, draw), cs, side) == 0
  {
    var t := Collected(tiles, side, draw);
    forall c | c in cs && c in t ensures !Collectable(t[c], side) {
      CollectRules(tiles, side, draw, c);
    }
    NothingCollectable(t, cs, side);
  }

  /** Stored amounts come from [50, 2000], so collecting never takes money away. */
  lemma {:induction false} CollectionNonNegative(tiles: TileMap, cs: seq<Coord>, side: Side)
    requires forall c :: c in tiles ==> tiles[c].goldAmount >= 0
    ensures Collection(tiles, cs, side) >= 0
  {
    if cs != [] {
      CollectionNonNegative(tiles, cs[..|cs| - 1], side);
    }
  }

  /** Collecting for one side touches no mine of the other side. */
  lemma CollectLeavesOtherSide(tiles: TileMap, side: Side, draw: Coord -> int, c: Coord)
    requires c in tiles && tiles[c].owner != side
    ensures Collected(tiles, side, draw)[c] == tiles[c]
  {
  }

  function CollectedPrefix(t0: TileMap, done: seq<Coord>, side: Side, draw: Coord -> int): TileMap {
    map x | x in t0 :: if x in done then CollectTile(t0[x], side, draw(x)) else t0[x]
  }

  lemma CollectedPrefixStep(t0: TileMap, ord: seq<Coord>, i: nat, side: Side, draw: Coord -> int)
    requires OrderOk(ord, t0) && NoDuplicates(ord) && i < |ord|
    ensures var t := CollectedPrefix(t0, ord[..i], side, draw);
            var c := ord[i];
            && c in t && t[c] == t0[c]
            && CollectedPrefix(t0, ord[..i + 1], side, draw) == t[c := CollectTile(t0[c], side, draw(c))]
  {
    var c := ord[i];
    assert c !in ord[..i];
    assert ord[..i + 1] == ord[..i] + [c];
    var t := CollectedPrefix(t0, ord[..i], side, draw);
    var t2 := CollectedPrefix(t0, ord[..i + 1], side, draw);
    assert t2.Keys == t.Keys;
    forall x | x in t2 ensures t2[x] == t[c := CollectTile(t0[c], side, draw(c))][x] {
      assert x in ord[..i + 1] <==> x in ord[..i] || x == c;
    }
  }

  lemma CollectionStep(t0: TileMap, ord: seq<Coord>, i: nat, side: Side)
    requires OrderOk(ord, t0) && i < |ord|
    ensures var c := ord[i];
            Collection(t0, ord[..i + 1], side)
            == Collection(t0, ord[..i], side) + (if Collectable(t0[c], side) then t0[c].goldAmount else 0)
  {
    assert ord[..i + 1][..i] == ord[..i];
  }

  /** The loop of `collect_gold` over the tiles in dictionary order: the new tiles and the money credited. */
  method CollectAll(t0: TileMap, ord: seq<Coord>, side: Side, draw: Coord -> int) returns (t: TileMap, gain: int)
    requires OrderOk(ord, t0)
    ensures t == Collected(t0, side, draw)
    ensures gain == Collection(t0, ord, side)
  {
    SortedDistinct(ord);
    t := t0;
    gain := 0;
    var i := 0;
    while i < |ord|
      invariant 0 <= i <= |ord|
      invariant t == CollectedPrefix(t0, ord[..i], side, draw)
      invariant gain == Collection(t0, ord[..i], side)
    {
      var c := ord[i];
      CollectedPrefixStep(t0, ord, i, side, draw);
      CollectionStep(t0, ord, i, side);
      if Collectable(t[c], side) {
        gain := gain + t[c].goldAmount;
      }
      t := t[c := CollectTile(t[c], side, draw(c))];
      i := i + 1;
    }
    assert ord[..i] == ord;
    CollectedPrefixComplete(t0, ord, side, draw);
  }

  lemma CollectedPrefixComplete(t0: TileMap, ord: seq<Coord>, side: Side, draw: Coord -> int)
    requires forall c :: c in ord <==> c in t0
    ensures CollectedPrefix(t0, ord, side, draw) == Collected(t0, side, draw)
  {
  }

  // ---------------------------------------------------------------------
  // Whole-number cooldowns
  // ---------------------------------------------------------------------

  /** One pass of `update_cooldowns` on a tile: a positive cooldown drops by one. */
  function TickTile(t: Tile): Tile {
    if t.goldCooldown > 0.0 then t.(goldCooldown := t.goldCooldown - 1.0) else t
  }

  function Ticked(tiles: TileMap): (t: TileMap)
    ensures SameKeys(tiles, t)
  {
    map c | c in tiles :: TickTile(tiles[c])
  }

  /** `n` calls of `update_cooldowns` on one tile. */
  function TickedTimes(t: Tile, n: nat): Tile {
    if n == 0 then t else TickTile(TickedTimes(t, n - 1))
  }

  predicate WholeNumber(x: real) {
    x == x.Floor as real
  }

  /**
   * A cooldown that is a non-negative whole number stays one after an
   * update, so it never becomes negative; nothing else of the tile changes.
   */
  lemma TickKeepsWhole(t: Tile)
    requires WholeNumber(t.goldCooldown) && t.goldCooldown >= 0.0
    ensures var s := TickTile(t);
            && WholeNumber(s.goldCooldown) && s.goldCooldown >= 0.0
            && s == t.(goldCooldown := s.goldCooldown)
  {
    if t.goldCooldown > 0.0 {
      var k := t.goldCooldown.Floor;
      assert k >= 1;
      assert (t.goldCooldown - 1.0).Floor == k - 1;
    }
  }

  /** After `n` updates a whole cooldown `k` reads `max(k - n, 0)`. */
  lemma {:induction false} TickedTimesValue(t: Tile, k: nat, n: nat)
    requires t.goldCooldown == k as real
    ensures TickedTimes(t, n).goldCooldown == (if n <= k then (k - n) as real else 0.0)
    ensures TickedTimes(t, n) == t.(goldCooldown := TickedTimes(t, n).goldCooldown)
  {
    if n > 0 {
      TickedTimesValue(t, k, n - 1);
    }
  }

  /** Twelve calls of `update_cooldowns` bring a freshly collected mine back to zero. */
  lemma TwelveTicksReopen(t: Tile)
    requires t.goldCooldown == LegacyCooldown
    ensures TickedTimes(t, 12).goldCooldown == 0.0
    ensures forall n: nat :: n < 12 ==> TickedTimes(t, n).goldCooldown > 0.0
  {
    forall n: nat | n <= 12 ensures TickedTimes(t, n).goldCooldown == (12 - n) as real {
      TickedTimesValue(t, 12, n);
    }
  }

  function TickedPrefix(t0: TileMap, done: seq<Coord>): TileMap {
    map x | x in t0 :: if x in done then TickTile(t0[x]) else t0[x]
  }

  lemma TickedPrefixStep(t0: TileMap, ord: seq<Coord>, i: nat)
    requires OrderOk(ord, t0) && NoDuplicates(ord) && i < |ord|
    ensures var t := TickedPrefix(t0, ord[..i]);
            var c := ord[i];
            && c in t && t[c] == t0[c]
            && TickedPrefix(t0, ord[..i + 1]) == t[c := TickTile(t0[c])]
  {
    var c := ord[i];
    assert ord[..i + 1] == ord[..i] + [c];
    assert c !in ord[..i];
  }

  /** The loop of `update_cooldowns` over the tiles in dictionary order. */
  method TickAll(t0: TileMap, ord: seq<Coord>) returns (t: TileMap)
    requires OrderOk(ord, t0)
    ensures t == Ticked(t0)
  {
    SortedDistinct(ord);
    t := t0;
    var i := 0;
    while i < |ord|
      invariant 0 <= i <= |ord|
      invariant t == TickedPrefix(t0, ord[..i])
    {
      var c := ord[i];
      TickedPrefixStep(t0, ord, i);
      if t[c].goldCooldown > 0.0 {
        t := t[c := t[c].(goldCooldown := t[c].goldCooldown - 1.0)];
      }
      i := i + 1;
    }
    assert ord[..i] == ord;
  }

  // ---------------------------------------------------------------------
  // The game object
  // ---------------------------------------------------------------------

  class LegacyGame {
    const hexMap: HexMap
    const ally: Player
    const enemy: Player
    var turn: int

    ghost predicate Valid()
      reads this, hexMap, ally, enemy
    {
      hexMap.Valid() && ally != enemy && ally.name == Ally && enemy.name == Enemy
    }

    function PlayerOf(s: Side): Player
      reads this
    {
      if s == Ally then ally else enemy
    }

    /** `Game()` of game_logic.py: the radius-6 map, both players, turn 0. */
    constructor (allyPick: nat, enemyPick: nat, allyAmount: int, enemyAmount: int)
      requires GoldAmountMin <= allyAmount <= GoldAmountMax && GoldAmountMin <= enemyAmount <= GoldAmountMax
      ensures Valid() && fresh(hexMap) && fresh(ally) && fresh(enemy)
      ensures ally.money == StartingMoney && enemy.money == StartingMoney
      ensures ally.inventory == [] && enemy.inventory == []
      ensures turn == 0
    {
      var m, a, e := NewGameObjects(allyPick, enemyPick, allyAmount, enemyAmount);
      hexMap, ally, enemy := m, a, e;
      turn := 0;
    }

    /** `collect_gold(side)`: credit `side` with the stored amount of each of its open mines. */
    method CollectGold(side: Side, draw: Coord -> int)
      requires Valid()
      modifies hexMap, PlayerOf(side)
      ensures Valid() && hexMap.order == old(hexMap.order) && hexMap.units == old(hexMap.units)
      ensures hexMap.tiles == Collected(old(hexMap.tiles), side, draw)
      ensures SameOwners(old(hexMap.tiles), hexMap.tiles)
      ensures PlayerOf(side).money == old(PlayerOf(side).money) + Collection(old(hexMap.tiles), hexMap.order, side)
      ensures PlayerOf(side).inventory == old(PlayerOf(side).inventory)
    {
      var t, gain := CollectAll(hexMap.tiles, hexMap.order, side, draw);
      SlotChangeKeepsShape(hexMap.tiles, t, hexMap.order, hexMap.size);
      hexMap.tiles := t;
      var p := PlayerOf(side);
      p.money := p.money + gain;
    }

    /** `update_cooldowns`: every positive cooldown drops by one. */
    method UpdateCooldowns()
      requires Valid()
      modifies hexMap
      ensures Valid() && hexMap.order == old(hexMap.order) && hexMap.units == old(hexMap.units)
      ensures hexMap.tiles == Ticked(old(hexMap.tiles))
      ensures SameOwners(old(hexMap.tiles), hexMap.tiles)
    {
      var t := TickAll(hexMap.tiles, hexMap.order);
      SlotChangeKeepsShape(hexMap.tiles, t, hexMap.order, hexMap.size);
      hexMap.tiles := t;
    }
  }
}
