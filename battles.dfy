/**
 * The battle list of client.py: each entry names the tile fought over and
 * the attacking and defending units. `add_battle_once` refuses a second
 * battle on a tile that already has one, so a tile is fought over by at
 * most one pair at a time.
 */
module Battles {
  import opened Hex
  import opened Units

  /** A battle: the tile, the unit that moved in, the unit that stood there. */
  datatype Battle = Battle(tile: Coord, att: UnitId, def: UnitId)

  /** Some battle of the list is on tile `c`. */
  predicate OnTile(battles: seq<Battle>, c: Coord) {
    exists i :: 0 <= i < |battles| && battles[i].tile == c
  }

  /** No two battles of the list share a tile. */
  predicate OnePerTile(battles: seq<Battle>) {
    forall i, j :: 0 <= i < j < |battles| ==> battles[i].tile != battles[j].tile
  }

  /** The list after `add_battle_once(battles, b.tile, b.att, b.def)`. */
  function WithBattle(battles: seq<Battle>, b: Battle): seq<Battle> {
    if OnTile(battles, b.tile) then battles else battles + [b]
  }

  /** `add_battle_once`: the scan over the list, then the append. */
  method AddBattleOnce(battles: seq<Battle>, b: Battle) returns (added: bool, result: seq<Battle>)
    ensures added <==> !OnTile(battles, b.tile)
    ensures result == WithBattle(battles, b)
  {
    var i := 0;
    while i < |battles|
      invariant 0 <= i <= |battles|
      invariant forall j :: 0 <= j < i ==> battles[j].tile != b.tile
    {
      if battles[i].tile == b.tile {
        return false, battles;
      }
      i := i + 1;
    }
    return true, battles + [b];
  }

  /** Adding keeps every tile to at most one battle, and afterwards the tile has one. */
  lemma WithBattleKeepsOnePerTile(battles: seq<Battle>, b: Battle)
    requires OnePerTile(battles)
    ensures OnePerTile(WithBattle(battles, b))
    ensures OnTile(WithBattle(battles, b), b.tile)
  {
    if !OnTile(battles, b.tile) {
      var r := battles + [b];
      assert r[|battles|].tile == b.tile;
    }
  }

  /**
   * Adding twice on one tile is adding once: the second call finds the
   * first battle and leaves the list, whoever it names.
   */
  lemma WithBattleIdempotent(battles: seq<Battle>, b: Battle, b2: Battle)
    requires b2.tile == b.tile
    ensures WithBattle(WithBattle(battles, b), b2) == WithBattle(battles, b)
  {
    var r := WithBattle(battles, b);
    if !OnTile(battles, b.tile) {
      assert r[|battles|].tile == b.tile;
    }
  }

  /** Adding never drops or reorders a battle already in the list. */
  lemma WithBattleExtends(battles: seq<Battle>, b: Battle)
    ensures battles <= WithBattle(battles, b)
    ensures |WithBattle(battles, b)| <= |battles| + 1
  {
  }
}
