/**
 * The hexagonal map: generation of the hexagon of radius `size`, the
 * ownership split at q < 0, boundary flags, the two pinpoints and the gold
 * mines, and the neighbour relation. Both generations of the map class
 * are here: the constructor `HexMap` (radius 6 in the game, one gold mine
 * per side) and the constructor `Legacy` (radius 8, one ally gold mine,
 * boundary loop without `break`).
 */
module HexGrid {
  import opened Hex
  import opened Units
  import opened Tiles

  type TileMap = map<Coord, Tile>

  // ---------------------------------------------------------------------
  // Neighbours
  // ---------------------------------------------------------------------

  /** Neighbours of `c` among the offsets `ds`, in the order of `ds`, keeping those on the map. */
  function NeighborsFrom(keys: set<Coord>, c: Coord, ds: seq<Coord>): (ns: seq<Coord>)
    ensures |ns| <= |ds|
    ensures forall n :: n in ns ==> n in keys
  {
    if ds == [] then []
    else
      var d := ds[|ds| - 1];
      NeighborsFrom(keys, c, ds[..|ds| - 1]) + (if c.Plus(d) in keys then [c.Plus(d)] else [])
  }

  /** The neighbours found among `ds` are the map's tiles at one of those offsets. */
  lemma {:induction false} NeighborsFromMembers(keys: set<Coord>, c: Coord, ds: seq<Coord>)
    ensures forall n :: n in NeighborsFrom(keys, c, ds) <==> n in keys && exists i :: 0 <= i < |ds| && n == c.Plus(ds[i])
  {
    if ds != [] {
      var pre := ds[..|ds| - 1];
      NeighborsFromMembers(keys, c, pre);
      assert forall i :: 0 <= i < |pre| ==> pre[i] == ds[i];
    }
  }

  /** `neighbors(q, r)`: the existing tiles at the six offsets, in offset order. */
  function NeighborsOf(keys: set<Coord>, c: Coord): seq<Coord> {
    NeighborsFrom(keys, c, Directions)
  }

  /** `b` is one of the six offsets away from `a`. */
  predicate Adjacent(a: Coord, b: Coord) {
    Coord(b.q - a.q, b.r - a.r) in Directions
  }

  predicate NoDuplicates(s: seq<Coord>) {
    forall i, j :: 0 <= i < j < |s| ==> s[i] != s[j]
  }

  lemma {:induction false} NeighborsFromDistinct(keys: set<Coord>, c: Coord, ds: seq<Coord>)
    requires NoDuplicates(ds)
    ensures NoDuplicates(NeighborsFrom(keys, c, ds))
  {
    if ds != [] {
      var d := ds[|ds| - 1];
      var pre := ds[..|ds| - 1];
      NeighborsFromDistinct(keys, c, pre);
      NeighborsFromMembers(keys, c, pre);
      var ns := NeighborsFrom(keys, c, pre);
      assert forall i :: 0 <= i < |pre| ==> pre[i] == ds[i] && pre[i] != d;
      assert c.Plus(d) !in ns;
    }
  }

  /**
   * The neighbour list of `c` holds exactly the tiles of the map adjacent to
   * `c`, each once, so at most six.
   */
  lemma NeighborsExactlyAdjacent(keys: set<Coord>, c: Coord)
    ensures forall n :: n in NeighborsOf(keys, c) <==> n in keys && Adjacent(c, n)
    ensures NoDuplicates(NeighborsOf(keys, c)) && |NeighborsOf(keys, c)| <= 6
  {
    NeighborsFromDistinct(keys, c, Directions);
    NeighborsFromMembers(keys, c, Directions);
    forall n ensures n in NeighborsOf(keys, c) <==> n in keys && Adjacent(c, n) {
      if n in keys && Adjacent(c, n) {
        var d := Coord(n.q - c.q, n.r - c.r);
        var i :| 0 <= i < |Directions| && Directions[i] == d;
        assert n == c.Plus(Directions[i]);
      }
    }
  }

  /** Adjacency between two tiles of the map is symmetric. */
  lemma NeighborsSymmetric(keys: set<Coord>, a: Coord, b: Coord)
    requires a in keys && b in keys
    ensures b in NeighborsOf(keys, a) <==> a in NeighborsOf(keys, b)
  {
    NeighborsExactlyAdjacent(keys, a);
    NeighborsExactlyAdjacent(keys, b);
    if Adjacent(a, b) {
      DirectionOpposite(Coord(b.q - a.q, b.r - a.r));
    }
    if Adjacent(b, a) {
      DirectionOpposite(Coord(a.q - b.q, a.r - b.r));
    }
  }

  // ---------------------------------------------------------------------
  // Ownership and boundaries
  // ---------------------------------------------------------------------

  /** The starting split: q < 0 is ally ground, the rest enemy ground. */
  function InitialOwner(c: Coord): Side {
    if c.q < 0 then Ally else Enemy
  }

  /** Some neighbour of `c` has a different owner. */
  predicate ForeignNeighbor(tiles: TileMap, c: Coord)
    requires c in tiles
  {
    exists n :: n in NeighborsOf(tiles.Keys, c) && tiles[n].owner != tiles[c].owner
  }

  /** Every boundary flag agrees with the owners around its tile. */
  predicate BoundariesConsistent(tiles: TileMap) {
    forall c :: c in tiles ==> tiles[c].boundary == ForeignNeighbor(tiles, c)
  }

  /** The same tiles with every boundary flag recomputed from the owners. */
  function WithBoundaries(tiles: TileMap): (t: TileMap)
    ensures t.Keys == tiles.Keys && BoundariesConsistent(t)
    ensures forall c :: c in t ==> t[c] == tiles[c].(boundary := t[c].boundary)
  {
    var t := map c | c in tiles :: tiles[c].(boundary := ForeignNeighbor(tiles, c));
    assert forall c :: c in t ==> ForeignNeighbor(t, c) == ForeignNeighbor(tiles, c) by {
      forall c | c in t ensures ForeignNeighbor(t, c) == ForeignNeighbor(tiles, c) {
        ForeignNeighborOnlyOwners(t, tiles, c);
      }
    }
    t
  }

  /** Two maps with the same tiles and the same owners. */
  predicate SameOwners(a: TileMap, b: TileMap) {
    a.Keys == b.Keys && forall c :: c in a ==> a[c].owner == b[c].owner
  }

  /** Boundary flags depend on nothing but the owners. */
  lemma ForeignNeighborOnlyOwners(a: TileMap, b: TileMap, c: Coord)
    requires SameOwners(a, b) && c in a
    ensures ForeignNeighbor(a, c) == ForeignNeighbor(b, c)
  {
    if ForeignNeighbor(a, c) {
      var n :| n in NeighborsOf(a.Keys, c) && a[n].owner != a[c].owner;
      assert n in NeighborsOf(b.Keys, c) && b[n].owner != b[c].owner;
    }
    if ForeignNeighbor(b, c) {
      var n :| n in NeighborsOf(b.Keys, c) && b[n].owner != b[c].owner;
      assert n in NeighborsOf(a.Keys, c) && a[n].owner != a[c].owner;
    }
  }

  /** The boundary loop's result: flags set where a differently owned neighbour exists, others kept. */
  function Marked(tiles: TileMap): (t: TileMap)
    ensures t.Keys == tiles.Keys
  {
    map c | c in tiles :: if ForeignNeighbor(tiles, c) then tiles[c].(boundary := true) else tiles[c]
  }

  /** The flag a tile carries after the boundary loop. */
  predicate MarkedFlag(tiles: TileMap, c: Coord)
    requires c in tiles
  {
    tiles[c].boundary || ForeignNeighbor(tiles, c)
  }

  /** Every flag cleared. */
  function Cleared(tiles: TileMap): (t: TileMap)
    ensures t.Keys == tiles.Keys
  {
    map c | c in tiles :: tiles[c].(boundary := false)
  }

  /** Two maps with the same tiles at the same coordinates. */
  predicate SameGrid(a: TileMap, b: TileMap) {
    a.Keys == b.Keys && forall c :: c in a ==> a[c].Key() == b[c].Key()
  }

  lemma MarkedKeepsGrid(tiles: TileMap)
    ensures SameGrid(tiles, Marked(tiles)) && SameOwners(tiles, Marked(tiles))
  {
  }

  /**
   * Clearing every flag and then marking is the recomputation: every flag
   * afterwards agrees with the owners, whatever the flags were before.
   */
  lemma ClearThenMark(tiles: TileMap)
    ensures Marked(Cleared(tiles)) == WithBoundaries(tiles)
  {
    var m := Marked(Cleared(tiles));
    forall c | c in tiles ensures m[c] == WithBoundaries(tiles)[c] {
      ForeignNeighborOnlyOwners(Cleared(tiles), tiles, c);
    }
  }

  // ---------------------------------------------------------------------
  // Dictionary order, extremes, gold-mine candidates
  // ---------------------------------------------------------------------

  predicate LexLess(a: Coord, b: Coord) {
    a.q < b.q || (a.q == b.q && a.r < b.r)
  }

  /** The insertion order of the generator: strictly increasing in (q, r). */
  predicate Sorted(s: seq<Coord>) {
    forall i, j :: 0 <= i < j < |s| ==> LexLess(s[i], s[j])
  }

  /** A sorted sequence has no repeated coordinate. */
  lemma SortedDistinct(s: seq<Coord>)
    requires Sorted(s)
    ensures NoDuplicates(s)
  {
  }

  /** The cells (q, r) of row q with lo <= r <= hi. */
  function RowCells(q: int, lo: int, hi: int): set<Coord>
    decreases hi - lo
  {
    if lo > hi then {} else {Coord(q, lo)} + RowCells(q, lo + 1, hi)
  }

  /** The rows q, q + 1, ..., size of the hexagon of radius `size`. */
  function RowsFrom(size: int, q: int): set<Coord>
    decreases size - q
  {
    if q > size then {}
    else
      var lo := if -size >= -q - size then -size else -q - size;
      var hi := if size <= -q + size then size else -q + size;
      RowCells(q, lo, hi) + RowsFrom(size, q + 1)
  }

  /** The coordinates of the hexagon of radius `size`. */
  function HexagonCells(size: int): set<Coord> {
    RowsFrom(size, -size)
  }

  lemma {:induction false} RowCellsMembers(q: int, lo: int, hi: int)
    ensures forall c :: c in RowCells(q, lo, hi) <==> c.q == q && lo <= c.r <= hi
    decreases hi - lo
  {
    if lo <= hi {
      RowCellsMembers(q, lo + 1, hi);
    }
  }

  lemma {:induction false} RowsFromMembers(size: int, q: int)
    requires -size <= q
    ensures forall c :: c in RowsFrom(size, q) <==> InHexagon(c, size) && c.q >= q
    decreases size - q
  {
    if q <= size {
      var lo := if -size >= -q - size then -size else -q - size;
      var hi := if size <= -q + size then size else -q + size;
      RowCellsMembers(q, lo, hi);
      RowsFromMembers(size, q + 1);
    }
  }

  lemma HexagonCellsMembers(size: int)
    ensures forall c :: c in HexagonCells(size) <==> InHexagon(c, size)
  {
    RowsFromMembers(size, -size);
  }

  /** `min(q for q, _ in tiles.keys())` */
  function MinQ(s: seq<Coord>): int
    requires s != []
  {
    if |s| == 1 then s[0].q
    else
      var rest := MinQ(s[1..]);
      if s[0].q <= rest then s[0].q else rest
  }

  /** `max(q for q, _ in tiles.keys())` */
  function MaxQ(s: seq<Coord>): int
    requires s != []
  {
    if |s| == 1 then s[0].q
    else
      var rest := MaxQ(s[1..]);
      if s[0].q >= rest then s[0].q else rest
  }

  /** MinQ and MaxQ are the least and the greatest column, each attained. */
  lemma {:induction false} ExtremesAttained(s: seq<Coord>)
    requires s != []
    ensures forall c :: c in s ==> MinQ(s) <= c.q <= MaxQ(s)
    ensures exists c :: c in s && c.q == MinQ(s)
    ensures exists c :: c in s && c.q == MaxQ(s)
  {
    if |s| > 1 {
      ExtremesAttained(s[1..]);
      assert forall c :: c in s ==> c == s[0] || c in s[1..];
      var lo :| lo in s[1..] && lo.q == MinQ(s[1..]);
      var hi :| hi in s[1..] && hi.q == MaxQ(s[1..]);
      assert lo in s && hi in s;
    }
  }

  /** On the hexagon of radius `size` the extreme columns are q = -size and q = size. */
  lemma ExtremeColumns(s: seq<Coord>, size: int)
    requires size >= 1 && forall c :: c in s <==> c in HexagonCells(size)
    ensures s != [] && MinQ(s) == -size && MaxQ(s) == size
  {
    HexagonCellsMembers(size);
    assert Coord(-size, 0) in s && Coord(size, 0) in s;
    ExtremesAttained(s);
    var lo :| lo in s && lo.q == MinQ(s);
    var hi :| hi in s && hi.q == MaxQ(s);
  }

  /**
   * The gold-mine candidate list of a side: its tiles in dictionary order,
   * only the non-boundary ones when `interiorOnly`.
   */
  function SideTiles(tiles: TileMap, order: seq<Coord>, side: Side, interiorOnly: bool): seq<Coord> {
    if order == [] then []
    else
      var rest := SideTiles(tiles, order[1..], side, interiorOnly);
      var c := order[0];
      if c in tiles && tiles[c].owner == side && (interiorOnly ==> !tiles[c].boundary) then [c] + rest else rest
  }

  /** The candidate list holds exactly the listed tiles of the side (interior ones when asked). */
  lemma {:induction false} SideTilesMembers(tiles: TileMap, order: seq<Coord>, side: Side, interiorOnly: bool)
    ensures forall c :: c in SideTiles(tiles, order, side, interiorOnly) <==>
                        c in order && c in tiles && tiles[c].owner == side && (interiorOnly ==> !tiles[c].boundary)
  {
    if order != [] {
      SideTilesMembers(tiles, order[1..], side, interiorOnly);
      assert forall c :: c in order <==> c == order[0] || c in order[1..];
    }
  }

  /** The candidates of `_place_gold_mines`: the side's interior tiles, or all its tiles if it has none. */
  function GoldCandidates(tiles: TileMap, order: seq<Coord>, side: Side): seq<Coord> {
    var inner := SideTiles(tiles, order, side, true);
    if inner != [] then inner else SideTiles(tiles, order, side, false)
  }

  /**
   * The tile `random.choice` picks from the candidates, the random draw
   * given as a natural number reduced modulo the candidate count; none
   * when the list is empty, where `random.choice` raises.
   */
  function GoldChoice(tiles: TileMap, order: seq<Coord>, side: Side, pick: nat): (g: Option<Coord>)
    ensures g.Some? ==> g.value in order && g.value in tiles && tiles[g.value].owner == side
  {
    SideTilesMembers(tiles, order, side, true);
    SideTilesMembers(tiles, order, side, false);
    var cands := GoldCandidates(tiles, order, side);
    if cands == [] then None
    else
      assert cands[pick % |cands|] in cands;
      Some(cands[pick % |cands|])
  }

  /**
   * `_place_gold_mines` finds a tile exactly when the side owns one, and
   * takes an interior tile whenever the side has one.
   */
  lemma GoldChoiceSpec(tiles: TileMap, order: seq<Coord>, side: Side, pick: nat)
    ensures var g := GoldChoice(tiles, order, side, pick);
            && (g.Some? <==> exists x :: x in order && x in tiles && tiles[x].owner == side)
            && (g.Some? && (exists x :: x in order && x in tiles && tiles[x].owner == side && !tiles[x].boundary)
                ==> !tiles[g.value].boundary)
  {
    var g := GoldChoice(tiles, order, side, pick);
    SideTilesMembers(tiles, order, side, true);
    SideTilesMembers(tiles, order, side, false);
    if exists y :: y in order && y in tiles && tiles[y].owner == side && !tiles[y].boundary {
      var y :| y in order && y in tiles && tiles[y].owner == side && !tiles[y].boundary;
      assert y in SideTiles(tiles, order, side, true);
    }
    if exists y :: y in order && y in tiles && tiles[y].owner == side {
      var y :| y in order && y in tiles && tiles[y].owner == side;
      assert y in SideTiles(tiles, order, side, false);
    }
  }


  /** The legacy rule: only interior ally tiles are candidates, with no fallback. */
  function LegacyGoldCandidates(tiles: TileMap, order: seq<Coord>): seq<Coord> {
    SideTiles(tiles, order, Ally, true)
  }

  lemma SideTilesOnlyOwners(a: TileMap, b: TileMap, order: seq<Coord>, side: Side, interiorOnly: bool)
    requires SameGrid(a, b)
    requires forall c :: c in a ==> a[c].owner == b[c].owner && a[c].boundary == b[c].boundary
    ensures SideTiles(a, order, side, interiorOnly) == SideTiles(b, order, side, interiorOnly)
  {
    if order != [] {
      SideTilesOnlyOwners(a, b, order[1..], side, interiorOnly);
    }
  }

  // ---------------------------------------------------------------------
  // The stages of map generation, as functions of the tiles
  // ---------------------------------------------------------------------

  /** What `_generate_map` builds: a fresh ally tile on every cell of the hexagon. */
  function Fresh(size: int): TileMap {
    map c | c in HexagonCells(size) :: NewTile(c, Ally)
  }

  /** The first loop of `_setup_starting_ownership`. */
  function Split(t: TileMap): (s: TileMap)
    ensures s.Keys == t.Keys
  {
    map c | c in t :: t[c].(owner := InitialOwner(c))
  }

  /** The starting ownership in closed form: the starting tile of every cell of the hexagon. */
  function StartingOwnership(size: int): TileMap {
    map c | c in HexagonCells(size) :: StartTile(c)
  }

  /** The tile at `c` given the unit `id`, by `place_unit` on an empty tile. */
  function WithUnit(t: TileMap, c: Coord, id: UnitId): (s: TileMap)
    ensures s.Keys == t.Keys
  {
    if c in t then t[c := t[c].(unit := Some(id))] else t
  }

  /** `_place_pinpoints` with the store identities 0 (ally) and 1 (enemy). */
  function WithPinpoints(t: TileMap, size: int): TileMap {
    WithUnit(WithUnit(t, Coord(-size, 0), 0), Coord(size, 0), 1)
  }

  /** One pass of the gold loop of game/hex_map.py. */
  function WithGold(t: TileMap, c: Coord, amount: int): (s: TileMap)
    ensures s.Keys == t.Keys
  {
    if c in t then t[c := t[c].(terrain := Gold, goldCooldown := 0.0, goldAmount := amount, goldTimer := 0.0)] else t
  }

  /** `_place_gold_mine` of hex_map.py, which leaves the mining timer alone. */
  function WithLegacyGold(t: TileMap, c: Coord, amount: int): (s: TileMap)
    ensures s.Keys == t.Keys
  {
    if c in t then t[c := t[c].(terrain := Gold, goldCooldown := 0.0, goldAmount := amount)] else t
  }

  /** The owner-split map after a loop over the tiles in `done`. */
  function SplitPrefix(t0: TileMap, done: seq<Coord>): TileMap {
    map x | x in t0 :: if x in done then t0[x].(owner := InitialOwner(x)) else t0[x]
  }

  /** The cleared map after a loop over the tiles in `done`. */
  function ClearedPrefix(t0: TileMap, done: seq<Coord>): TileMap {
    map x | x in t0 :: if x in done then t0[x].(boundary := false) else t0[x]
  }

  /** The map after the boundary loop has visited the tiles in `done`. */
  function MarkedPrefix(t0: TileMap, done: seq<Coord>): TileMap {
    map x | x in t0 :: if x in done then t0[x].(boundary := MarkedFlag(t0, x)) else t0[x]
  }

  /** With no flag set beforehand, the boundary loop computes every flag. */
  lemma MarkFromClear(t: TileMap)
    requires forall c :: c in t ==> !t[c].boundary
    ensures Marked(t) == WithBoundaries(t)
  {
  }

  // ---------------------------------------------------------------------
  // The loops of map generation, over the tile dictionary
  // ---------------------------------------------------------------------

  /** The two nested loops of `_generate_map`, recording the insertion order. */
  method GenerateTiles(size: int) returns (t: TileMap, ord: seq<Coord>)
    requires size >= 1
    ensures t == Fresh(size)
    ensures (forall c :: c in ord <==> c in t) && Sorted(ord)
  {
    t := map[];
    ord := [];
    var q := -size;
    while q <= size
      invariant -size <= q <= size + 1
      invariant forall c :: c in t <==> InHexagon(c, size) && c.q < q
      invariant forall c :: c in t ==> t[c] == NewTile(c, Ally)
      invariant forall c :: c in ord <==> c in t
      invariant Sorted(ord)
    {
      var r1 := if -size >= -q - size then -size else -q - size;
      var r2 := if size <= -q + size then size else -q + size;
      var r := r1;
      while r <= r2
        invariant r1 <= r <= r2 + 1
        invariant forall c :: c in t <==> InHexagon(c, size) && (c.q < q || (c.q == q && c.r < r))
        invariant forall c :: c in t ==> t[c] == NewTile(c, Ally)
        invariant forall c :: c in ord <==> c in t
        invariant Sorted(ord)
      {
        t := t[Coord(q, r) := NewTile(Coord(q, r), Ally)];
        ord := ord + [Coord(q, r)];
        r := r + 1;
      }
      q := q + 1;
    }
    HexagonCellsMembers(size);
  }

  /** The ownership loop: each tile in order gets the owner of its half. */
  method SplitAll(t0: TileMap, ord: seq<Coord>) returns (t: TileMap)
    requires forall c :: c in ord <==> c in t0
    ensures t == Split(t0)
  {
    t := t0;
    var i := 0;
    while i < |ord|
      invariant 0 <= i <= |ord|
      invariant t == SplitPrefix(t0, ord[..i])
    {
      var c := ord[i];
      assert ord[..i + 1] == ord[..i] + [c];
      t := t[c := t[c].(owner := InitialOwner(c))];
      i := i + 1;
    }
    assert ord[..i] == ord;
  }

  /** The first loop of `recompute_boundaries`: every flag cleared, in order. */
  method ClearAll(t0: TileMap, ord: seq<Coord>) returns (t: TileMap)
    requires forall c :: c in ord <==> c in t0
    ensures t == Cleared(t0)
  {
    t := t0;
    var i := 0;
    while i < |ord|
      invariant 0 <= i <= |ord|
      invariant t == ClearedPrefix(t0, ord[..i])
    {
      var c := ord[i];
      assert ord[..i + 1] == ord[..i] + [c];
      t := t[c := t[c].(boundary := false)];
      i := i + 1;
    }
    assert ord[..i] == ord;
  }

  /**
   * The outer boundary loop over the tiles in dictionary order; `withBreak`
   * selects the inner loop of game/hex_map.py (stop at the first differing
   * neighbour) or of hex_map.py (visit all six).
   */
  method MarkAll(t0: TileMap, ord: seq<Coord>, withBreak: bool) returns (t: TileMap)
    requires forall c :: c in ord <==> c in t0
    requires Sorted(ord)
    ensures t == Marked(t0)
  {
    t := t0;
    SortedDistinct(ord);
    var i := 0;
    while i < |ord|
      invariant 0 <= i <= |ord|
      invariant t == MarkedPrefix(t0, ord[..i])
    {
      var c := ord[i];
      MarkedPrefixStep(t0, ord, i);
      if withBreak {
        t := MarkTile(t, c);
      } else {
        t := MarkTileNoBreak(t, c);
      }
      i := i + 1;
    }
    assert ord[..i] == ord;
    MarkedPrefixComplete(t0, ord);
  }

  lemma MarkedPrefixComplete(t0: TileMap, ord: seq<Coord>)
    requires forall c :: c in ord <==> c in t0
    ensures MarkedPrefix(t0, ord) == Marked(t0)
  {
  }

  lemma MarkedPrefixStep(t0: TileMap, ord: seq<Coord>, i: nat)
    requires forall c :: c in ord ==> c in t0
    requires NoDuplicates(ord) && i < |ord|
    ensures var t := MarkedPrefix(t0, ord[..i]);
            var c := ord[i];
            && c in t
            && MarkedPrefix(t0, ord[..i + 1]) == t[c := t[c].(boundary := MarkedFlag(t, c))]
  {
    var t := MarkedPrefix(t0, ord[..i]);
    var c := ord[i];
    assert c !in ord[..i];
    assert ord[..i + 1] == ord[..i] + [c];
    assert SameOwners(t, t0);
    ForeignNeighborOnlyOwners(t, t0, c);
  }

  /** The inner loop of game/hex_map.py: set the flag at the first differing neighbour, then stop. */
  method MarkTile(t0: TileMap, c: Coord) returns (t: TileMap)
    requires c in t0
    ensures t == t0[c := t0[c].(boundary := MarkedFlag(t0, c))]
  {
    t := t0;
    var nbs := NeighborsOf(t.Keys, c);
    var j := 0;
    while j < |nbs|
      invariant 0 <= j <= |nbs|
      invariant t == t0
      invariant forall k :: 0 <= k < j ==> t[nbs[k]].owner == t[c].owner
    {
      if t[nbs[j]].owner != t[c].owner {
        t := t[c := t[c].(boundary := true)];
        return;
      }
      j := j + 1;
    }
  }

  /** The inner loop of hex_map.py: set the flag once for every differing neighbour. */
  method MarkTileNoBreak(t0: TileMap, c: Coord) returns (t: TileMap)
    requires c in t0
    ensures t == t0[c := t0[c].(boundary := MarkedFlag(t0, c))]
  {
    t := t0;
    var nbs := NeighborsOf(t.Keys, c);
    var j := 0;
    while j < |nbs|
      invariant 0 <= j <= |nbs|
      invariant t == t0[c := t0[c].(boundary := t0[c].boundary || exists k :: 0 <= k < j && t0[nbs[k]].owner != t0[c].owner)]
    {
      if t[nbs[j]].owner != t[c].owner {
        t := t[c := t[c].(boundary := true)];
      }
      j := j + 1;
    }
    assert ForeignNeighbor(t0, c) <==> exists k :: 0 <= k < |nbs| && t0[nbs[k]].owner != t0[c].owner by {
      if ForeignNeighbor(t0, c) {
        var n :| n in nbs && t0[n].owner != t0[c].owner;
        var k :| 0 <= k < |nbs| && nbs[k] == n;
      }
    }
  }

  // ---------------------------------------------------------------------
  // The map object
  // ---------------------------------------------------------------------

  const GoldAmountMin: int := 50
  const GoldAmountMax: int := 2000

  /** The shape of a generated map: the hexagon's cells, each tile at its own key. */
  ghost predicate GridOk(tiles: TileMap, size: int) {
    tiles.Keys == HexagonCells(size) && forall c :: c in tiles ==> tiles[c].Key() == c
  }

  /** `order` lists every key once, in increasing (q, r). */
  ghost predicate OrderOk(order: seq<Coord>, tiles: TileMap) {
    (forall c :: c in order <==> c in tiles) && Sorted(order)
  }

  /** A change that keeps every tile at its key keeps the map's shape and order. */
  lemma SlotChangeKeepsShape(t: TileMap, t2: TileMap, order: seq<Coord>, size: int)
    requires GridOk(t, size) && OrderOk(order, t)
    requires t2.Keys == t.Keys && forall c :: c in t ==> t2[c].Key() == t[c].Key()
    ensures GridOk(t2, size) && OrderOk(order, t2)
  {
  }

  /** `_setup_starting_ownership` on the generated dictionary: the owner loop, then the boundary loop. */
  method StartingOwnershipOf(t0: TileMap, ord: seq<Coord>, size: int, withBreak: bool) returns (t: TileMap)
    requires size >= 1 && t0 == Fresh(size) && OrderOk(ord, t0)
    ensures t == StartingOwnership(size) && GridOk(t, size) && OrderOk(ord, t)
  {
    t := SplitAll(t0, ord);
    MarkFromClear(t);
    t := MarkAll(t, ord, withBreak);
    StartingOwnershipComputed(size);
  }

  /** `_generate_map` followed by `_setup_starting_ownership`, on a new dictionary. */
  method GeneratedStart(size: int, withBreak: bool) returns (t: TileMap, ord: seq<Coord>)
    requires size >= 1
    ensures t == StartingOwnership(size) && GridOk(t, size) && OrderOk(ord, t)
  {
    t, ord := GenerateTiles(size);
    t := StartingOwnershipOf(t, ord, size, withBreak);
  }

  /** `_place_pinpoints` on the dictionary: place identity 0 at (min q, 0) and identity 1 at (max q, 0). */
  method PinpointsPlaced(t0: TileMap, ord: seq<Coord>, size: int) returns (t: TileMap)
    requires size >= 1 && GridOk(t0, size) && OrderOk(ord, t0)
    requires Coord(-size, 0) in t0 && t0[Coord(-size, 0)].unit.None?
    requires Coord(size, 0) in t0 && t0[Coord(size, 0)].unit.None?
    ensures t == WithPinpoints(t0, size) && GridOk(t, size) && OrderOk(ord, t)
  {
    ExtremeColumns(ord, size);
    t := t0;
    var a := Coord(MinQ(ord), 0);
    var placedA := t[a].PlaceUnit(0);
    t := t[a := placedA.value];
    var e := Coord(MaxQ(ord), 0);
    var placedE := t[e].PlaceUnit(1);
    t := t[e := placedE.value];
    assert t == WithPinpoints(t0, size);
    SlotChangeKeepsShape(t0, t, ord, size);
  }

  /** `_place_gold_mines` on the dictionary: the ally draw, then the enemy draw, each laid as fresh gold. */
  method GoldMinesPlaced(t0: TileMap, ord: seq<Coord>, size: int, allyPick: nat, enemyPick: nat, allyAmount: int, enemyAmount: int)
    returns (t: TileMap)
    requires GridOk(t0, size) && OrderOk(ord, t0)
    requires GoldChoice(t0, ord, Ally, allyPick).Some? && GoldChoice(t0, ord, Enemy, enemyPick).Some?
    ensures t == WithGold(WithGold(t0, GoldChoice(t0, ord, Ally, allyPick).value, allyAmount),
                          GoldChoice(t0, ord, Enemy, enemyPick).value, enemyAmount)
    ensures GridOk(t, size) && OrderOk(ord, t)
  {
    t := t0;
    var a := GoldChoice(t, ord, Ally, allyPick).value;
    var e := GoldChoice(t, ord, Enemy, enemyPick).value;
    t := t[a := t[a].(terrain := Gold, goldCooldown := 0.0, goldAmount := allyAmount, goldTimer := 0.0)];
    assert t == WithGold(t0, a, allyAmount);
    t := t[e := t[e].(terrain := Gold, goldCooldown := 0.0, goldAmount := enemyAmount, goldTimer := 0.0)];
    SlotChangeKeepsShape(t0, t, ord, size);
  }

  /** `_place_gold_mine` of hex_map.py on the dictionary: one draw among the interior ally tiles. */
  method LegacyGoldMinePlaced(t0: TileMap, ord: seq<Coord>, size: int, pick: nat, amount: int) returns (t: TileMap)
    requires GridOk(t0, size) && OrderOk(ord, t0) && LegacyGoldCandidates(t0, ord) != []
    ensures var cands := LegacyGoldCandidates(t0, ord);
            t == WithLegacyGold(t0, cands[pick % |cands|], amount)
    ensures GridOk(t, size) && OrderOk(ord, t)
  {
    t := t0;
    var cands := LegacyGoldCandidates(t, ord);
    var g := cands[pick % |cands|];
    SideTilesMembers(t, ord, Ally, true);
    assert g in cands;
    t := t[g := t[g].(terrain := Gold, goldCooldown := 0.0, goldAmount := amount)];
    SlotChangeKeepsShape(t0, t, ord, size);
  }

  /**
   * The map `HexMap(size)` of game/hex_map.py builds: the starting
   * ownership with both pinpoints, then the ally gold mine drawn by
   * `allyPick` and the enemy one drawn by `enemyPick`.
   */
  predicate IsStartingMap(t: TileMap, ord: seq<Coord>, size: int, allyPick: nat, enemyPick: nat, allyAmount: int, enemyAmount: int) {
    var s := StartingOwnership(size);
    var a := GoldChoice(s, ord, Ally, allyPick);
    var e := GoldChoice(s, ord, Enemy, enemyPick);
    && a.Some? && e.Some?
    && t == WithGold(WithGold(WithPinpoints(s, size), a.value, allyAmount), e.value, enemyAmount)
  }

  /** The four steps of `HexMap.__init__` of game/hex_map.py, on the dictionary. */
  method BuiltTiles(size: int, allyPick: nat, enemyPick: nat, allyAmount: int, enemyAmount: int)
    returns (t: TileMap, ord: seq<Coord>)
    requires size >= 1
    ensures GridOk(t, size) && OrderOk(ord, t)
    ensures IsStartingMap(t, ord, size, allyPick, enemyPick, allyAmount, enemyAmount)
  {
    t, ord := GeneratedStart(size, true);
    PinpointTilesOnStart(size);
    GoldChoicesOnStart(size, ord, allyPick, enemyPick);
    t := PinpointsPlaced(t, ord, size);
    t := GoldMinesPlaced(t, ord, size, allyPick, enemyPick, allyAmount, enemyAmount);
  }

  /** The four steps of `HexMap.__init__` of hex_map.py, on the dictionary. */
  method LegacyBuiltTiles(size: int, pick: nat, amount: int) returns (t: TileMap, ord: seq<Coord>)
    requires size >= 2
    ensures GridOk(t, size) && OrderOk(ord, t)
    ensures var s := StartingOwnership(size);
            var cands := LegacyGoldCandidates(s, ord);
            && cands != []
            && t == WithLegacyGold(WithPinpoints(s, size), cands[pick % |cands|], amount)
  {
    t, ord := GeneratedStart(size, false);
    PinpointTilesOnStart(size);
    LegacyGoldOnStart(size, ord);
    PinpointsKeepLegacyCandidates(t, ord, size);
    t := PinpointsPlaced(t, ord, size);
    t := LegacyGoldMinePlaced(t, ord, size, pick, amount);
  }

  class HexMap {
    const size: int
    /** The tile dictionary, keyed by (q, r). */
    var tiles: TileMap
    /** The dictionary's insertion order, which every `for t in tiles.values()` loop follows. */
    var order: seq<Coord>
    /** Every unit object created so far, by identity; tiles hold these identities. */
    var units: map<UnitId, Unit>
    /** The next unused identity. */
    var nextId: nat

    /** The shape every map keeps once generated. */
    ghost predicate Valid()
      reads this
    {
      && size >= 1
      && GridOk(tiles, size)
      && OrderOk(order, tiles)
      && (forall id :: id in units ==> id < nextId)
    }

    /**
     * `HexMap(size)` of game/hex_map.py: generate, split ownership, mark
     * boundaries, place both pinpoints and one gold mine per side. The gold
     * tiles are the random choices `allyPick`, `enemyPick` among the
     * candidates, with the random amounts given.
     */
    constructor (size: int, allyPick: nat, enemyPick: nat, allyAmount: int, enemyAmount: int)
      requires size >= 1
      requires GoldAmountMin <= allyAmount <= GoldAmountMax && GoldAmountMin <= enemyAmount <= GoldAmountMax
      ensures Valid() && this.size == size
      ensures units == map[0 := CreatePinpoint(Ally), 1 := CreatePinpoint(Enemy)] && nextId == 2
      ensures IsStartingMap(tiles, order, size, allyPick, enemyPick, allyAmount, enemyAmount)
    {
      var t, ord := BuiltTiles(size, allyPick, enemyPick, allyAmount, enemyAmount);
      this.size := size;
      tiles := t;
      order := ord;
      units := map[0 := CreatePinpoint(Ally), 1 := CreatePinpoint(Enemy)];
      nextId := 2;
    }

    /**
     * `HexMap(size)` of hex_map.py (radius 8 by default): the same
     * generation, the boundary loop without `break`, the pinpoints, and a
     * single gold mine on an interior ally tile. From radius 2 on such a
     * tile exists; at radius 1 the candidate list is empty and the source's
     * `random.choice` raises (LegacyGoldNeedsRadiusTwo).
     */
    constructor Legacy(size: int, pick: nat, amount: int)
      requires size >= 2
      requires GoldAmountMin <= amount <= GoldAmountMax
      ensures Valid() && this.size == size
      ensures units == map[0 := CreatePinpoint(Ally), 1 := CreatePinpoint(Enemy)] && nextId == 2
      ensures var s := StartingOwnership(size);
              var cands := LegacyGoldCandidates(s, order);
              && cands != []
              && tiles == WithLegacyGold(WithPinpoints(s, size), cands[pick % |cands|], amount)
    {
      var t, ord := LegacyBuiltTiles(size, pick, amount);
      this.size := size;
      tiles := t;
      order := ord;
      units := map[0 := CreatePinpoint(Ally), 1 := CreatePinpoint(Enemy)];
      nextId := 2;
    }

    /** `_generate_map`: one fresh ally tile for every coordinate of the hexagon, row by row. */
    method GenerateMap()
      requires size >= 1 && units == map[] && nextId == 0
      modifies this
      ensures Valid() && tiles == Fresh(size)
      ensures units == map[] && nextId == 0
    {
      tiles, order := GenerateTiles(size);
    }

    /** `_setup_starting_ownership` of game/hex_map.py. */
    method SetupStartingOwnership()
      requires Valid() && tiles == Fresh(size)
      modifies this
      ensures Valid() && order == old(order) && units == old(units) && nextId == old(nextId)
      ensures tiles == StartingOwnership(size)
    {
      tiles := StartingOwnershipOf(tiles, order, size, true);
    }

    /** `_setup_starting_ownership` of hex_map.py. */
    method SetupStartingOwnershipLegacy()
      requires Valid() && tiles == Fresh(size)
      modifies this
      ensures Valid() && order == old(order) && units == old(units) && nextId == old(nextId)
      ensures tiles == StartingOwnership(size)
    {
      tiles := StartingOwnershipOf(tiles, order, size, false);
    }

    /**
     * `recompute_boundaries` of client.py and visual_main.py: clear every
     * flag, then set the flag of each tile with a differently owned neighbour.
     */
    method RecomputeBoundaries()
      requires Valid()
      modifies this
      ensures Valid() && order == old(order) && units == old(units) && nextId == old(nextId)
      ensures tiles == WithBoundaries(old(tiles))
    {
      ClearThenMark(tiles);
      var cleared := ClearAll(tiles, order);
      MarkedKeepsGrid(cleared);
      var marked := MarkAll(cleared, order, true);
      tiles := marked;
    }

    /** `_place_pinpoints`: the ally pinpoint at (min q, 0), the enemy one at (max q, 0). */
    method PlacePinpoints()
      requires Valid() && units == map[] && nextId == 0
      requires Coord(-size, 0) in tiles && tiles[Coord(-size, 0)].unit.None?
      requires Coord(size, 0) in tiles && tiles[Coord(size, 0)].unit.None?
      modifies this
      ensures Valid() && order == old(order)
      ensures units == map[0 := CreatePinpoint(Ally), 1 := CreatePinpoint(Enemy)] && nextId == 2
      ensures tiles == WithPinpoints(old(tiles), size)
    {
      tiles := PinpointsPlaced(tiles, order, size);
      units := map[0 := CreatePinpoint(Ally), 1 := CreatePinpoint(Enemy)];
      nextId := 2;
    }

    /** `_place_gold_mines`: one gold tile per side, in the order ally then enemy. */
    method PlaceGoldMines(allyPick: nat, enemyPick: nat, allyAmount: int, enemyAmount: int)
      requires Valid()
      requires GoldChoice(tiles, order, Ally, allyPick).Some? && GoldChoice(tiles, order, Enemy, enemyPick).Some?
      modifies this
      ensures Valid() && order == old(order) && units == old(units) && nextId == old(nextId)
      ensures tiles == WithGold(WithGold(old(tiles), GoldChoice(old(tiles), order, Ally, allyPick).value, allyAmount),
                                GoldChoice(old(tiles), order, Enemy, enemyPick).value, enemyAmount)
    {
      tiles := GoldMinesPlaced(tiles, order, size, allyPick, enemyPick, allyAmount, enemyAmount);
    }

    /** `_place_gold_mine` of hex_map.py: one gold tile among the interior ally tiles. */
    method PlaceLegacyGoldMine(pick: nat, amount: int)
      requires Valid() && LegacyGoldCandidates(tiles, order) != []
      modifies this
      ensures Valid() && order == old(order) && units == old(units) && nextId == old(nextId)
      ensures var cands := LegacyGoldCandidates(old(tiles), order);
              tiles == WithLegacyGold(old(tiles), cands[pick % |cands|], amount)
    {
      tiles := LegacyGoldMinePlaced(tiles, order, size, pick, amount);
    }

    /** `get_tile`: the tile at (q, r), or none off the hexagon. */
    function GetTile(q: int, r: int): (t: Option<Tile>)
      requires Valid()
      reads this
      ensures t.None? <==> !InHexagon(Coord(q, r), size)
      ensures t.Some? ==> t.value.q == q && t.value.r == r
    {
      HexagonCellsMembers(size);
      var c := Coord(q, r);
      if c in tiles then Some(tiles[c]) else None
    }

    /** `neighbors(q, r)`: the loop over the six offsets collecting the tiles that exist. */
    method Neighbors(q: int, r: int) returns (res: seq<Tile>)
      ensures var ns := NeighborsOf(tiles.Keys, Coord(q, r));
              |res| == |ns| && forall i :: 0 <= i < |res| ==> res[i] == tiles[ns[i]]
    {
      var c := Coord(q, r);
      res := [];
      var k := 0;
      while k < |Directions|
        invariant 0 <= k <= |Directions|
        invariant var ns := NeighborsFrom(tiles.Keys, c, Directions[..k]);
                  |res| == |ns| && forall i :: 0 <= i < |res| ==> res[i] == tiles[ns[i]]
      {
        var d := Directions[k];
        assert Directions[..k + 1][..k] == Directions[..k];
        var nb := Coord(q + d.q, r + d.r);
        if nb in tiles {
          res := res + [tiles[nb]];
        }
        k := k + 1;
      }
      assert Directions[..|Directions|] == Directions;
    }

    /** Registers a new unit object in the store and returns its identity. */
    method AddUnit(u: Unit) returns (id: UnitId)
      requires Valid()
      modifies this
      ensures Valid() && tiles == old(tiles) && order == old(order)
      ensures id == old(nextId) && id !in old(units) && units == old(units)[id := u] && nextId == id + 1
    {
      id := nextId;
      units := units[id := u];
      nextId := nextId + 1;
    }
  }

  // ---------------------------------------------------------------------
  // What a freshly generated map looks like
  // ---------------------------------------------------------------------

  /** The tile each cell carries in the starting ownership. */
  function StartTile(c: Coord): Tile {
    NewTile(c, InitialOwner(c)).(boundary := c.q == -1 || c.q == 0)
  }

  /** With the starting owners, a tile is a boundary tile exactly when it lies on q = -1 or q = 0. */
  lemma InitialBoundaryColumns(tiles: TileMap, size: int, c: Coord)
    requires size >= 1 && forall x :: x in tiles <==> InHexagon(x, size)
    requires forall x :: x in tiles ==> tiles[x].owner == InitialOwner(x)
    requires c in tiles
    ensures ForeignNeighbor(tiles, c) <==> c.q == -1 || c.q == 0
  {
    NeighborsExactlyAdjacent(tiles.Keys, c);
    if c.q == -1 {
      var n := if c.r <= 0 then Coord(0, c.r) else Coord(0, c.r - 1);
      assert Adjacent(c, n);
      assert n in NeighborsOf(tiles.Keys, c);
    } else if c.q == 0 {
      var n := if c.r >= 0 then Coord(-1, c.r) else Coord(-1, c.r + 1);
      assert Adjacent(c, n);
      assert n in NeighborsOf(tiles.Keys, c);
    }
  }

  /**
   * The starting ownership: the hexagon's cells, q < 0 ally and the rest
   * enemy, boundary flags exactly on the columns q = -1 and q = 0 (and these
   * flags agree with the owners), no unit, no wall, no gold.
   */
  lemma StartingOwnershipFacts(size: int)
    requires size >= 1
    ensures var s := StartingOwnership(size);
            && GridOk(s, size)
            && BoundariesConsistent(s)
            && (forall c :: c in s <==> InHexagon(c, size))
            && (forall c :: c in s ==> s[c] == StartTile(c))
  {
    StartingOwnershipComputed(size);
    HexagonCellsMembers(size);
  }

  /**
   * The owner loop followed by the boundary loop, run on the generated
   * hexagon, yields the closed form: ally ground left of column 0, enemy
   * ground from it on, and the boundary flag on exactly columns -1 and 0.
   */
  lemma StartingOwnershipComputed(size: int)
    requires size >= 1
    ensures WithBoundaries(Split(Fresh(size))) == StartingOwnership(size)
    ensures GridOk(StartingOwnership(size), size) && BoundariesConsistent(StartingOwnership(size))
  {
    HexagonCellsMembers(size);
    var sp := Split(Fresh(size));
    assert forall c :: c in sp ==> sp[c] == NewTile(c, InitialOwner(c));
    var s := WithBoundaries(sp);
    forall c | c in s ensures s[c] == StartTile(c) {
      InitialBoundaryColumns(sp, size, c);
    }
  }


  /**
   * On the starting ownership both sides have tiles, so `random.choice`
   * always has candidates; from radius 2 on the choice is an interior tile.
   */
  lemma GoldChoiceOnStart(s: TileMap, order: seq<Coord>, size: int, side: Side, pick: nat)
    requires size >= 1 && OrderOk(order, s)
    requires forall c :: c in s <==> InHexagon(c, size)
    requires forall c :: c in s ==> s[c] == StartTile(c)
    ensures var g := GoldChoice(s, order, side, pick);
            && g.Some? && g.value in s && s[g.value].owner == side
            && (size >= 2 ==> !s[g.value].boundary)
  {
    SideTilesMembers(s, order, side, true);
    SideTilesMembers(s, order, side, false);
    var w := if side == Ally then Coord(-1, 0) else Coord(0, 0);
    assert w in order && s[w].owner == side;
    if size >= 2 {
      var v := if side == Ally then Coord(-2, 0) else Coord(1, 0);
      assert v in order && s[v].owner == side && !s[v].boundary;
    }
  }

  /** Placing pinpoints and gold keeps every owner and boundary flag, and so the candidates. */
  lemma PinpointsKeepCandidates(s: TileMap, order: seq<Coord>, size: int, side: Side, pick: nat)
    ensures GoldChoice(WithPinpoints(s, size), order, side, pick) == GoldChoice(s, order, side, pick)
  {
    var p := WithPinpoints(s, size);
    SideTilesOnlyOwners(p, s, order, side, true);
    SideTilesOnlyOwners(p, s, order, side, false);
  }

  /** The pinpoints leave the legacy candidate list as it was. */
  lemma PinpointsKeepLegacyCandidates(s: TileMap, order: seq<Coord>, size: int)
    ensures LegacyGoldCandidates(WithPinpoints(s, size), order) == LegacyGoldCandidates(s, order)
  {
    SideTilesOnlyOwners(WithPinpoints(s, size), s, order, Ally, true);
  }


  /** Two tiles that differ at most in their slots (unit, wall, terrain and gold fields). */
  predicate SameGround(x: Tile, y: Tile) {
    x.owner == y.owner && x.boundary == y.boundary && x.wall == y.wall
  }

  /** `_place_pinpoints` on empty land: the two pinpoint slots are filled, nothing else changes. */
  lemma PinpointLayer(s: TileMap, size: int)
    requires size >= 1
    requires forall c :: c in s ==> s[c].unit.None? && s[c].terrain == Land
    ensures var p := WithPinpoints(s, size);
            && p.Keys == s.Keys
            && (forall c :: c in p ==> SameGround(p[c], s[c]) && p[c].terrain == Land)
            && (forall c :: c in p ==> p[c].unit == if c == Coord(-size, 0) then Some(0) else if c == Coord(size, 0) then Some(1) else None)
  {
    assert Coord(-size, 0) != Coord(size, 0);
  }

  /** One gold mine laid on a tile: that tile turns fresh gold, every other tile is unchanged. */
  lemma GoldLayer(p: TileMap, g: Coord, amount: int)
    requires g in p
    ensures var t := WithGold(p, g, amount);
            && t.Keys == p.Keys
            && (forall c :: c in t ==> SameGround(t[c], p[c]) && t[c].unit == p[c].unit)
            && (forall c :: c in t && c != g ==> t[c] == p[c])
            && t[g].terrain == Gold && t[g].goldAmount == amount && t[g].goldCooldown == 0.0 && t[g].goldTimer == 0.0
  {
  }

  /** The layers put on the starting ownership by `_place_pinpoints` and `_place_gold_mines`. */
  lemma {:induction false} LayersOnStart(s: TileMap, size: int, a: Coord, e: Coord, allyAmount: int, enemyAmount: int)
    requires size >= 1
    requires forall c :: c in s ==> s[c].unit.None? && s[c].terrain == Land
    requires a in s && e in s && a != e
    ensures var t := WithGold(WithGold(WithPinpoints(s, size), a, allyAmount), e, enemyAmount);
            && t.Keys == s.Keys
            && (forall c :: c in t ==> SameGround(t[c], s[c]))
            && (forall c :: c in t ==> t[c].unit == if c == Coord(-size, 0) then Some(0) else if c == Coord(size, 0) then Some(1) else None)
            && (forall c :: c in t ==> (t[c].terrain == Gold <==> c == a || c == e))
            && t[a].goldAmount == allyAmount && t[e].goldAmount == enemyAmount
            && t[a].goldCooldown == 0.0 && t[e].goldCooldown == 0.0
            && t[a].goldTimer == 0.0 && t[e].goldTimer == 0.0
  {
    var p := WithPinpoints(s, size);
    PinpointLayer(s, size);
    var g := WithGold(p, a, allyAmount);
    GoldLayer(p, a, allyAmount);
    var t := WithGold(g, e, enemyAmount);
    GoldLayer(g, e, enemyAmount);
    forall c | c in t
      ensures SameGround(t[c], s[c])
      ensures t[c].unit == if c == Coord(-size, 0) then Some(0) else if c == Coord(size, 0) then Some(1) else None
      ensures t[c].terrain == Gold <==> c == a || c == e
    {
      assert SameGround(g[c], p[c]) && g[c].unit == p[c].unit;
      assert SameGround(p[c], s[c]);
    }
  }

  /** Boundary flags that agree with the owners keep agreeing when only the slots change. */
  lemma SlotsKeepBoundaries(s: TileMap, t: TileMap)
    requires BoundariesConsistent(s) && t.Keys == s.Keys
    requires forall c :: c in t ==> t[c].owner == s[c].owner && t[c].boundary == s[c].boundary
    ensures BoundariesConsistent(t)
  {
    forall c | c in t ensures t[c].boundary == ForeignNeighbor(t, c) {
      ForeignNeighborOnlyOwners(t, s, c);
    }
  }

  /**
   * What `HexMap(size)` leaves behind, for the starting ownership `s` as
   * `StartingOwnershipFacts` describes it: the ally pinpoint (identity 0)
   * on (-size, 0) and the enemy one (identity 1) on (size, 0), each on its
   * own side's ground; one gold tile per side with the drawn amount, fresh
   * (no cooldown, no mining timer), interior from radius 2 on; every other
   * tile empty land; owners and boundary flags as at the start.
   */
  lemma StartingMapFacts(s: TileMap, size: int, order: seq<Coord>, allyPick: nat, enemyPick: nat, allyAmount: int, enemyAmount: int)
    requires size >= 1 && OrderOk(order, s) && BoundariesConsistent(s)
    requires forall c :: c in s <==> InHexagon(c, size)
    requires forall c :: c in s ==> s[c] == StartTile(c)
    ensures var a := GoldChoice(s, order, Ally, allyPick);
            var e := GoldChoice(s, order, Enemy, enemyPick);
            && a.Some? && e.Some? && a.value != e.value
            && var t := WithGold(WithGold(WithPinpoints(s, size), a.value, allyAmount), e.value, enemyAmount);
            && t.Keys == s.Keys && BoundariesConsistent(t)
            && (forall c :: c in t ==> t[c].owner == InitialOwner(c) && t[c].wall.None?)
            && (forall c :: c in t ==> (t[c].boundary <==> c.q == -1 || c.q == 0))
            && (forall c :: c in t ==> t[c].unit == if c == Coord(-size, 0) then Some(0) else if c == Coord(size, 0) then Some(1) else None)
            && Coord(-size, 0) in t && t[Coord(-size, 0)].owner == Ally
            && Coord(size, 0) in t && t[Coord(size, 0)].owner == Enemy
            && (forall c :: c in t ==> (t[c].terrain == Gold <==> c == a.value || c == e.value))
            && t[a.value].owner == Ally && t[e.value].owner == Enemy
            && t[a.value].goldAmount == allyAmount && t[e.value].goldAmount == enemyAmount
            && t[a.value].goldCooldown == 0.0 && t[e.value].goldCooldown == 0.0
            && (size >= 2 ==> !t[a.value].boundary && !t[e.value].boundary)
  {
    GoldChoiceOnStart(s, order, size, Ally, allyPick);
    GoldChoiceOnStart(s, order, size, Enemy, enemyPick);
    var a := GoldChoice(s, order, Ally, allyPick).value;
    var e := GoldChoice(s, order, Enemy, enemyPick).value;
    LayersOnStart(s, size, a, e, allyAmount, enemyAmount);
    var t := WithGold(WithGold(WithPinpoints(s, size), a, allyAmount), e, enemyAmount);
    SlotsKeepBoundaries(s, t);
    assert InHexagon(Coord(-size, 0), size) && InHexagon(Coord(size, 0), size);
  }

  /** The two pinpoint tiles of the starting ownership exist and are empty. */
  lemma PinpointTilesOnStart(size: int)
    requires size >= 1
    ensures var s := StartingOwnership(size);
            && Coord(-size, 0) in s && s[Coord(-size, 0)].unit.None?
            && Coord(size, 0) in s && s[Coord(size, 0)].unit.None?
  {
    StartingOwnershipFacts(size);
    assert InHexagon(Coord(-size, 0), size) && InHexagon(Coord(size, 0), size);
  }

  /**
   * On the starting ownership, `_place_gold_mines` always finds a tile for
   * each side, and the pinpoints placed before it do not change its draw.
   */
  lemma GoldChoicesOnStart(size: int, order: seq<Coord>, allyPick: nat, enemyPick: nat)
    requires size >= 1 && OrderOk(order, StartingOwnership(size))
    ensures var s := StartingOwnership(size);
            var p := WithPinpoints(s, size);
            && GoldChoice(s, order, Ally, allyPick).Some? && GoldChoice(s, order, Enemy, enemyPick).Some?
            && GoldChoice(p, order, Ally, allyPick) == GoldChoice(s, order, Ally, allyPick)
            && GoldChoice(p, order, Enemy, enemyPick) == GoldChoice(s, order, Enemy, enemyPick)
  {
    var s := StartingOwnership(size);
    StartingOwnershipFacts(size);
    GoldChoiceOnStart(s, order, size, Ally, allyPick);
    GoldChoiceOnStart(s, order, size, Enemy, enemyPick);
    PinpointsKeepCandidates(s, order, size, Ally, allyPick);
    PinpointsKeepCandidates(s, order, size, Enemy, enemyPick);
  }

  /** From radius 2 on, the legacy candidate list is not empty: (-size, 0) is an interior ally tile. */
  lemma LegacyGoldExists(s: TileMap, size: int, order: seq<Coord>)
    requires size >= 2 && OrderOk(order, s)
    requires forall c :: c in s <==> InHexagon(c, size)
    requires forall c :: c in s ==> s[c] == StartTile(c)
    ensures Coord(-size, 0) in LegacyGoldCandidates(s, order)
  {
    SideTilesMembers(s, order, Ally, true);
    var c := Coord(-size, 0);
    assert InHexagon(c, size);
    assert c in s && s[c] == StartTile(c);
  }

  /** The same on the map as built: the legacy gold mine always has a tile to go to. */
  lemma LegacyGoldOnStart(size: int, order: seq<Coord>)
    requires size >= 2 && OrderOk(order, StartingOwnership(size))
    ensures LegacyGoldCandidates(StartingOwnership(size), order) != []
  {
    StartingOwnershipFacts(size);
    LegacyGoldExists(StartingOwnership(size), size, order);
  }

  /** At radius 1 every ally tile touches enemy ground: the legacy candidate list is empty. */
  lemma LegacyGoldNeedsRadiusTwo(order: seq<Coord>)
    ensures forall c :: c !in LegacyGoldCandidates(StartingOwnership(1), order)
  {
    StartingOwnershipFacts(1);
    SideTilesMembers(StartingOwnership(1), order, Ally, true);
  }

  /**
   * The legacy map, for the starting ownership `s`: its one gold tile is an
   * interior ally tile and the only gold tile; the pinpoints sit where the
   * newer map puts them.
   */
  lemma LegacyMapFacts(s: TileMap, size: int, order: seq<Coord>, pick: nat, amount: int)
    requires size >= 2 && OrderOk(order, s)
    requires forall c :: c in s <==> InHexagon(c, size)
    requires forall c :: c in s ==> s[c] == StartTile(c)
    ensures var cands := LegacyGoldCandidates(s, order);
            && cands != []
            && var g := cands[pick % |cands|];
            && var t := WithLegacyGold(WithPinpoints(s, size), g, amount);
            && g in t && t[g].owner == Ally && !t[g].boundary
            && (forall c :: c in t ==> (t[c].terrain == Gold <==> c == g))
            && t[g].goldAmount == amount
            && (forall c :: c in t ==> t[c].unit == if c == Coord(-size, 0) then Some(0) else if c == Coord(size, 0) then Some(1) else None)
  {
    LegacyGoldExists(s, size, order);
    var cands := LegacyGoldCandidates(s, order);
    var g := cands[pick % |cands|];
    SideTilesMembers(s, order, Ally, true);
    assert g in cands;
    PinpointLayer(s, size);
    var p := WithPinpoints(s, size);
    var t := WithLegacyGold(p, g, amount);
    forall c | c in t
      ensures t[c].terrain == Gold <==> c == g
      ensures t[c].unit == p[c].unit
    {
    }
  }
}
