/**
 * The last two blocks of client.py's frame loop, and the capture block of
 * visual_main.py: the wall-breach timers, which take down a foe's wall
 * after a Soldier has stood on it for `BreachTime` seconds, and the
 * capture timers, which hand a foreign tile to the side whose Soldier has
 * held it for `CaptureTime` seconds.
 *
 * Both timer tables are dictionaries keyed by coordinate. Every entry is
 * updated from its own tile alone, so the order in which the source visits
 * them does not change the result; each block is given as a closed form
 * over all keys and proved equal to a loop that visits the keys in any
 * order.
 */
module Capture {
  import opened Hex
  import opened Units
  import opened Tiles
  import opened HexGrid
  import opened Battles
  import opened Paths
  import opened Movement

  /** Seconds a Soldier must hold a foreign tile to take it. */
  const CaptureTime: real := 8.0

  /** The tile holds a Soldier of `side`. */
  predicate SoldierOf(t: Tile, units: UnitStore, side: Side) {
    var u := Resolve(t.unit, units);
    u.Some? && u.value.name == Soldier && u.value.owner == side
  }

  // ---------------------------------------------------------------------
  // Wall breaches
  // ---------------------------------------------------------------------

  /** A breach goes on: the tile is there, with a wall of the other side and a Soldier of the claimant on it. */
  predicate BreachGoesOn(tiles: TileMap, units: UnitStore, c: Coord, cl: Claim) {
    && c in tiles
    && (var w := Resolve(tiles[c].wall, units); w.Some? && w.value.owner != cl.owner)
    && SoldierOf(tiles[c], units, cl.owner)
  }

  /** The breach goes on and its time runs out in this frame. */
  predicate Breaks(tiles: TileMap, units: UnitStore, c: Coord, cl: Claim, dt: real) {
    BreachGoesOn(tiles, units, c, cl) && cl.remain - dt <= 0.0
  }

  /** The tiles once the breaches of the keys in `done` were visited: the wall is gone wherever one completed. */
  function WallsOn(tiles: TileMap, units: UnitStore, breaches: map<Coord, Claim>, dt: real, done: set<Coord>): TileMap {
    map c | c in tiles :: if c in done && c in breaches && Breaks(tiles, units, c, breaches[c], dt) then tiles[c].(wall := None) else tiles[c]
  }

  /** The breach timers once the keys in `done` were visited: those still going on are `dt` shorter, the others gone. */
  function BreachesOn(tiles: TileMap, units: UnitStore, breaches: map<Coord, Claim>, dt: real, done: set<Coord>): map<Coord, Claim> {
    map c | c in breaches && (c in done ==> BreachGoesOn(tiles, units, c, breaches[c]) && breaches[c].remain - dt > 0.0)
      :: if c in done then breaches[c].(remain := breaches[c].remain - dt) else breaches[c]
  }

  /** The tiles after the breach block. */
  function WallsAfter(tiles: TileMap, units: UnitStore, breaches: map<Coord, Claim>, dt: real): TileMap {
    WallsOn(tiles, units, breaches, dt, breaches.Keys)
  }

  /** The breach timers after the block. */
  function BreachesAfter(tiles: TileMap, units: UnitStore, breaches: map<Coord, Claim>, dt: real): map<Coord, Claim> {
    BreachesOn(tiles, units, breaches, dt, breaches.Keys)
  }

  /** Visiting one more timer changes its own tile and entry only. */
  lemma BreachStep(tiles: TileMap, units: UnitStore, breaches: map<Coord, Claim>, dt: real, done: set<Coord>, c: Coord)
    requires c in breaches && c !in done
    ensures c in tiles ==> c in WallsOn(tiles, units, breaches, dt, done) && WallsOn(tiles, units, breaches, dt, done)[c] == tiles[c]
    ensures WallsOn(tiles, units, breaches, dt, done + {c})
            == if c in tiles && Breaks(tiles, units, c, breaches[c], dt)
               then WallsOn(tiles, units, breaches, dt, done)[c := tiles[c].(wall := None)]
               else WallsOn(tiles, units, breaches, dt, done)
    ensures BreachesOn(tiles, units, breaches, dt, done + {c})
            == if BreachGoesOn(tiles, units, c, breaches[c]) && breaches[c].remain - dt > 0.0
               then BreachesOn(tiles, units, breaches, dt, done)[c := breaches[c].(remain := breaches[c].remain - dt)]
               else BreachesOn(tiles, units, breaches, dt, done) - {c}
  {
  }

  /**
   * The breach block: for each timer, drop it when the tile, the foe's
   * wall or the claimant's Soldier is missing; otherwise count `dt` down,
   * and at zero take the wall down and drop the timer.
   */
  method WallBreaks(tiles: TileMap, units: UnitStore, breaches: map<Coord, Claim>, dt: real)
    returns (t: TileMap, left: map<Coord, Claim>)
    ensures t == WallsAfter(tiles, units, breaches, dt)
    ensures left == BreachesAfter(tiles, units, breaches, dt)
  {
    t := tiles;
    left := breaches;
    var todo := breaches.Keys;
    ghost var done: set<Coord> := {};
    while todo != {}
      invariant todo !! done && todo + done == breaches.Keys
      invariant t == WallsOn(tiles, units, breaches, dt, done)
      invariant left == BreachesOn(tiles, units, breaches, dt, done)
      decreases todo
    {
      var c :| c in todo;
      var cl := breaches[c];
      BreachStep(tiles, units, breaches, dt, done, c);
      if c !in t {
        left := left - {c};
      } else {
        var w := Resolve(t[c].wall, units);
        if w.None? || w.value.owner == cl.owner {
          left := left - {c};
        } else if !SoldierOf(t[c], units, cl.owner) {
          left := left - {c};
        } else if cl.remain - dt <= 0.0 {
          t := t[c := t[c].(wall := None)];
          left := left - {c};
        } else {
          left := left[c := cl.(remain := cl.remain - dt)];
        }
      }
      todo := todo - {c};
      done := done + {c};
    }
  }

  /**
   * A wall comes down exactly where a breach timer ran out with a Soldier
   * of the claimant on a foe's wall; nothing else about any tile changes.
   */
  lemma WallFallsIff(tiles: TileMap, units: UnitStore, breaches: map<Coord, Claim>, dt: real, c: Coord)
    requires c in tiles
    ensures var t := WallsAfter(tiles, units, breaches, dt);
            && c in t
            && t[c] == tiles[c].(wall := t[c].wall)
            && (t[c].wall != tiles[c].wall <==>
                  && c in breaches
                  && SoldierOf(tiles[c], units, breaches[c].owner)
                  && (var w := Resolve(tiles[c].wall, units); w.Some? && w.value.owner != breaches[c].owner)
                  && breaches[c].remain - dt <= 0.0)
            && (t[c].wall != tiles[c].wall ==> t[c].wall.None?)
  {
  }

  /**
   * The timers left all belong to breaches still going on, a frame's time
   * shorter and still running; none is new.
   */
  lemma BreachesLeftGoOn(tiles: TileMap, units: UnitStore, breaches: map<Coord, Claim>, dt: real)
    ensures var left := BreachesAfter(tiles, units, breaches, dt);
            && left.Keys <= breaches.Keys
            && forall c :: c in left ==>
                 && BreachGoesOn(tiles, units, c, breaches[c])
                 && left[c] == breaches[c].(remain := breaches[c].remain - dt)
                 && left[c].remain > 0.0
  {
  }

  // ---------------------------------------------------------------------
  // Capture
  // ---------------------------------------------------------------------

  /**
   * A capture goes on: the tile is there with a Soldier of the claimant,
   * and, in client.py, no wall.
   */
  predicate Holds(tiles: TileMap, units: UnitStore, c: Coord, cl: Claim, v: Variant) {
    c in tiles && SoldierOf(tiles[c], units, cl.owner) && (v == Visual || tiles[c].wall.None?)
  }

  /** client.py stops the timer of a tile fought over; visual_main.py has no such check. */
  predicate Frozen(battles: seq<Battle>, c: Coord, v: Variant) {
    v == Client && OnTile(battles, c)
  }

  /** The capture goes on, is not frozen, and its time runs out in this frame. */
  predicate Completes(tiles: TileMap, units: UnitStore, battles: seq<Battle>, c: Coord, cl: Claim, dt: real, v: Variant) {
    Holds(tiles, units, c, cl, v) && !Frozen(battles, c, v) && cl.remain - dt <= 0.0
  }

  /** The tiles with the claimant as owner wherever a capture among `done` completed. */
  function OwnedOn(tiles: TileMap, units: UnitStore, battles: seq<Battle>, claims: map<Coord, Claim>, dt: real, v: Variant,
                   done: set<Coord>): TileMap {
    map c | c in tiles :: if c in done && c in claims && Completes(tiles, units, battles, c, claims[c], dt, v)
      then tiles[c].(owner := claims[c].owner) else tiles[c]
  }

  /** Some capture among `done` completed. */
  predicate AnyCompletes(tiles: TileMap, units: UnitStore, battles: seq<Battle>, claims: map<Coord, Claim>, dt: real, v: Variant,
                         done: set<Coord>) {
    exists c :: c in done && c in claims && Completes(tiles, units, battles, c, claims[c], dt, v)
  }

  /** The tiles once the keys in `done` were visited: owners handed over, boundaries recomputed if any was. */
  function SettledOn(tiles: TileMap, units: UnitStore, battles: seq<Battle>, claims: map<Coord, Claim>, dt: real, v: Variant,
                     done: set<Coord>): TileMap {
    var o := OwnedOn(tiles, units, battles, claims, dt, v, done);
    if AnyCompletes(tiles, units, battles, claims, dt, v, done) then WithBoundaries(o) else o
  }

  /** The capture timers once the keys in `done` were visited: frozen ones kept, running ones `dt` shorter. */
  function PendingOn(tiles: TileMap, units: UnitStore, battles: seq<Battle>, claims: map<Coord, Claim>, dt: real, v: Variant,
                     done: set<Coord>): map<Coord, Claim> {
    map c | c in claims && (c in done ==> Holds(tiles, units, c, claims[c], v)
                                          && (Frozen(battles, c, v) || claims[c].remain - dt > 0.0))
      :: if c !in done || Frozen(battles, c, v) then claims[c] else claims[c].(remain := claims[c].remain - dt)
  }

  /** The tile holds a Soldier on a tile its side does not own (and, in client.py, no wall): a capture may start. */
  predicate Starts(t: Tile, units: UnitStore, v: Variant) {
    var u := Resolve(t.unit, units);
    u.Some? && u.value.name == Soldier && t.owner != u.value.owner && (v == Visual || t.wall.None?)
  }

  /** The claim a Soldier on `t` opens. */
  function Opening(t: Tile, units: UnitStore): Claim
    requires Resolve(t.unit, units).Some?
  {
    Claim(Resolve(t.unit, units).value.owner, CaptureTime)
  }

  /**
   * The second loop over the tiles of `seen`: a capture runs on every such
   * tile where one may start, the one already running or a new full one;
   * every other such tile's is dropped; tiles not yet seen keep theirs.
   */
  function OpenedOn(tiles: TileMap, units: UnitStore, pending: map<Coord, Claim>, v: Variant, seen: set<Coord>): map<Coord, Claim> {
    map c | c in tiles.Keys + pending.Keys && ((c in seen && c in tiles && Starts(tiles[c], units, v)) || (c in pending && c !in seen))
      :: if c in pending then pending[c] else Opening(tiles[c], units)
  }

  /** The second loop over every tile. */
  function Opened(tiles: TileMap, units: UnitStore, pending: map<Coord, Claim>, v: Variant): map<Coord, Claim> {
    OpenedOn(tiles, units, pending, v, tiles.Keys)
  }

  /** Seeing one more tile settles its own timer only. */
  lemma OpenStep(tiles: TileMap, units: UnitStore, pending: map<Coord, Claim>, v: Variant, seen: set<Coord>, c: Coord)
    requires c in tiles && c !in seen
    ensures var o := OpenedOn(tiles, units, pending, v, seen);
            OpenedOn(tiles, units, pending, v, seen + {c})
            == if !Starts(tiles[c], units, v) then o - {c}
               else if c in o then o
               else o[c := Opening(tiles[c], units)]
  {
  }

  /** The tiles and the capture timers after a frame's capture block. */
  function CaptureFrame(tiles: TileMap, units: UnitStore, battles: seq<Battle>, claims: map<Coord, Claim>, dt: real, v: Variant)
    : (TileMap, map<Coord, Claim>)
  {
    var t := SettledOn(tiles, units, battles, claims, dt, v, claims.Keys);
    (t, Opened(t, units, PendingOn(tiles, units, battles, claims, dt, v, claims.Keys), v))
  }

  /**
   * The capture block hands a tile to the claimant exactly when its capture
   * completes; apart from owners and boundary flags no tile changes.
   */
  lemma CaptureHandsOver(tiles: TileMap, units: UnitStore, battles: seq<Battle>, claims: map<Coord, Claim>, dt: real, v: Variant,
                         c: Coord)
    requires c in tiles
    ensures var t := CaptureFrame(tiles, units, battles, claims, dt, v).0;
            && c in t
            && t[c] == tiles[c].(owner := t[c].owner, boundary := t[c].boundary)
            && t[c].owner == if c in claims && Completes(tiles, units, battles, c, claims[c], dt, v) then claims[c].owner else tiles[c].owner
  {
  }

  /**
   * The tiles keep their coordinates; once any capture completes every
   * boundary flag is recomputed, and when none does the tiles are untouched.
   */
  lemma CaptureTiles(tiles: TileMap, units: UnitStore, battles: seq<Battle>, claims: map<Coord, Claim>, dt: real, v: Variant)
    ensures var t := CaptureFrame(tiles, units, battles, claims, dt, v).0;
            && t.Keys == tiles.Keys
            && (AnyCompletes(tiles, units, battles, claims, dt, v, claims.Keys) ==> BoundariesConsistent(t))
            && (!AnyCompletes(tiles, units, battles, claims, dt, v, claims.Keys) ==> t == tiles)
  {
  }

  /**
   * In client.py a capture on a tile fought over is frozen: while its
   * Soldier holds on, the timer keeps its time and the tile its owner.
   */
  lemma FrozenCaptureWaits(tiles: TileMap, units: UnitStore, battles: seq<Battle>, claims: map<Coord, Claim>, dt: real, v: Variant,
                           c: Coord)
    requires c in claims && Frozen(battles, c, v) && Holds(tiles, units, c, claims[c], v)
    requires tiles[c].owner != claims[c].owner
    ensures var (t, started) := CaptureFrame(tiles, units, battles, claims, dt, v);
            c in t && t[c].owner == tiles[c].owner && c in started && started[c] == claims[c]
  {
    CaptureHandsOver(tiles, units, battles, claims, dt, v, c);
  }

  /** Every timer lies in (0, `CaptureTime`]. */
  predicate ClaimsBounded(claims: map<Coord, Claim>) {
    forall c :: c in claims ==> 0.0 < claims[c].remain <= CaptureTime
  }

  /**
   * After the block every timer sits on a tile where a capture may start,
   * belongs to the side of the Soldier on it, and lies in (0, `CaptureTime`];
   * a timer not there before starts full.
   */
  lemma CapturesAfterFrame(tiles: TileMap, units: UnitStore, battles: seq<Battle>, claims: map<Coord, Claim>, dt: real, v: Variant)
    requires ClaimsBounded(claims) && dt >= 0.0
    ensures var (t, started) := CaptureFrame(tiles, units, battles, claims, dt, v);
            && ClaimsBounded(started)
            && forall c :: c in started ==>
                 && c in t
                 && Starts(t[c], units, v)
                 && started[c].owner == Resolve(t[c].unit, units).value.owner
                 && (c !in claims ==> started[c].remain == CaptureTime)
  {
    var (t, started) := CaptureFrame(tiles, units, battles, claims, dt, v);
    var pending := PendingOn(tiles, units, battles, claims, dt, v, claims.Keys);
    CaptureTiles(tiles, units, battles, claims, dt, v);
    forall c | c in started
      ensures && c in t && Starts(t[c], units, v)
              && started[c].owner == Resolve(t[c].unit, units).value.owner
              && 0.0 < started[c].remain <= CaptureTime
              && (c !in claims ==> started[c].remain == CaptureTime)
    {
      assert c in tiles;
      CaptureHandsOver(tiles, units, battles, claims, dt, v, c);
    }
  }

  // ---------------------------------------------------------------------
  // The loops
  // ---------------------------------------------------------------------

  /** `recompute_boundaries` on the tile dictionary: clear every flag, then mark in order. */
  method Recompute(t0: TileMap, order: seq<Coord>) returns (t: TileMap)
    requires (forall c :: c in order <==> c in t0) && Sorted(order)
    ensures t == WithBoundaries(t0)
  {
    ClearThenMark(t0);
    var cleared := ClearAll(t0, order);
    MarkedKeepsGrid(cleared);
    t := MarkAll(cleared, order, true);
  }

  /** Two maps that differ at most in boundary flags have the same recomputed flags. */
  lemma BoundariesIgnoreFlags(a: TileMap, b: TileMap)
    requires a.Keys == b.Keys && forall c :: c in a ==> a[c] == b[c].(boundary := a[c].boundary)
    ensures WithBoundaries(a) == WithBoundaries(b)
  {
    forall c | c in a ensures WithBoundaries(a)[c] == WithBoundaries(b)[c] {
      ForeignNeighborOnlyOwners(a, b, c);
    }
  }

  /** Visiting one more capture timer changes the owner of its own tile only. */
  lemma OwnedStep(tiles: TileMap, units: UnitStore, battles: seq<Battle>, claims: map<Coord, Claim>, dt: real, v: Variant,
                  done: set<Coord>, c: Coord)
    requires c in claims && c !in done
    ensures var o := OwnedOn(tiles, units, battles, claims, dt, v, done);
            && (c in tiles ==> c in o && o[c] == tiles[c])
            && OwnedOn(tiles, units, battles, claims, dt, v, done + {c})
               == (if Completes(tiles, units, battles, c, claims[c], dt, v) then o[c := o[c].(owner := claims[c].owner)] else o)
  {
  }

  /** Some capture completed among `done` and one more key exactly when one did before or the new one does. */
  lemma AnyStep(tiles: TileMap, units: UnitStore, battles: seq<Battle>, claims: map<Coord, Claim>, dt: real, v: Variant,
                done: set<Coord>, c: Coord)
    requires c in claims
    ensures AnyCompletes(tiles, units, battles, claims, dt, v, done + {c})
            <==> AnyCompletes(tiles, units, battles, claims, dt, v, done) || Completes(tiles, units, battles, c, claims[c], dt, v)
  {
    if Completes(tiles, units, battles, c, claims[c], dt, v) {
      assert c in done + {c};
    }
  }

  /** Visiting one more capture timer changes its own entry only. */
  lemma PendingStep(tiles: TileMap, units: UnitStore, battles: seq<Battle>, claims: map<Coord, Claim>, dt: real, v: Variant,
                    done: set<Coord>, c: Coord)
    requires c in claims && c !in done
    ensures var p := PendingOn(tiles, units, battles, claims, dt, v, done);
            PendingOn(tiles, units, battles, claims, dt, v, done + {c})
            == if !Holds(tiles, units, c, claims[c], v) then p - {c}
               else if Frozen(battles, c, v) then p
               else if claims[c].remain - dt > 0.0 then p[c := claims[c].(remain := claims[c].remain - dt)]
               else p - {c}
  {
  }

  /**
   * The first loop of the capture block: visit every timer; drop it when the
   * Soldier or the tile is gone (or a wall stands, in client.py); leave it
   * while the tile is fought over (client.py); otherwise count `dt` down,
   * and at zero hand the tile over, drop the timer and recompute the
   * boundaries.
   */
  method SettleClaims(tiles: TileMap, order: seq<Coord>, units: UnitStore, battles: seq<Battle>,
                      claims: map<Coord, Claim>, dt: real, v: Variant)
    returns (t: TileMap, pending: map<Coord, Claim>)
    requires (forall c :: c in order <==> c in tiles) && Sorted(order)
    ensures t == SettledOn(tiles, units, battles, claims, dt, v, claims.Keys)
    ensures pending == PendingOn(tiles, units, battles, claims, dt, v, claims.Keys)
  {
    t := tiles;
    pending := claims;
    var todo := claims.Keys;
    ghost var done: set<Coord> := {};
    var recomputed := false;
    while todo != {}
      invariant todo !! done && todo + done == claims.Keys
      invariant recomputed == AnyCompletes(tiles, units, battles, claims, dt, v, done)
      invariant t == SettledOn(tiles, units, battles, claims, dt, v, done)
      invariant pending == PendingOn(tiles, units, battles, claims, dt, v, done)
      decreases todo
    {
      var c :| c in todo;
      t, pending, recomputed := SettleOne(tiles, order, units, battles, claims, dt, v, done, c, t, pending, recomputed);
      todo := todo - {c};
      done := done + {c};
    }
  }

  /** One pass of the first loop's body, for the timer on `c`. */
  method SettleOne(tiles: TileMap, order: seq<Coord>, units: UnitStore, battles: seq<Battle>,
                   claims: map<Coord, Claim>, dt: real, v: Variant, ghost done: set<Coord>, c: Coord,
                   t: TileMap, pending: map<Coord, Claim>, recomputed: bool)
    returns (t': TileMap, pending': map<Coord, Claim>, recomputed': bool)
    requires (forall c :: c in order <==> c in tiles) && Sorted(order)
    requires c in claims && c !in done
    requires recomputed == AnyCompletes(tiles, units, battles, claims, dt, v, done)
    requires t == SettledOn(tiles, units, battles, claims, dt, v, done)
    requires pending == PendingOn(tiles, units, battles, claims, dt, v, done)
    ensures recomputed' == AnyCompletes(tiles, units, battles, claims, dt, v, done + {c})
    ensures t' == SettledOn(tiles, units, battles, claims, dt, v, done + {c})
    ensures pending' == PendingOn(tiles, units, battles, claims, dt, v, done + {c})
  {
    var cl := claims[c];
    AnyStep(tiles, units, battles, claims, dt, v, done, c);
    PendingStep(tiles, units, battles, claims, dt, v, done, c);
    SettledAt(tiles, units, battles, claims, dt, v, done, c);
    if !Completes(tiles, units, battles, c, cl, dt, v) {
      NoCompletionStep(tiles, units, battles, claims, dt, v, done, c);
    }
    t', pending', recomputed' := t, pending, recomputed;
    if c !in t || !SoldierOf(t[c], units, cl.owner) || (v == Client && t[c].wall.Some?) {
      pending' := pending - {c};
    } else if v == Client && OnTile(battles, c) {
    } else if cl.remain - dt <= 0.0 {
      CompleteStep(tiles, units, battles, claims, dt, v, done, c);
      t' := Recompute(t[c := t[c].(owner := cl.owner)], order);
      pending' := pending - {c};
      recomputed' := true;
    } else {
      pending' := pending[c := cl.(remain := cl.remain - dt)];
    }
  }

  /** Before its own visit, a tile with a capture timer reads as it did at the start of the frame, up to its boundary flag. */
  lemma SettledAt(tiles: TileMap, units: UnitStore, battles: seq<Battle>, claims: map<Coord, Claim>, dt: real, v: Variant,
                  done: set<Coord>, c: Coord)
    requires c in claims && c !in done
    ensures var t := SettledOn(tiles, units, battles, claims, dt, v, done);
            (c in t <==> c in tiles) && (c in tiles ==> t[c] == tiles[c].(boundary := t[c].boundary))
  {
    OwnedStep(tiles, units, battles, claims, dt, v, done, c);
  }

  /** A completing capture hands the tile over and recomputes every boundary. */
  lemma CompleteStep(tiles: TileMap, units: UnitStore, battles: seq<Battle>, claims: map<Coord, Claim>, dt: real, v: Variant,
                     done: set<Coord>, c: Coord)
    requires c in claims && c !in done && Completes(tiles, units, battles, c, claims[c], dt, v)
    ensures var t := SettledOn(tiles, units, battles, claims, dt, v, done);
            c in t && WithBoundaries(t[c := t[c].(owner := claims[c].owner)])
                      == SettledOn(tiles, units, battles, claims, dt, v, done + {c})
  {
    OwnedStep(tiles, units, battles, claims, dt, v, done, c);
    AnyStep(tiles, units, battles, claims, dt, v, done, c);
    var o := OwnedOn(tiles, units, battles, claims, dt, v, done);
    var t := SettledOn(tiles, units, battles, claims, dt, v, done);
    var o1 := OwnedOn(tiles, units, battles, claims, dt, v, done + {c});
    assert c in tiles;
    BoundariesIgnoreFlags(t[c := t[c].(owner := claims[c].owner)], o1);
  }

  /** A timer that does not complete leaves the tiles as they were. */
  lemma NoCompletionStep(tiles: TileMap, units: UnitStore, battles: seq<Battle>, claims: map<Coord, Claim>, dt: real, v: Variant,
                         done: set<Coord>, c: Coord)
    requires c in claims && c !in done && !Completes(tiles, units, battles, c, claims[c], dt, v)
    ensures SettledOn(tiles, units, battles, claims, dt, v, done + {c}) == SettledOn(tiles, units, battles, claims, dt, v, done)
  {
    OwnedStep(tiles, units, battles, claims, dt, v, done, c);
    AnyStep(tiles, units, battles, claims, dt, v, done, c);
  }

  /** The second loop of the capture block, over the tiles in dictionary order. */
  method OpenClaims(tiles: TileMap, order: seq<Coord>, units: UnitStore, pending: map<Coord, Claim>, v: Variant)
    returns (claims: map<Coord, Claim>)
    requires forall c :: c in order <==> c in tiles
    requires NoDuplicates(order)
    ensures claims == Opened(tiles, units, pending, v)
  {
    claims := pending;
    ghost var seen: set<Coord> := {};
    var i := 0;
    while i < |order|
      invariant 0 <= i <= |order|
      invariant forall k :: k in seen <==> k in order[..i]
      invariant claims == OpenedOn(tiles, units, pending, v, seen)
    {
      var c := order[i];
      assert c !in order[..i];
      OpenStep(tiles, units, pending, v, seen, c);
      if Starts(tiles[c], units, v) {
        if c !in claims {
          claims := claims[c := Opening(tiles[c], units)];
        }
      } else {
        claims := claims - {c};
      }
      assert order[..i + 1] == order[..i] + [c];
      seen := seen + {c};
      i := i + 1;
    }
    assert order[..i] == order;
    assert seen == tiles.Keys;
  }

  /** The capture block of a frame. */
  method CaptureUpdate(tiles: TileMap, order: seq<Coord>, units: UnitStore, battles: seq<Battle>,
                       claims: map<Coord, Claim>, dt: real, v: Variant)
    returns (t: TileMap, started: map<Coord, Claim>)
    requires (forall c :: c in order <==> c in tiles) && Sorted(order)
    ensures (t, started) == CaptureFrame(tiles, units, battles, claims, dt, v)
  {
    var pending;
    t, pending := SettleClaims(tiles, order, units, battles, claims, dt, v);
    SortedDistinct(order);
    started := OpenClaims(t, order, units, pending, v);
  }
}
