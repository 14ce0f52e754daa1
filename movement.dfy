/**
 * The movement block of the frame loop in client.py and visual_main.py.
 * A move order walks a Soldier along a path found by `bfs_path`, one tile
 * per `STEP_TIME` of accumulated frame time. In client.py the last step may
 * instead start a wall breach (a foreign wall on the goal) or a battle (an
 * enemy Soldier on the goal); in both copies a step onto an occupied tile
 * cancels the order and leaves the unit where it is.
 */
module Movement {
  import opened Hex
  import opened Units
  import opened Tiles
  import opened HexGrid
  import opened Battles
  import opened Paths

  /** Seconds per tile. */
  const StepTime: real := 0.4
  /** Seconds a Soldier must stand on a foreign wall's tile to break it. */
  const BreachTime: real := 10.0

  /** An entry of `active_moves`: the path, the index of the tile reached, the time banked, the mover. */
  datatype MoveOrder = MoveOrder(path: seq<Coord>, idx: nat, acc: real, unit: UnitId)

  /** A timer of `wall_break_states` or `capture_states`: the side claiming, the seconds left. */
  datatype Claim = Claim(owner: Side, remain: real)

  /** What movement can change: the tiles, the battle list and the wall-breach timers. */
  datatype Field = Field(tiles: TileMap, battles: seq<Battle>, breaches: map<Coord, Claim>)

  /** What one step did: moved one tile, ended the order, or held it (a battle already on the goal). */
  datatype Outcome = Advanced | Ended | Held

  datatype StepResult = StepResult(field: Field, order: MoveOrder, outcome: Outcome)

  /** The order after a frame: still active or gone, and whether it stopped at a held battle. */
  datatype RunResult = RunResult(field: Field, order: Option<MoveOrder>, held: bool)

  /** An order every index of which the loop may read: a non-empty path of tiles, the index on it. */
  predicate OnMap(tiles: TileMap, mv: MoveOrder) {
    |mv.path| >= 1 && mv.idx < |mv.path| && forall i :: 0 <= i < |mv.path| ==> mv.path[i] in tiles
  }

  /** The mover's side, when the store knows the mover. */
  function MoverSide(units: UnitStore, mv: MoveOrder): Option<Side> {
    if mv.unit in units then Some(units[mv.unit].owner) else None
  }

  /** client.py: the goal holds a wall of another side, and no unit or one of the mover's side. */
  predicate BreachAhead(tiles: TileMap, units: UnitStore, side: Side, nxt: Coord)
    requires nxt in tiles
  {
    var w := Resolve(tiles[nxt].wall, units);
    var occ := Resolve(tiles[nxt].unit, units);
    && w.Some? && w.value.owner != side
    && (tiles[nxt].unit.None? || (occ.Some? && occ.value.owner == side))
  }

  /** client.py: the goal holds a Soldier of another side. */
  predicate FoeAhead(tiles: TileMap, units: UnitStore, side: Side, nxt: Coord)
    requires nxt in tiles
  {
    var occ := Resolve(tiles[nxt].unit, units);
    occ.Some? && occ.value.name == Soldier && occ.value.owner != side
  }

  /** `nxt.unit = x` then `cur.unit = None`, in that order. */
  function Shift(tiles: TileMap, cur: Coord, nxt: Coord, x: Option<UnitId>): (t: TileMap)
    requires cur in tiles && nxt in tiles
    ensures t.Keys == tiles.Keys
  {
    var t1 := tiles[nxt := tiles[nxt].(unit := x)];
    t1[cur := t1[cur].(unit := None)]
  }

  /**
   * client.py's breach branch: the mover is put on the goal, its tile is
   * emptied, and a breach timer starts for its side.
   */
  function BreakIn(f: Field, mv: MoveOrder, side: Side): (s: StepResult)
    requires OnMap(f.tiles, mv) && mv.idx + 1 < |mv.path|
    ensures s.field.tiles.Keys == f.tiles.Keys && s.outcome == Ended && s.order == mv && s.field.battles == f.battles
  {
    var cur := mv.path[mv.idx];
    var nxt := mv.path[mv.idx + 1];
    StepResult(Field(Shift(f.tiles, cur, nxt, Some(mv.unit)), f.battles, f.breaches[nxt := Claim(side, BreachTime)]), mv, Ended)
  }

  /**
   * client.py's battle branch: `add_battle_once` on the goal; when it adds,
   * the mover leaves its tile and the order ends, otherwise the order holds.
   */
  function Engage(f: Field, mv: MoveOrder): (s: StepResult)
    requires OnMap(f.tiles, mv) && mv.idx + 1 < |mv.path| && f.tiles[mv.path[mv.idx + 1]].unit.Some?
    ensures s.field.tiles.Keys == f.tiles.Keys && s.outcome != Advanced && s.order == mv && s.field.breaches == f.breaches
    ensures s.field.battles == WithBattle(f.battles, Battle(mv.path[mv.idx + 1], mv.unit, f.tiles[mv.path[mv.idx + 1]].unit.value))
  {
    var cur := mv.path[mv.idx];
    var nxt := mv.path[mv.idx + 1];
    if OnTile(f.battles, nxt) then StepResult(f, mv, Held)
    else
      var t := f.tiles[cur := f.tiles[cur].(unit := None)];
      StepResult(Field(t, WithBattle(f.battles, Battle(nxt, mv.unit, f.tiles[nxt].unit.value)), f.breaches), mv, Ended)
  }

  /** The ordinary step: the next tile takes the current tile's occupant and the index moves on. */
  function Walk(f: Field, mv: MoveOrder): (s: StepResult)
    requires OnMap(f.tiles, mv) && mv.idx + 1 < |mv.path|
    ensures s.field.tiles.Keys == f.tiles.Keys && s.outcome == Advanced
    ensures s.field.battles == f.battles && s.field.breaches == f.breaches
    ensures s.order == mv.(idx := mv.idx + 1) && OnMap(s.field.tiles, s.order)
  {
    var cur := mv.path[mv.idx];
    var nxt := mv.path[mv.idx + 1];
    StepResult(Field(Shift(f.tiles, cur, nxt, f.tiles[cur].unit), f.battles, f.breaches), mv.(idx := mv.idx + 1), Advanced)
  }

  /**
   * One pass of the `while acc >= STEP_TIME` body, the time already taken
   * off: the tile after `idx` is stepped onto, or the order ends or holds.
   */
  function Step(v: Variant, f: Field, units: UnitStore, mv: MoveOrder): (s: StepResult)
    requires OnMap(f.tiles, mv)
    ensures s.field.tiles.Keys == f.tiles.Keys
    ensures s.outcome == Advanced ==> s.order == mv.(idx := mv.idx + 1) && OnMap(s.field.tiles, s.order)
    ensures s.outcome != Advanced ==> s.order == mv
    ensures OnMap(s.field.tiles, s.order)
  {
    if mv.idx + 1 >= |mv.path| then StepResult(f, mv, Ended)
    else
      var nxt := mv.path[mv.idx + 1];
      var last := mv.idx + 1 == |mv.path| - 1;
      var side := MoverSide(units, mv);
      if v == Client && last && side.Some? && BreachAhead(f.tiles, units, side.value, nxt) then BreakIn(f, mv, side.value)
      else if v == Client && last && side.Some? && FoeAhead(f.tiles, units, side.value, nxt) then Engage(f, mv)
      else if f.tiles[nxt].unit.Some? then StepResult(f, mv, Ended)
      else Walk(f, mv)
  }

  /** The steps taken in one frame once the time is banked, while a whole step's time is left. */
  function Run(v: Variant, f: Field, units: UnitStore, mv: MoveOrder): (r: RunResult)
    requires OnMap(f.tiles, mv)
    ensures r.field.tiles.Keys == f.tiles.Keys
    ensures r.order.Some? ==> OnMap(r.field.tiles, r.order.value)
    decreases |mv.path| - mv.idx, 1
  {
    if mv.acc < StepTime then RunResult(f, Some(mv), false)
    else Continue(v, units, Step(v, f, units, mv.(acc := mv.acc - StepTime)))
  }

  /** What follows one step: another pass once a tile is taken, else the end of the frame's steps. */
  function Continue(v: Variant, units: UnitStore, s: StepResult): (r: RunResult)
    requires OnMap(s.field.tiles, s.order)
    ensures r.field.tiles.Keys == s.field.tiles.Keys
    ensures r.order.Some? ==> OnMap(r.field.tiles, r.order.value)
    decreases if s.outcome == Advanced then |s.order.path| - s.order.idx + 1 else 0, 0
  {
    match s.outcome
    case Advanced => Run(v, s.field, units, s.order)
    case Ended => RunResult(s.field, None, false)
    case Held => RunResult(s.field, Some(s.order), true)
  }

  /** The head of the order's frame: bank `dt`, and on a fresh order put the mover on an empty start tile. */
  function Begin(f: Field, mv: MoveOrder, dt: real): (r: (Field, MoveOrder))
    requires OnMap(f.tiles, mv)
    ensures r.0.tiles.Keys == f.tiles.Keys && OnMap(r.0.tiles, r.1)
  {
    var m := mv.(acc := mv.acc + dt);
    if mv.idx == 0 && f.tiles[mv.path[0]].unit.None? then
      (f.(tiles := f.tiles[mv.path[0] := f.tiles[mv.path[0]].(unit := Some(mv.unit))]), m)
    else (f, m)
  }

  /** One order's whole frame. */
  function Advance(v: Variant, f: Field, units: UnitStore, mv: MoveOrder, dt: real): (r: RunResult)
    requires OnMap(f.tiles, mv)
    ensures r.field.tiles.Keys == f.tiles.Keys
  {
    var b := Begin(f, mv, dt);
    Run(v, b.0, units, b.1)
  }

  predicate AllOnMap(tiles: TileMap, moves: seq<MoveOrder>) {
    forall i :: 0 <= i < |moves| ==> OnMap(tiles, moves[i])
  }

  /** The movement block over `active_moves` in order: the field after, and the orders still active. */
  function MovedAll(v: Variant, f: Field, units: UnitStore, moves: seq<MoveOrder>, dt: real): (r: (Field, seq<MoveOrder>))
    requires AllOnMap(f.tiles, moves)
    ensures r.0.tiles.Keys == f.tiles.Keys && AllOnMap(r.0.tiles, r.1)
  {
    if moves == [] then (f, [])
    else
      var prior := MovedAll(v, f, units, moves[..|moves| - 1], dt);
      var last := moves[|moves| - 1];
      assert OnMap(prior.0.tiles, last);
      var r := Advance(v, prior.0, units, last, dt);
      (r.field, prior.1 + (if r.order.Some? then [r.order.value] else []))
  }

  // ---------------------------------------------------------------------
  // The loops
  // ---------------------------------------------------------------------

  /** The body of the step loop, as client.py and visual_main.py write it. */
  method StepOnce(v: Variant, f: Field, units: UnitStore, mv: MoveOrder) returns (s: StepResult)
    requires OnMap(f.tiles, mv)
    ensures s == Step(v, f, units, mv)
  {
    if mv.idx + 1 >= |mv.path| {
      return StepResult(f, mv, Ended);
    }
    var cur := mv.path[mv.idx];
    var nxt := mv.path[mv.idx + 1];
    var last := mv.idx + 1 == |mv.path| - 1;
    var side := MoverSide(units, mv);
    var tiles := f.tiles;
    if v == Client && last && side.Some? && BreachAhead(tiles, units, side.value, nxt) {
      tiles := tiles[nxt := tiles[nxt].(unit := Some(mv.unit))];
      tiles := tiles[cur := tiles[cur].(unit := None)];
      return StepResult(Field(tiles, f.battles, f.breaches[nxt := Claim(side.value, BreachTime)]), mv, Ended);
    }
    if v == Client && last && side.Some? && FoeAhead(tiles, units, side.value, nxt) {
      var added, battles := AddBattleOnce(f.battles, Battle(nxt, mv.unit, tiles[nxt].unit.value));
      if added {
        tiles := tiles[cur := tiles[cur].(unit := None)];
        return StepResult(Field(tiles, battles, f.breaches), mv, Ended);
      }
      return StepResult(f, mv, Held);
    }
    if tiles[nxt].unit.Some? {
      return StepResult(f, mv, Ended);
    }
    tiles := tiles[nxt := tiles[nxt].(unit := tiles[cur].unit)];
    tiles := tiles[cur := tiles[cur].(unit := None)];
    return StepResult(Field(tiles, f.battles, f.breaches), mv.(idx := mv.idx + 1), Advanced);
  }

  /** The frame of one order: bank the time, then `while acc >= STEP_TIME` steps. */
  method AdvanceOrder(v: Variant, f0: Field, units: UnitStore, mv0: MoveOrder, dt: real) returns (r: RunResult)
    requires OnMap(f0.tiles, mv0)
    ensures r == Advance(v, f0, units, mv0, dt)
  {
    ghost var goal := Advance(v, f0, units, mv0, dt);
    var f := f0;
    var mv := mv0.(acc := mv0.acc + dt);
    if mv0.idx == 0 && f.tiles[mv0.path[0]].unit.None? {
      f := f.(tiles := f.tiles[mv0.path[0] := f.tiles[mv0.path[0]].(unit := Some(mv0.unit))]);
    }
    while mv.acc >= StepTime
      invariant OnMap(f.tiles, mv)
      invariant Run(v, f, units, mv) == goal
      decreases |mv.path| - mv.idx
    {
      RunUnfold(v, f, units, mv);
      mv := mv.(acc := mv.acc - StepTime);
      var s := StepOnce(v, f, units, mv);
      if s.outcome == Ended {
        return RunResult(s.field, None, false);
      }
      if s.outcome == Held {
        return RunResult(s.field, Some(s.order), true);
      }
      f, mv := s.field, s.order;
    }
    return RunResult(f, Some(mv), false);
  }

  lemma MovedAllStep(v: Variant, f0: Field, units: UnitStore, moves: seq<MoveOrder>, i: nat, dt: real)
    requires AllOnMap(f0.tiles, moves) && i < |moves|
    ensures AllOnMap(f0.tiles, moves[..i]) && AllOnMap(f0.tiles, moves[..i + 1])
    ensures var prior := MovedAll(v, f0, units, moves[..i], dt);
            && OnMap(prior.0.tiles, moves[i])
            && var r := Advance(v, prior.0, units, moves[i], dt);
               MovedAll(v, f0, units, moves[..i + 1], dt)
               == (r.field, prior.1 + (if r.order.Some? then [r.order.value] else []))
  {
    assert moves[..i + 1][..i] == moves[..i];
  }

  /** `for mv in list(active_moves)`: each order in turn, dropping those that end. */
  method MoveAll(v: Variant, f0: Field, units: UnitStore, moves: seq<MoveOrder>, dt: real)
    returns (f: Field, kept: seq<MoveOrder>)
    requires AllOnMap(f0.tiles, moves)
    ensures (f, kept) == MovedAll(v, f0, units, moves, dt)
  {
    f, kept := f0, [];
    var i := 0;
    while i < |moves|
      invariant 0 <= i <= |moves|
      invariant AllOnMap(f0.tiles, moves[..i])
      invariant f == MovedAll(v, f0, units, moves[..i], dt).0
      invariant kept == MovedAll(v, f0, units, moves[..i], dt).1
    {
      MovedAllStep(v, f0, units, moves, i, dt);
      var r := AdvanceOrder(v, f, units, moves[i], dt);
      f := r.field;
      if r.order.Some? {
        kept := kept + [r.order.value];
      }
      i := i + 1;
    }
    assert moves[..i] == moves;
  }

  // ---------------------------------------------------------------------
  // What a step does
  // ---------------------------------------------------------------------

  /**
   * A step that moves goes exactly one tile: the next tile was empty and now
   * holds what the current one held, the current one is empty, every other
   * tile is as it was, and no owner, wall, battle or breach changes.
   */
  lemma AdvancedStepMovesOneTile(v: Variant, f: Field, units: UnitStore, mv: MoveOrder)
    requires OnMap(f.tiles, mv)
    requires Step(v, f, units, mv).outcome == Advanced
    ensures var s := Step(v, f, units, mv);
            var cur := mv.path[mv.idx];
            var nxt := mv.path[mv.idx + 1];
            && s.order == mv.(idx := mv.idx + 1)
            && f.tiles[nxt].unit.None?
            && (cur != nxt ==> s.field.tiles[nxt].unit == f.tiles[cur].unit && s.field.tiles[cur].unit.None?)
            && (forall c :: c in f.tiles && c != cur && c != nxt ==> s.field.tiles[c] == f.tiles[c])
            && (forall c :: c in f.tiles ==> s.field.tiles[c] == f.tiles[c].(unit := s.field.tiles[c].unit))
            && s.field.battles == f.battles && s.field.breaches == f.breaches
  {
  }

  /**
   * A step onto an occupied tile that starts neither a breach nor a battle
   * ends the order and changes nothing: the unit stays where it is. In
   * visual_main.py this is every step onto an occupied tile.
   */
  lemma BlockedStepChangesNothing(v: Variant, f: Field, units: UnitStore, mv: MoveOrder)
    requires OnMap(f.tiles, mv) && mv.idx + 1 < |mv.path|
    requires f.tiles[mv.path[mv.idx + 1]].unit.Some?
    requires v == Visual || mv.idx + 2 < |mv.path| || MoverSide(units, mv).None?
    ensures Step(v, f, units, mv) == StepResult(f, mv, Ended)
  {
  }

  /** The order's path is used up: the order ends with nothing changed. */
  lemma PathEndEndsOrder(v: Variant, f: Field, units: UnitStore, mv: MoveOrder)
    requires OnMap(f.tiles, mv) && mv.idx + 1 == |mv.path|
    ensures Step(v, f, units, mv) == StepResult(f, mv, Ended)
  {
  }

  /**
   * client.py, last step onto a foreign wall: the mover stands on the goal,
   * its tile is emptied, and a breach timer of ten seconds starts for its side.
   */
  lemma LastStepStartsBreach(f: Field, units: UnitStore, mv: MoveOrder)
    requires OnMap(f.tiles, mv) && mv.idx + 2 == |mv.path| && mv.unit in units
    requires BreachAhead(f.tiles, units, units[mv.unit].owner, mv.path[mv.idx + 1])
    ensures var s := Step(Client, f, units, mv);
            var cur := mv.path[mv.idx];
            var nxt := mv.path[mv.idx + 1];
            && s.outcome == Ended
            && s.field.breaches == f.breaches[nxt := Claim(units[mv.unit].owner, BreachTime)]
            && s.field.tiles[cur].unit.None?
            && (cur != nxt ==> s.field.tiles[nxt].unit == Some(mv.unit))
            && s.field.battles == f.battles
  {
  }

  /**
   * client.py, last step onto an enemy Soldier with no wall to breach: a
   * battle is registered unless the tile has one, and only then does the
   * mover leave its tile and the order end; otherwise the order waits.
   */
  lemma LastStepStartsBattle(f: Field, units: UnitStore, mv: MoveOrder)
    requires OnMap(f.tiles, mv) && mv.idx + 2 == |mv.path| && mv.unit in units
    requires !BreachAhead(f.tiles, units, units[mv.unit].owner, mv.path[mv.idx + 1])
    requires FoeAhead(f.tiles, units, units[mv.unit].owner, mv.path[mv.idx + 1])
    ensures var s := Step(Client, f, units, mv);
            var cur := mv.path[mv.idx];
            var nxt := mv.path[mv.idx + 1];
            && (OnTile(f.battles, nxt) <==> s.outcome == Held)
            && (s.outcome == Held ==> s.field == f)
            && (s.outcome != Held ==>
                  && s.outcome == Ended
                  && s.field.battles == f.battles + [Battle(nxt, mv.unit, f.tiles[nxt].unit.value)]
                  && s.field.tiles == f.tiles[cur := f.tiles[cur].(unit := None)])
  {
  }

  /** No step changes an owner or a wall, and none drops a battle or a breach timer. */
  lemma StepKeepsGround(v: Variant, f: Field, units: UnitStore, mv: MoveOrder)
    requires OnMap(f.tiles, mv)
    ensures var s := Step(v, f, units, mv);
            && s.field.tiles.Keys == f.tiles.Keys
            && (forall c :: c in f.tiles ==> s.field.tiles[c] == f.tiles[c].(unit := s.field.tiles[c].unit))
            && f.battles <= s.field.battles
            && f.breaches.Keys <= s.field.breaches.Keys
            && (s.outcome == Advanced ==> OnMap(s.field.tiles, s.order))
  {
    var s := Step(v, f, units, mv);
    if mv.idx + 1 < |mv.path| {
      var cur := mv.path[mv.idx];
      var nxt := mv.path[mv.idx + 1];
      var last := mv.idx + 1 == |mv.path| - 1;
      var side := MoverSide(units, mv);
      if v == Client && last && side.Some? && BreachAhead(f.tiles, units, side.value, nxt) {
        assert s == BreakIn(f, mv, side.value);
        ShiftKeepsGround(f.tiles, cur, nxt, Some(mv.unit));
      } else if v == Client && last && side.Some? && FoeAhead(f.tiles, units, side.value, nxt) {
        assert s == Engage(f, mv);
        EngageKeepsGround(f, mv);
      } else if f.tiles[nxt].unit.None? {
        assert s == Walk(f, mv);
        ShiftKeepsGround(f.tiles, cur, nxt, f.tiles[cur].unit);
      }
    }
  }

  lemma EngageKeepsGround(f: Field, mv: MoveOrder)
    requires OnMap(f.tiles, mv) && mv.idx + 1 < |mv.path| && f.tiles[mv.path[mv.idx + 1]].unit.Some?
    ensures var g := Engage(f, mv).field;
            && (forall c :: c in f.tiles ==> g.tiles[c] == f.tiles[c].(unit := g.tiles[c].unit))
            && f.battles <= g.battles
  {
  }

  lemma ShiftKeepsGround(tiles: TileMap, cur: Coord, nxt: Coord, x: Option<UnitId>)
    requires cur in tiles && nxt in tiles
    ensures var t := Shift(tiles, cur, nxt, x); forall c :: c in tiles ==> t[c] == tiles[c].(unit := t[c].unit)
  {
  }

  /** In visual_main.py movement never touches battles or breach timers. */
  lemma VisualStepKeepsTimers(f: Field, units: UnitStore, mv: MoveOrder)
    requires OnMap(f.tiles, mv)
    ensures Step(Visual, f, units, mv).field.battles == f.battles
    ensures Step(Visual, f, units, mv).field.breaches == f.breaches
  {
  }

  // ---------------------------------------------------------------------
  // Time and distance
  // ---------------------------------------------------------------------

  /** `Run` after one step, as the three outcomes continue it. */
  lemma RunUnfold(v: Variant, f: Field, units: UnitStore, mv: MoveOrder)
    requires OnMap(f.tiles, mv) && mv.acc >= StepTime
    ensures var s := Step(v, f, units, mv.(acc := mv.acc - StepTime));
            && (s.outcome == Advanced ==> Run(v, f, units, mv) == Run(v, s.field, units, s.order))
            && (s.outcome == Ended ==> Run(v, f, units, mv) == RunResult(s.field, None, false))
            && (s.outcome == Held ==> Run(v, f, units, mv) == RunResult(s.field, Some(s.order), true))
  {
    RunIsContinue(v, f, units, mv);
  }

  lemma RunIsContinue(v: Variant, f: Field, units: UnitStore, mv: MoveOrder)
    requires OnMap(f.tiles, mv) && mv.acc >= StepTime
    ensures Run(v, f, units, mv) == Continue(v, units, Step(v, f, units, mv.(acc := mv.acc - StepTime)))
  {
  }

  /**
   * Each `STEP_TIME` spent buys exactly one tile: an order still active
   * after the frame has advanced by as many tiles as whole steps were taken
   * from its bank (one more step when it held at a battle), and unless it
   * held, less than a step's time is left.
   */
  lemma {:induction false} RunSpendsOneStepPerTile(v: Variant, f: Field, units: UnitStore, mv: MoveOrder)
    requires OnMap(f.tiles, mv)
    ensures var r := Run(v, f, units, mv);
            r.order.Some? ==>
              && r.order.value.idx >= mv.idx
              && r.order.value.path == mv.path && r.order.value.unit == mv.unit
              && r.order.value.acc
                 == mv.acc - ((r.order.value.idx - mv.idx) as real + (if r.held then 1.0 else 0.0)) * StepTime
              && (!r.held ==> r.order.value.acc < StepTime)
    decreases |mv.path| - mv.idx
  {
    if mv.acc >= StepTime {
      var s := Step(v, f, units, mv.(acc := mv.acc - StepTime));
      RunUnfold(v, f, units, mv);
      if s.outcome == Advanced {
        RunSpendsOneStepPerTile(v, s.field, units, s.order);
      }
    }
  }

  /** Battles stay one per tile through a frame of one order. */
  lemma {:induction false} RunKeepsOnePerTile(v: Variant, f: Field, units: UnitStore, mv: MoveOrder)
    requires OnMap(f.tiles, mv) && OnePerTile(f.battles)
    ensures OnePerTile(Run(v, f, units, mv).field.battles)
    decreases |mv.path| - mv.idx
  {
    if mv.acc >= StepTime {
      var s := Step(v, f, units, mv.(acc := mv.acc - StepTime));
      RunUnfold(v, f, units, mv);
      StepKeepsOnePerTile(v, f, units, mv.(acc := mv.acc - StepTime));
      if s.outcome == Advanced {
        RunKeepsOnePerTile(v, s.field, units, s.order);
      }
    }
  }

  /** A step keeps battles one per tile: it adds one only through `add_battle_once`. */
  lemma StepKeepsOnePerTile(v: Variant, f: Field, units: UnitStore, mv: MoveOrder)
    requires OnMap(f.tiles, mv) && OnePerTile(f.battles)
    ensures OnePerTile(Step(v, f, units, mv).field.battles)
  {
    if mv.idx + 1 < |mv.path| && f.tiles[mv.path[mv.idx + 1]].unit.Some? {
      var nxt := mv.path[mv.idx + 1];
      WithBattleKeepsOnePerTile(f.battles, Battle(nxt, mv.unit, f.tiles[nxt].unit.value));
    }
  }

  /** Battles stay one per tile through the whole movement block. */
  lemma {:induction false} MovedAllKeepsOnePerTile(v: Variant, f: Field, units: UnitStore, moves: seq<MoveOrder>, dt: real)
    requires AllOnMap(f.tiles, moves) && OnePerTile(f.battles)
    ensures OnePerTile(MovedAll(v, f, units, moves, dt).0.battles)
  {
    if moves != [] {
      MovedAllKeepsOnePerTile(v, f, units, moves[..|moves| - 1], dt);
      var prior := MovedAll(v, f, units, moves[..|moves| - 1], dt);
      var b := Begin(prior.0, moves[|moves| - 1], dt);
      RunKeepsOnePerTile(v, b.0, units, b.1);
    }
  }

  /** The orders still active after the block are among those before, in the same order. */
  lemma {:induction false} MovedAllKeepsPaths(v: Variant, f: Field, units: UnitStore, moves: seq<MoveOrder>, dt: real)
    requires AllOnMap(f.tiles, moves)
    ensures var kept := MovedAll(v, f, units, moves, dt).1;
            && |kept| <= |moves|
            && forall k :: 0 <= k < |kept| ==> exists j :: 0 <= j < |moves| && kept[k].path == moves[j].path
                                                        && kept[k].unit == moves[j].unit
  {
    if moves != [] {
      var init := moves[..|moves| - 1];
      MovedAllKeepsPaths(v, f, units, init, dt);
      var prior := MovedAll(v, f, units, init, dt);
      var b := Begin(prior.0, moves[|moves| - 1], dt);
      RunSpendsOneStepPerTile(v, b.0, units, b.1);
      var kept := MovedAll(v, f, units, moves, dt).1;
      forall k | 0 <= k < |kept|
        ensures exists j :: 0 <= j < |moves| && kept[k].path == moves[j].path && kept[k].unit == moves[j].unit
      {
        if k < |prior.1| {
          var j :| 0 <= j < |init| && prior.1[k].path == init[j].path && prior.1[k].unit == init[j].unit;
          assert moves[j] == init[j];
        } else {
          assert kept[k].path == moves[|moves| - 1].path;
        }
      }
    }
  }
}
