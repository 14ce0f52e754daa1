/**
 * The state that `main()` of client.py and of visual_main.py keeps between
 * events: the side in control, the selected Soldier's tile, the reserve
 * lists, the active move orders, the battle list, the breach and capture
 * timers and the combat clock, next to the tiles and the unit objects.
 *
 * Three mouse commands act on it (the right-click recall, the TAB switch
 * and the left-click select / teleport / move command), and once per frame
 * the rule blocks run in the order the frame loop writes them: movement,
 * combat, wall breaches, capture in client.py; movement and capture in
 * visual_main.py.
 */
module Session {
  import opened Hex
  import opened Units
  import opened Tiles
  import opened HexGrid
  import opened Battles
  import opened Paths
  import opened Movement
  import Combat
  import Capture

  // ---------------------------------------------------------------------
  // The state
  // ---------------------------------------------------------------------

  /** The four lists of `reserve[side]`. */
  datatype Kind = SoldierKind | SetpointKind | MedicalKind | WallKind

  datatype Reserve = Reserve(soldier: seq<UnitId>, setpoint: seq<UnitId>, medical: seq<UnitId>, wall: seq<UnitId>)
  {
    /** How many times unit `x` waits in the four lists. */
    function Waiting(x: UnitId): nat {
      multiset(soldier)[x] + multiset(setpoint)[x] + multiset(medical)[x] + multiset(wall)[x]
    }

    /** `reserve[side][kind].append(id)`: the unit joins the end of that list and no other. */
    function Add(k: Kind, id: UnitId): (r: Reserve)
      ensures r.List(k) == List(k) + [id]
      ensures forall j: Kind :: j != k ==> r.List(j) == List(j)
    {
      match k
      case SoldierKind => this.(soldier := soldier + [id])
      case SetpointKind => this.(setpoint := setpoint + [id])
      case MedicalKind => this.(medical := medical + [id])
      case WallKind => this.(wall := wall + [id])
    }

    function List(k: Kind): seq<UnitId> {
      match k
      case SoldierKind => soldier
      case SetpointKind => setpoint
      case MedicalKind => medical
      case WallKind => wall
    }
  }

  /** The list a recalled unit goes back to: its own for a Setpoint or a Medical unit, the Soldiers' for any other. */
  function KindOf(u: Unit): Kind {
    if u.isSetpoint then SetpointKind else if u.isMedical then MedicalKind else SoldierKind
  }

  datatype State = State(
    tiles: TileMap,
    units: UnitStore,
    /** `control_side` */
    side: Side,
    /** `selected_unit_tile`, by its coordinate */
    selected: Option<Coord>,
    reserve: PerSide<Reserve>,
    /** `active_moves` */
    moves: seq<MoveOrder>,
    battles: seq<Battle>,
    /** `wall_break_states` */
    breaches: map<Coord, Claim>,
    /** `capture_states` */
    captures: map<Coord, Claim>,
    /** `combat_accum` */
    accum: real)

  /** What a command did; the toast the source shows names the same outcome. */
  datatype Reply =
    | Ignored | Deselected | Recalled | NotReturnable
    | Selected | ToPlacement | TargetOccupied | Teleported | BattleStarted | BattleExists | MoveStarted | NoRoute

  datatype Answer = Answer(state: State, reply: Reply)

  /**
   * The facts every loop of the frame relies on: each move order, battle
   * and the selection lie on the map, no tile has two battles, each capture
   * timer lies in (0, `CaptureTime`], and the combat clock is not negative.
   */
  predicate Ready(s: State) {
    && AllOnMap(s.tiles, s.moves)
    && Combat.OnMap(s.tiles, s.battles)
    && OnePerTile(s.battles)
    && Capture.ClaimsBounded(s.captures)
    && s.accum >= 0.0
    && (s.selected.Some? ==> s.selected.value in s.tiles)
  }

  // ---------------------------------------------------------------------
  // Where the units are
  // ---------------------------------------------------------------------

  /** Whether tile `c` holds unit `x`. */
  function Slot(tiles: TileMap, c: Coord, x: UnitId): nat {
    if c in tiles && tiles[c].unit == Some(x) then 1 else 0
  }

  /** How many of the tiles listed in `order` hold unit `x`. */
  function OnTiles(tiles: TileMap, order: seq<Coord>, x: UnitId): nat {
    if order == [] then 0 else Slot(tiles, order[0], x) + OnTiles(tiles, order[1..], x)
  }

  /** How many move orders carry unit `x`. */
  function Movers(moves: seq<MoveOrder>, x: UnitId): nat {
    if moves == [] then 0 else Movers(moves[..|moves| - 1], x) + (if moves[|moves| - 1].unit == x then 1 else 0)
  }

  /** How many battles have unit `x` attacking: an attacker has left its tile. */
  function Attackers(battles: seq<Battle>, x: UnitId): nat {
    if battles == [] then 0 else Attackers(battles[..|battles| - 1], x) + (if battles[|battles| - 1].att == x then 1 else 0)
  }

  /**
   * How many places hold unit `x`: a tile, a reserve list, a move order, a
   * battle it attacks in.
   */
  function Held(s: State, order: seq<Coord>, x: UnitId): nat {
    OnTiles(s.tiles, order, x) + s.reserve.ally.Waiting(x) + s.reserve.enemy.Waiting(x) + Movers(s.moves, x) + Attackers(s.battles, x)
  }

  lemma {:induction false} OnTilesElsewhere(tiles: TileMap, order: seq<Coord>, c: Coord, t: Tile, x: UnitId)
    requires c !in order
    ensures OnTiles(tiles[c := t], order, x) == OnTiles(tiles, order, x)
  {
    if order != [] {
      OnTilesElsewhere(tiles, order[1..], c, t, x);
    }
  }

  /** Replacing one listed tile trades its unit for the new tile's. */
  lemma {:induction false} OnTilesUpdate(tiles: TileMap, order: seq<Coord>, c: Coord, t: Tile, x: UnitId)
    requires NoDuplicates(order) && c in order && c in tiles
    ensures OnTiles(tiles[c := t], order, x) + Slot(tiles, c, x) == OnTiles(tiles, order, x) + Slot(tiles[c := t], c, x)
  {
    if order[0] == c {
      assert c !in order[1..] by {
        forall j | 0 <= j < |order[1..]| ensures order[1..][j] != c {
          assert order[1..][j] == order[j + 1];
        }
      }
      OnTilesElsewhere(tiles, order[1..], c, t, x);
    } else {
      assert NoDuplicates(order[1..]) by {
        forall i, j | 0 <= i < j < |order[1..]| ensures order[1..][i] != order[1..][j] {
          assert order[1..][i] == order[i + 1] && order[1..][j] == order[j + 1];
        }
      }
      OnTilesUpdate(tiles, order[1..], c, t, x);
    }
  }

  lemma MoversAppend(moves: seq<MoveOrder>, mv: MoveOrder, x: UnitId)
    ensures Movers(moves + [mv], x) == Movers(moves, x) + (if mv.unit == x then 1 else 0)
  {
    assert (moves + [mv])[..|moves|] == moves;
  }

  lemma AttackersAppend(battles: seq<Battle>, b: Battle, x: UnitId)
    ensures Attackers(battles + [b], x) == Attackers(battles, x) + (if b.att == x then 1 else 0)
  {
    assert (battles + [b])[..|battles|] == battles;
  }

  /** Adding `id` to one list of one side adds one wait for `id` and none for any other unit. */
  lemma AddWaits(p: PerSide<Reserve>, side: Side, k: Kind, id: UnitId, x: UnitId)
    ensures var q := p.Set(side, p.Get(side).Add(k, id));
            q.ally.Waiting(x) + q.enemy.Waiting(x) == p.ally.Waiting(x) + p.enemy.Waiting(x) + (if id == x then 1 else 0)
  {
    var r := p.Get(side);
    var r2 := r.Add(k, id);
    assert r2.Waiting(x) == r.Waiting(x) + (if id == x then 1 else 0) by {
      match k
      case SoldierKind => assert r2.soldier == r.soldier + [id];
      case SetpointKind => assert r2.setpoint == r.setpoint + [id];
      case MedicalKind => assert r2.medical == r.medical + [id];
      case WallKind => assert r2.wall == r.wall + [id];
    }
  }

  // ---------------------------------------------------------------------
  // Commands
  // ---------------------------------------------------------------------

  /**
   * Right-click on `c`: on the selected tile it clears the selection;
   * otherwise a unit of the side in control that is not a Pinpoint leaves
   * its tile for the reserve list of its kind. client.py refuses a Soldier
   * that has fought; visual_main.py has no such check.
   */
  function Recall(v: Variant, s: State, c: Coord): Answer {
    if c !in s.tiles then Answer(s, Ignored)
    else if s.selected == Some(c) then Answer(s.(selected := None), Deselected)
    else
      var u := Resolve(s.tiles[c].unit, s.units);
      if u.None? || u.value.owner != s.side || u.value.isPinpoint then Answer(s, Ignored)
      else if v == Client && u.value.name == Soldier && u.value.hasFought then Answer(s, NotReturnable)
      else
        var pool := s.reserve.Get(s.side).Add(KindOf(u.value), s.tiles[c].unit.value);
        Answer(s.(tiles := s.tiles[c := s.tiles[c].(unit := None)], reserve := s.reserve.Set(s.side, pool)), Recalled)
  }

  /**
   * TAB: the other side takes control and the selection is cleared; the
   * tiles, units and timers are untouched.
   */
  function SwitchSide(s: State): (r: State)
    ensures r.side != s.side && r.side.Other() == s.side && r.selected.None?
    ensures r == s.(side := r.side, selected := None)
  {
    s.(side := s.side.Other(), selected := None)
  }

  /** The selected tile holds a Soldier: a left-click elsewhere is an order for it. */
  predicate SoldierSelected(s: State) {
    && s.selected.Some? && s.selected.value in s.tiles
    && var u := Resolve(s.tiles[s.selected.value].unit, s.units); u.Some? && u.value.name == Soldier
  }

  /** A left-click on `c` selects a Soldier of the side in control standing there. */
  predicate Selects(s: State, c: Coord)
    requires c in s.tiles
  {
    var u := Resolve(s.tiles[c].unit, s.units);
    u.Some? && u.value.owner == s.side && u.value.name == Soldier
  }

  /** Both the selected tile and `c` belong to the side in control: the order is carried out at once. */
  predicate Inside(s: State, c: Coord)
    requires c in s.tiles && SoldierSelected(s)
  {
    s.tiles[c].owner == s.side && s.tiles[s.selected.value].owner == s.side
  }

  /** The left-click on `c` is a move order that needs a route. */
  predicate NeedsRoute(v: Variant, s: State, c: Coord) {
    && c in s.tiles && !Selects(s, c) && SoldierSelected(s)
    && !(v == Visual && s.tiles[c].unit.Some?)
    && !Inside(s, c)
  }

  /** The selected tile's unit leaves it. */
  function Vacated(s: State): TileMap
    requires SoldierSelected(s)
  {
    var from := s.selected.value;
    s.tiles[from := s.tiles[from].(unit := None)]
  }

  /**
   * Left-click on `c`, given the route the search returns when one is
   * needed: select a Soldier of the side in control; with a Soldier
   * selected, inside own territory teleport it to an empty tile (in
   * client.py, start a battle on a foe's Soldier), elsewhere start a move
   * order along the route; with nothing selected the click goes on to the
   * placement block. visual_main.py refuses any occupied target first.
   */
  function Click(v: Variant, s: State, c: Coord, route: Option<seq<Coord>>): Answer {
    if c !in s.tiles then Answer(s, Ignored)
    else if Selects(s, c) then Answer(s.(selected := Some(c)), Selected)
    else if !SoldierSelected(s) then Answer(s, ToPlacement)
    else
      var from := s.selected.value;
      var soldier := s.tiles[from].unit.value;
      var t := s.tiles[c];
      var occ := Resolve(t.unit, s.units);
      if v == Visual && t.unit.Some? then Answer(s, TargetOccupied)
      else if Inside(s, c) then
        if v == Client && occ.Some? && occ.value.name == Soldier && occ.value.owner != s.side then
          if OnTile(s.battles, c) then Answer(s, BattleExists)
          else Answer(s.(battles := s.battles + [Battle(c, soldier, t.unit.value)], tiles := Vacated(s), selected := None), BattleStarted)
        else if t.unit.None? then
          var placed := s.tiles[c := t.(unit := Some(soldier))];
          Answer(s.(tiles := placed[from := placed[from].(unit := None)], selected := Some(c)), Teleported)
        else Answer(s, TargetOccupied)
      else if route.None? then Answer(s, NoRoute)
      else Answer(s.(moves := s.moves + [MoveOrder(route.value, 0, 0.0, soldier)], tiles := Vacated(s), selected := None), MoveStarted)
  }

  /** The left-click handler: the search runs only for a move order out of own territory. */
  method LeftClick(v: Variant, s: State, c: Coord) returns (a: Answer, route: Option<seq<Coord>>)
    ensures a == Click(v, s, c, route)
    ensures !NeedsRoute(v, s, c) ==> route.None?
    ensures NeedsRoute(v, s, c) ==>
              && (route.None? <==> forall p :: !IsRoute(v, s.tiles, s.units, s.selected.value, c, p))
              && (route.Some? ==> IsRoute(v, s.tiles, s.units, s.selected.value, c, route.value))
  {
    route := None;
    if NeedsRoute(v, s, c) {
      route := Bfs(v, s.tiles, s.units, s.selected.value, c);
    }
    a := Click(v, s, c, route);
  }

  // ---------------------------------------------------------------------
  // What the commands promise
  // ---------------------------------------------------------------------

  /**
   * A recall moves the unit from its tile to the end of the side's list of
   * its kind and changes nothing else; every other reply leaves tiles,
   * reserve, orders and battles as they were.
   */
  lemma RecallRules(v: Variant, s: State, c: Coord)
    ensures var a := Recall(v, s, c);
            && (a.reply == Recalled <==>
                  && c in s.tiles && s.selected != Some(c)
                  && var u := Resolve(s.tiles[c].unit, s.units);
                     && u.Some? && u.value.owner == s.side && !u.value.isPinpoint
                     && !(v == Client && u.value.name == Soldier && u.value.hasFought))
            && (a.reply == Recalled ==>
                  var id := s.tiles[c].unit.value;
                  && a.state.tiles == s.tiles[c := s.tiles[c].(unit := None)]
                  && a.state.reserve.Get(s.side).List(KindOf(s.units[id])) == s.reserve.Get(s.side).List(KindOf(s.units[id])) + [id]
                  && a.state.reserve.Get(s.side.Other()) == s.reserve.Get(s.side.Other()))
            && (a.reply != Recalled ==> a.state == s || a.state == s.(selected := None))
            && a.state == s.(tiles := a.state.tiles, reserve := a.state.reserve, selected := a.state.selected)
  {
  }

  /** No recall creates or loses a unit: it only moves one from a tile to a reserve list. */
  lemma RecallKeepsUnits(v: Variant, s: State, c: Coord, order: seq<Coord>, x: UnitId)
    requires (forall k :: k in order <==> k in s.tiles) && NoDuplicates(order)
    ensures Held(Recall(v, s, c).state, order, x) == Held(s, order, x)
  {
    var a := Recall(v, s, c);
    if a.reply == Recalled {
      var id := s.tiles[c].unit.value;
      OnTilesUpdate(s.tiles, order, c, s.tiles[c].(unit := None), x);
      AddWaits(s.reserve, s.side, KindOf(s.units[id]), id, x);
    }
  }

  /**
   * Inside own territory a Soldier relocates at once: it stands on `c`, its
   * old tile is empty, it stays selected, and nothing else changes.
   */
  lemma TeleportRules(v: Variant, s: State, c: Coord, route: Option<seq<Coord>>)
    requires c in s.tiles && !Selects(s, c) && SoldierSelected(s) && Inside(s, c)
    requires s.tiles[c].unit.None?
    ensures var a := Click(v, s, c, route);
            var from := s.selected.value;
            && a.reply == Teleported
            && a.state.tiles[c].unit == s.tiles[from].unit
            && a.state.tiles[from].unit.None?
            && a.state.selected == Some(c)
            && (forall k :: k in s.tiles && k != c && k != from ==> a.state.tiles[k] == s.tiles[k])
            && a.state == s.(tiles := a.state.tiles, selected := Some(c))
  {
    assert c != s.selected.value;
  }

  /** visual_main.py refuses an occupied target outright, with no change at all. */
  lemma VisualOccupiedRefused(s: State, c: Coord, route: Option<seq<Coord>>)
    requires c in s.tiles && !Selects(s, c) && SoldierSelected(s) && s.tiles[c].unit.Some?
    ensures Click(Visual, s, c, route) == Answer(s, TargetOccupied)
  {
  }

  /**
   * A move order starts only with a route: the new order follows it from
   * its first tile with no time banked, carries the selected Soldier, and
   * the Soldier leaves its tile until the frame puts it back on the path's
   * first tile.
   */
  lemma MoveOrderRules(v: Variant, s: State, c: Coord, route: Option<seq<Coord>>)
    requires NeedsRoute(v, s, c)
    ensures var a := Click(v, s, c, route);
            && (a.reply == MoveStarted <==> route.Some?)
            && (route.None? ==> a.state == s)
            && (route.Some? ==>
                  && a.state.moves == s.moves + [MoveOrder(route.value, 0, 0.0, s.tiles[s.selected.value].unit.value)]
                  && a.state.tiles == Vacated(s) && a.state.selected.None?)
  {
  }

  /**
   * In client.py a click inside own territory on a foe's Soldier registers
   * one battle on that tile, with the selected Soldier attacking; if the
   * tile already has a battle nothing changes.
   */
  lemma BattleCommandRules(s: State, c: Coord, route: Option<seq<Coord>>)
    requires c in s.tiles && !Selects(s, c) && SoldierSelected(s) && Inside(s, c)
    requires var occ := Resolve(s.tiles[c].unit, s.units); occ.Some? && occ.value.name == Soldier && occ.value.owner != s.side
    ensures var a := Click(Client, s, c, route);
            && (OnTile(s.battles, c) ==> a == Answer(s, BattleExists))
            && (!OnTile(s.battles, c) ==>
                  && a.reply == BattleStarted
                  && a.state.battles == WithBattle(s.battles, Battle(c, s.tiles[s.selected.value].unit.value, s.tiles[c].unit.value))
                  && a.state.tiles == Vacated(s) && a.state.selected.None?)
  {
  }

  /**
   * No left-click creates or loses a unit: it moves one between a tile and
   * a tile, a move order or a battle's attacker.
   */
  lemma ClickKeepsUnits(v: Variant, s: State, c: Coord, route: Option<seq<Coord>>, order: seq<Coord>, x: UnitId)
    requires (forall k :: k in order <==> k in s.tiles) && NoDuplicates(order)
    ensures Held(Click(v, s, c, route).state, order, x) == Held(s, order, x)
  {
    if c in s.tiles && !Selects(s, c) && SoldierSelected(s) && !(v == Visual && s.tiles[c].unit.Some?) {
      var from := s.selected.value;
      var soldier := s.tiles[from].unit.value;
      var t := s.tiles[c];
      var occ := Resolve(t.unit, s.units);
      if Inside(s, c) {
        if v == Client && occ.Some? && occ.value.name == Soldier && occ.value.owner != s.side {
          if !OnTile(s.battles, c) {
            VacatedKeepsOthers(s, order, x);
            AttackersAppend(s.battles, Battle(c, soldier, t.unit.value), x);
          }
        } else if t.unit.None? {
          TeleportKeepsUnits(s, c, order, x);
        }
      } else if route.Some? {
        VacatedKeepsOthers(s, order, x);
        MoversAppend(s.moves, MoveOrder(route.value, 0, 0.0, soldier), x);
      }
    }
  }

  /** Emptying the selected tile takes exactly its Soldier off the tiles. */
  lemma VacatedKeepsOthers(s: State, order: seq<Coord>, x: UnitId)
    requires (forall k :: k in order <==> k in s.tiles) && NoDuplicates(order) && SoldierSelected(s)
    ensures OnTiles(Vacated(s), order, x) + (if s.tiles[s.selected.value].unit == Some(x) then 1 else 0) == OnTiles(s.tiles, order, x)
  {
    var from := s.selected.value;
    OnTilesUpdate(s.tiles, order, from, s.tiles[from].(unit := None), x);
  }

  /** A teleport moves the Soldier from one tile to another: the tiles hold the same units. */
  lemma TeleportKeepsUnits(s: State, c: Coord, order: seq<Coord>, x: UnitId)
    requires (forall k :: k in order <==> k in s.tiles) && NoDuplicates(order) && SoldierSelected(s)
    requires c in s.tiles && s.tiles[c].unit.None?
    ensures var from := s.selected.value;
            var placed := s.tiles[c := s.tiles[c].(unit := s.tiles[from].unit)];
            OnTiles(placed[from := placed[from].(unit := None)], order, x) == OnTiles(s.tiles, order, x)
  {
    var from := s.selected.value;
    var placed := s.tiles[c := s.tiles[c].(unit := s.tiles[from].unit)];
    OnTilesUpdate(s.tiles, order, c, s.tiles[c].(unit := s.tiles[from].unit), x);
    OnTilesUpdate(placed, order, from, placed[from].(unit := None), x);
  }

  /** A recall and a change of side keep the state ready for the frame. */
  lemma RecallKeepsReady(v: Variant, s: State, c: Coord)
    requires Ready(s)
    ensures Ready(Recall(v, s, c).state)
    ensures Ready(SwitchSide(s))
  {
  }

  /** A left-click keeps the state ready for the frame, given the route the search returned. */
  lemma ClickKeepsReady(v: Variant, s: State, c: Coord, route: Option<seq<Coord>>)
    requires Ready(s)
    requires NeedsRoute(v, s, c) && route.Some? ==> IsRoute(v, s.tiles, s.units, s.selected.value, c, route.value)
    ensures Ready(Click(v, s, c, route).state)
  {
    var a := Click(v, s, c, route);
    if a.reply == BattleStarted {
      WithBattleKeepsOnePerTile(s.battles, Battle(c, s.tiles[s.selected.value].unit.value, s.tiles[c].unit.value));
    } else if a.reply == MoveStarted {
      var mv := MoveOrder(route.value, 0, 0.0, s.tiles[s.selected.value].unit.value);
      assert OnMap(a.state.tiles, mv);
    }
  }

  // ---------------------------------------------------------------------
  // The frame
  // ---------------------------------------------------------------------

  /** A step of movement registers battles only on tiles of its path. */
  lemma StepBattlesOnMap(v: Variant, f: Field, units: UnitStore, mv: MoveOrder)
    requires OnMap(f.tiles, mv) && Combat.OnMap(f.tiles, f.battles)
    ensures var g := Step(v, f, units, mv).field; Combat.OnMap(g.tiles, g.battles)
  {
    if mv.idx + 1 < |mv.path| {
      var nxt := mv.path[mv.idx + 1];
      if f.tiles[nxt].unit.Some? {
        var b := Battle(nxt, mv.unit, f.tiles[nxt].unit.value);
        assert WithBattle(f.battles, b) == f.battles || WithBattle(f.battles, b) == f.battles + [b];
      }
    }
  }

  lemma {:induction false} RunBattlesOnMap(v: Variant, f: Field, units: UnitStore, mv: MoveOrder)
    requires OnMap(f.tiles, mv) && Combat.OnMap(f.tiles, f.battles)
    ensures var g := Run(v, f, units, mv).field; Combat.OnMap(g.tiles, g.battles)
    decreases |mv.path| - mv.idx
  {
    if mv.acc >= StepTime {
      var s := Step(v, f, units, mv.(acc := mv.acc - StepTime));
      RunUnfold(v, f, units, mv);
      StepBattlesOnMap(v, f, units, mv.(acc := mv.acc - StepTime));
      if s.outcome == Advanced {
        RunBattlesOnMap(v, s.field, units, s.order);
      }
    }
  }

  /** The movement block leaves every battle on a tile of the map. */
  lemma {:induction false} MovedAllBattlesOnMap(v: Variant, f: Field, units: UnitStore, moves: seq<MoveOrder>, dt: real)
    requires AllOnMap(f.tiles, moves) && Combat.OnMap(f.tiles, f.battles)
    ensures var g := MovedAll(v, f, units, moves, dt).0; Combat.OnMap(g.tiles, g.battles)
  {
    if moves != [] {
      MovedAllBattlesOnMap(v, f, units, moves[..|moves| - 1], dt);
      var prior := MovedAll(v, f, units, moves[..|moves| - 1], dt);
      var b := Begin(prior.0, moves[|moves| - 1], dt);
      RunBattlesOnMap(v, b.0, units, b.1);
    }
  }

  /**
   * One frame of client.py after `update_systems`: the movement block, the
   * combat block, the wall-breach block and the capture block, each on what
   * the one before left. `critAtt(i)` and `critDef(i)` are the crit rolls of
   * the `i`-th battle of the round.
   */
  function ClientFrame(s: State, dt: real, critAtt: nat -> bool, critDef: nat -> bool): State
    requires AllOnMap(s.tiles, s.moves)
  {
    var m := MovedAll(Client, Field(s.tiles, s.battles, s.breaches), s.units, s.moves, dt);
    var a := Combat.CombatFrame(Combat.Arena(m.0.tiles, s.units, m.0.battles, s.accum), dt, critAtt, critDef);
    var walls := Capture.WallsAfter(a.tiles, a.units, m.0.breaches, dt);
    var cap := Capture.CaptureFrame(walls, a.units, a.battles, s.captures, dt, Client);
    s.(tiles := cap.0, units := a.units, moves := m.1, battles := a.battles,
       breaches := Capture.BreachesAfter(a.tiles, a.units, m.0.breaches, dt), captures := cap.1, accum := a.accum)
  }

  /** One frame of visual_main.py: the movement block, then the capture block. */
  function VisualFrame(s: State, dt: real): State
    requires AllOnMap(s.tiles, s.moves)
  {
    var m := MovedAll(Visual, Field(s.tiles, s.battles, s.breaches), s.units, s.moves, dt);
    var cap := Capture.CaptureFrame(m.0.tiles, s.units, m.0.battles, s.captures, dt, Visual);
    s.(tiles := cap.0, moves := m.1, battles := m.0.battles, breaches := m.0.breaches, captures := cap.1)
  }

  /** The rule blocks of client.py's frame loop, in order. */
  method RunClientFrame(s: State, order: seq<Coord>, dt: real, critAtt: nat -> bool, critDef: nat -> bool) returns (r: State)
    requires Ready(s) && (forall c :: c in order <==> c in s.tiles) && Sorted(order)
    ensures r == ClientFrame(s, dt, critAtt, critDef)
  {
    var f, kept := MoveAll(Client, Field(s.tiles, s.battles, s.breaches), s.units, s.moves, dt);
    MovedAllBattlesOnMap(Client, Field(s.tiles, s.battles, s.breaches), s.units, s.moves, dt);
    var a := Combat.CombatUpdate(Combat.Arena(f.tiles, s.units, f.battles, s.accum), dt, critAtt, critDef);
    Combat.CombatFrameKeeps(Combat.Arena(f.tiles, s.units, f.battles, s.accum), dt, critAtt, critDef);
    var walls, left := Capture.WallBreaks(a.tiles, a.units, f.breaches, dt);
    assert walls.Keys == a.tiles.Keys;
    var t, started := Capture.CaptureUpdate(walls, order, a.units, a.battles, s.captures, dt, Client);
    r := s.(tiles := t, units := a.units, moves := kept, battles := a.battles, breaches := left, captures := started, accum := a.accum);
  }

  /** The rule blocks of visual_main.py's frame loop, in order. */
  method RunVisualFrame(s: State, order: seq<Coord>, dt: real) returns (r: State)
    requires AllOnMap(s.tiles, s.moves) && (forall c :: c in order <==> c in s.tiles) && Sorted(order)
    ensures r == VisualFrame(s, dt)
  {
    var f, kept := MoveAll(Visual, Field(s.tiles, s.battles, s.breaches), s.units, s.moves, dt);
    var t, started := Capture.CaptureUpdate(f.tiles, order, s.units, f.battles, s.captures, dt, Visual);
    r := s.(tiles := t, moves := kept, battles := f.battles, breaches := f.breaches, captures := started);
  }

  /** The same coordinates carry the same move orders. */
  lemma AllOnMapKeys(a: TileMap, b: TileMap, moves: seq<MoveOrder>)
    requires a.Keys == b.Keys && AllOnMap(a, moves)
    ensures AllOnMap(b, moves)
  {
    forall i | 0 <= i < |moves| ensures OnMap(b, moves[i]) {
      assert OnMap(a, moves[i]);
    }
  }

  /**
   * A client.py frame keeps the state ready for the next one, on the same
   * coordinates: battles stay on the map and one per tile, capture timers
   * stay in (0, `CaptureTime`], the combat clock stays non-negative.
   */
  lemma ClientFrameKeepsReady(s: State, dt: real, critAtt: nat -> bool, critDef: nat -> bool)
    requires Ready(s) && dt >= 0.0
    ensures var r := ClientFrame(s, dt, critAtt, critDef);
            Ready(r) && r.tiles.Keys == s.tiles.Keys && r.selected == s.selected && r.side == s.side
  {
    var f0 := Field(s.tiles, s.battles, s.breaches);
    var m := MovedAll(Client, f0, s.units, s.moves, dt);
    MovedAllBattlesOnMap(Client, f0, s.units, s.moves, dt);
    MovedAllKeepsOnePerTile(Client, f0, s.units, s.moves, dt);
    var arena := Combat.Arena(m.0.tiles, s.units, m.0.battles, s.accum);
    var a := Combat.CombatFrame(arena, dt, critAtt, critDef);
    Combat.CombatFrameKeeps(arena, dt, critAtt, critDef);
    Combat.CombatTimer(arena, dt, critAtt, critDef);
    var walls := Capture.WallsAfter(a.tiles, a.units, m.0.breaches, dt);
    assert walls.Keys == a.tiles.Keys;
    Capture.CaptureTiles(walls, a.units, a.battles, s.captures, dt, Client);
    Capture.CapturesAfterFrame(walls, a.units, a.battles, s.captures, dt, Client);
    var r := ClientFrame(s, dt, critAtt, critDef);
    AllOnMapKeys(m.0.tiles, r.tiles, m.1);
  }

  /** A visual_main.py frame keeps the state ready for the next one, on the same coordinates. */
  lemma VisualFrameKeepsReady(s: State, dt: real)
    requires Ready(s) && dt >= 0.0
    ensures var r := VisualFrame(s, dt);
            Ready(r) && r.tiles.Keys == s.tiles.Keys && r.selected == s.selected && r.side == s.side
  {
    var f0 := Field(s.tiles, s.battles, s.breaches);
    var m := MovedAll(Visual, f0, s.units, s.moves, dt);
    MovedAllBattlesOnMap(Visual, f0, s.units, s.moves, dt);
    MovedAllKeepsOnePerTile(Visual, f0, s.units, s.moves, dt);
    Capture.CaptureTiles(m.0.tiles, s.units, m.0.battles, s.captures, dt, Visual);
    Capture.CapturesAfterFrame(m.0.tiles, s.units, m.0.battles, s.captures, dt, Visual);
    var r := VisualFrame(s, dt);
    AllOnMapKeys(m.0.tiles, r.tiles, m.1);
  }
}
