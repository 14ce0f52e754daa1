# Hex-grid battle game: the rules engine, in Dafny

This project models the deterministic rules of a two-sided hex-grid strategy
game. The sides are `ally` and `enemy`. A hexagonal map is split between
them, with a boundary flag on every tile that touches the other side's
ground. Each side has a Pinpoint at its end of the map and a gold mine on its
own ground. Players buy Soldiers, Setpoints and Medical units with money and
put them on their own tiles.

Soldiers move through the game in three ways:
- they walk along breadth-first paths, one tile per `STEP_TIME`;
- they teleport inside their own territory;
- they fight enemy Soldiers in rounds of `COMBAT_TICK` seconds.

A Soldier that stands on a foreign wall breaks it after ten seconds. One that
holds a foreign tile for `CAPTURE_TIME` seconds captures it.

Every frame, the game object runs five systems:
- gold-mine cooldowns;
- mining by Soldiers on gold;
- Setpoint bombardment of the nearest enemy Soldier within two rings;
- healing at a hospital;
- shot-effect timers.

The older game object instead collects gold on demand and counts cooldowns
down in whole numbers.

## How the model is organised

| module | file | what it holds |
|---|---|---|
| `Hex` | hex.dfy | sides, axial coordinates, the six offsets, hex distance, a per-side pair |
| `Units` | units.dfy | the unit record, `take_damage`, `is_alive`, the five factories |
| `Tiles` | tiles.dfy | the tile record with its occupant and wall slots, `place_unit`, `remove_unit`, equality |
| `Players` | players.dfy | the `Player` class and `purchase_unit` |
| `HexGrid` | hexmap.dfy | the `HexMap` class of both map generations, neighbours, boundary flags |
| `Economy` | economy.dfy | the `Game` class of game/game_logic.py and its five per-frame systems |
| `LegacyEconomy` | legacy.dfy | the `Game` class of game_logic.py (`collect_gold`, `update_cooldowns`) |
| `Paths` | paths.dfy | `bfs_path` of both front ends |
| `Placement` | placement.dfy | `find_pinpoint_tile` and both `can_place_unit_on_tile` |
| `Battles` | battles.dfy | the battle list and `add_battle_once` |
| `Movement` | movement.dfy | the movement block of both frame loops |
| `Combat` | combat.dfy | the combat block of client.py |
| `Capture` | capture.dfy | the wall-breach block, the capture block of both front ends, `recompute_boundaries` |
| `Session` | session.dfy | the state `main()` keeps, the recall, TAB and left-click commands, and the rule blocks of a frame in their order |

### Representation

- **Units are values in a store.** A unit object can be named from several
  places at once: a tile, a battle, a move order or a heal-queue entry.
  Python shares the same object between them. Here each unit lives in a
  store `map<UnitId, Unit>`, and those places hold its identity. Changing a
  unit in place replaces its entry in the store.
- **Tiles are values in a map.** The map's dictionary is a
  `map<Coord, Tile>`. Its insertion order is kept as a sequence, because
  every loop over `tiles.values()` visits the tiles in that order.
- **The classes keep their fields.** `Player`, `HexMap` and both `Game`
  classes are Dafny classes with the same fields. Their methods reassign
  those fields under `modifies` clauses. Each loop is a method proved equal
  to a closed-form function of its inputs, and the rules are lemmas about
  that function.
- **The state of `main()`.** Both front ends keep the same state between
  events: the side in control, the selected tile, the reserve lists, the
  move orders, the battles, the breach and capture timers and the combat
  clock. This state is the value `Session.State`.
  - A frame is `ClientFrame` or `VisualFrame`. Each composes the blocks in
    the order the frame loop runs them.
  - `RunClientFrame` and `RunVisualFrame` are the loops, proved equal to
    those functions.
- **Two front ends, one member.** client.py and visual_main.py differ in:
  - the wall rule of `bfs_path`;
  - the left-click command;
  - the right-click recall, where only client.py refuses a Soldier that has
    fought (`has_fought`);
  - the movement block, where only client.py has the breach and battle
    branches of the last step;
  - the frame, where only client.py runs the combat and wall-breach blocks;
  - the capture block;
  - the placement check.

  One member carries both copies, chosen by a `Variant` value (`Client` or
  `Visual`). Placement has two separate verdict functions.
- **Randomness is a parameter.** Critical hits, Setpoint hits, gold amounts
  and the gold-mine draw are passed in as inputs.
- **Time and damage are exact.** Both are `real` values.

### Where code and design disagree

- In client.py the frame runs `game.update_systems(dt)` first (line 714).
  After it come movement, combat, wall breaches and capture. This is the
  code's order, and the model follows the code.
- `Economy.Game.UpdateSystems` acts on the `Game` object. The remaining
  blocks act on `Session.State`.

## Model

| member | source | states |
|---|---|---|
| Units.Unit.TakeDamage | game/unit.py:15-18 | health becomes `max(0, health - amount)`: never negative, never higher for a non-negative hit; no other field changes |
| Units.LethalDamage | game/unit.py:15-21 | for a living unit, a hit leaves it dead (`is_alive` false) exactly when the amount is at least its health |
| Units.FactoryStats | game/unit.py:24-37 | Soldier 20/2 movable, Pinpoint 100/0, Setpoint 60/5, Medical 40/0, Maintenance 80/0, the last four immovable |
| Units.FactoryRoles | unit.py:26-39 | each factory sets exactly its own role flag (a Soldier none), gives the unit to the owner, and is movable exactly for a Soldier |
| Tiles.Tile.PlaceUnit | tile.py:27-30 | succeeds exactly on an empty tile, making the unit the occupant and changing nothing else; otherwise fails as not available |
| Tiles.Tile.RemoveUnit | tile.py:32-37 | succeeds exactly on an occupied tile, returning the occupant and an emptied tile; otherwise fails with no unit to remove |
| Tiles.PlaceRemoveRoundTrip | tile.py:24-37 | placing on an empty tile and removing gives back the unit and the original tile |
| Tiles.PlaceTwiceFails | tile.py:27-30 | placing on an occupied tile fails and keeps the first occupant |
| Tiles.EqualityIgnoresState | tile.py:18-22 | a tile stays equal to itself whatever its owner, unit, wall, boundary flag and gold timers become |
| Players.PurchaseOutcome | player.py:10-43 | a known type is sold exactly when it is affordable and, for a Setpoint, fewer than three are held, for a Medical, none is held; the unit sold is a fresh unit of the kind asked for, owned by the buyer; an unknown type is exactly the invalid-type error |
| Players.Player.constructor | player.py:5-8 | a new player has 5000 and an empty inventory |
| Players.Player.PurchaseUnit | player.py:10-43 | on success money drops by the cost and the unit is appended; on every error money and inventory are unchanged |
| Players.PurchaseKeepsCaps | player.py:20-40 | starting within the caps, a purchase never leads to a fourth Setpoint, a second Medical or negative money |
| Players.FundsCheckedFirst | player.py:13-36 | a known type the player cannot afford is refused for money, whatever the caps say |
| Players.SoldierAlwaysAvailable | player.py:11-18 | with 100 or more a Soldier purchase succeeds, costs 100 and appends a fresh Soldier |
| Players.FourthSetpointRefused | player.py:20-25 | with three Setpoints held and enough money, a fourth is refused and nothing changes |
| Players.SetpointAvailable | player.py:20-29 | with 500 or more and fewer than three Setpoints a Setpoint purchase succeeds, costs 500 and appends a fresh Setpoint |
| Players.MedicalAvailable | player.py:31-40 | with 1000 or more and no Medical held a Medical purchase succeeds, costs 1000 and appends a fresh Medical |
| Players.SecondMedicalRefused | player.py:31-36 | with a Medical held and enough money, a second is refused and nothing changes |
| Hex.HexDistanceIsMetric | client.py:166-170 | the hex distance is zero exactly on equal coordinates, symmetric and triangular |
| Hex.DirectionsAreUnitSteps | game/hex_map.py:55-62 | the six neighbour offsets are exactly the coordinates at distance 1 |
| Hex.DirectionOpposite | game/hex_map.py:56 | each offset's opposite is an offset too |
| Hex.InHexagonIsDistance | game/hex_map.py:15-20 | a cell is generated exactly when it is within distance `size` of the origin |
| HexGrid.NeighborsFromMembers | game/hex_map.py:55-62 | the neighbour loop keeps exactly the map tiles at one of the offsets it visits |
| HexGrid.NeighborsExactlyAdjacent | game/hex_map.py:55-62 | `neighbors` lists exactly the adjacent map tiles, each once, at most six |
| HexGrid.NeighborsSymmetric | hex_map.py:56-63 | a is a neighbour of b exactly when b is a neighbour of a |
| HexGrid.HexagonCellsMembers | game/hex_map.py:15-20 | the generated keys are exactly the cells with abs(q), abs(r), abs(q + r) at most `size` |
| HexGrid.WithBoundaries | client.py:244-251 | the recomputed map has the same keys and tiles but for the flag, and every flag is set exactly where a neighbour has another owner |
| HexGrid.ForeignNeighborOnlyOwners | client.py:247-251 | a tile's boundary flag depends on the owners alone |
| HexGrid.ClearThenMark | client.py:244-251 | clearing every flag and then running the marking loop yields the recomputed flags, whatever the flags were |
| HexGrid.MarkFromClear | game/hex_map.py:25-29 | with no flag set beforehand, the setup's boundary loop yields the recomputed flags |
| HexGrid.ExtremesAttained | game/hex_map.py:32-33 | the min and max column over the keys bound every key and are attained |
| HexGrid.ExtremeColumns | game/hex_map.py:31-35 | on the hexagon of radius `size` the extreme columns are `-size` and `size` |
| HexGrid.SideTilesMembers | game/hex_map.py:39-42 | a candidate list holds exactly the listed tiles of the side, interior ones when asked |
| HexGrid.GoldChoice | game/hex_map.py:39-44 | a chosen gold tile is a listed map tile of the side |
| HexGrid.GoldChoiceSpec | game/hex_map.py:39-44 | a gold tile is found exactly when the side owns a tile, and it is interior whenever the side has an interior tile |
| HexGrid.GenerateTiles | game/hex_map.py:15-20 | the nested loops build one fresh ally tile per hexagon cell, and record a sorted order listing every key |
| HexGrid.SplitAll | game/hex_map.py:23-24 | the owner loop gives each tile the owner of its half |
| HexGrid.ClearAll | client.py:245-246 | the first loop clears every boundary flag |
| HexGrid.MarkAll | game/hex_map.py:25-29 | the outer boundary loop, in dictionary order, equals the marking function |
| HexGrid.MarkTile | game/hex_map.py:26-29 | the inner loop with `break` sets exactly this tile's flag when a neighbour has another owner |
| HexGrid.MarkTileNoBreak | hex_map.py:31-34 | the inner loop without `break` sets the same flag |
| HexGrid.StartingOwnershipOf | game/hex_map.py:22-29 | both setup loops on the generated map yield the starting ownership, with the grid and order intact |
| HexGrid.GeneratedStart | game/hex_map.py:10-11 | generating then setting up yields the starting ownership |
| HexGrid.PinpointsPlaced | game/hex_map.py:31-35 | identity 0 goes to (min q, 0), identity 1 to (max q, 0), nothing else changes |
| HexGrid.GoldMinesPlaced | game/hex_map.py:37-50 | the ally draw, then the enemy draw, each laid as fresh gold with its amount |
| HexGrid.LegacyGoldMinePlaced | hex_map.py:45-51 | one draw among the interior ally tiles is laid as gold with its amount |
| HexGrid.BuiltTiles | game/hex_map.py:7-13 | the four constructor steps yield a valid grid that is the starting map |
| HexGrid.LegacyBuiltTiles | hex_map.py:7-13 | the four legacy steps yield a valid grid with one gold mine on an interior ally tile |
| HexGrid.HexMap.constructor | game/hex_map.py:7-13 | `HexMap(size)` is valid, holds the two pinpoints as identities 0 and 1, and its tiles are the starting map |
| HexGrid.HexMap.Legacy | hex_map.py:7-51 | the legacy `HexMap(size)` is valid, holds the two pinpoints, and has one gold mine on an interior ally tile |
| HexGrid.HexMap.GenerateMap | game/hex_map.py:15-20 | `_generate_map` fills the tiles with one fresh ally tile per hexagon cell |
| HexGrid.HexMap.SetupStartingOwnership | game/hex_map.py:22-29 | `_setup_starting_ownership` turns the generated tiles into the starting ownership |
| HexGrid.HexMap.SetupStartingOwnershipLegacy | hex_map.py:22-34 | the legacy setup, without `break`, yields the same starting ownership |
| HexGrid.HexMap.RecomputeBoundaries | client.py:244-251 | the tiles become the recomputed flags of the old tiles; order and units are kept |
| HexGrid.HexMap.PlacePinpoints | game/hex_map.py:31-35 | the store gets both pinpoints and the two end tiles hold them |
| HexGrid.HexMap.PlaceGoldMines | game/hex_map.py:37-50 | one gold tile per side, ally first, from the random choices |
| HexGrid.HexMap.PlaceLegacyGoldMine | hex_map.py:45-51 | one gold tile among the interior ally tiles |
| HexGrid.HexMap.GetTile | game/hex_map.py:52-53 | `get_tile` gives none exactly off the hexagon, and otherwise the tile with those coordinates |
| HexGrid.HexMap.Neighbors | game/hex_map.py:55-62 | the loop returns the tiles of the neighbour list, in offset order |
| HexGrid.InitialBoundaryColumns | game/hex_map.py:22-29 | with the starting owners, a tile touches the other side exactly on columns -1 and 0 |
| HexGrid.StartingOwnershipFacts | game/hex_map.py:22-29 | the starting map is the hexagon, ally for q < 0 and enemy otherwise, with boundary flags agreeing with the owners |
| HexGrid.StartingOwnershipComputed | game/hex_map.py:22-29 | the owner loop and then the boundary loop on the generated map equal the closed-form starting ownership |
| HexGrid.GoldChoiceOnStart | game/hex_map.py:39-44 | on the starting map each side always has a gold candidate, interior from radius 2 on |
| HexGrid.PinpointsKeepCandidates | game/hex_map.py:31-44 | placing the pinpoints does not change the gold draw |
| HexGrid.PinpointsKeepLegacyCandidates | hex_map.py:36-48 | placing the pinpoints does not change the legacy candidate list |
| HexGrid.PinpointLayer | game/hex_map.py:31-35 | on empty land only the two pinpoint slots are filled |
| HexGrid.GoldLayer | game/hex_map.py:46-50 | laying gold makes that tile fresh gold (amount, zero cooldown and timer) and leaves every other tile alone |
| HexGrid.LayersOnStart | game/hex_map.py:31-50 | after pinpoints and both mines, exactly two tiles are gold, with their amounts and fresh timers, and only the pinpoint tiles are occupied |
| HexGrid.StartingMapFacts | game/hex_map.py:7-50 | the built map: pinpoints on their own ground at (-size, 0) and (size, 0), two distinct gold tiles, boundary only on columns -1 and 0, no walls |
| HexGrid.PinpointTilesOnStart | game/hex_map.py:31-35 | both pinpoint tiles exist and are empty before placement |
| HexGrid.GoldChoicesOnStart | game/hex_map.py:37-45 | `random.choice` always has candidates for both sides, and the pinpoints do not change the draw |
| HexGrid.LegacyGoldExists | hex_map.py:45-48 | from radius 2 on, (-size, 0) is an interior ally candidate |
| HexGrid.LegacyGoldOnStart | hex_map.py:45-48 | from radius 2 on, the legacy candidate list is not empty |
| HexGrid.LegacyGoldNeedsRadiusTwo | hex_map.py:45-48 | at radius 1 the legacy candidate list is empty, so `random.choice` would raise |
| HexGrid.LegacyMapFacts | hex_map.py:7-51 | the legacy map has exactly one gold tile, an interior ally tile, with its amount, and the two pinpoints |
| Economy.CooledFacts | game/game_logic.py:35-40 | a running cooldown falls by `dt` and is clamped at 0; a cooldown that is not running is left alone; no other field changes |
| Economy.CooldownExpires | game/game_logic.py:37-40 | a cooldown of at most `dt` is over after one pass |
| Economy.CoolAll | game/game_logic.py:35-40 | the cooldown loop equals the closed form |
| Economy.MiningRules | game/game_logic.py:45-63 | a Soldier on gold with no cooldown accrues `dt`; payment comes exactly at 5 s, to the Soldier's side, with the amount, cooldown 12 and the timer reset; anything else resets the timer |
| Economy.GainNonNegative | game/game_logic.py:51-53 | with draws from [50, 2000], no side's gain is negative |
| Economy.PaidOnlyToOccupant | game/game_logic.py:47-53 | a mine pays only the side of the Soldier on it, the drawn amount, and pays the other side nothing |
| Economy.MineStepOf | game/game_logic.py:47-63 | one loop body yields the mined tile and each side's payment |
| Economy.MineAll | game/game_logic.py:45-63 | the mining loop yields the mined tiles and each side's total gain |
| Economy.CandidatesMembers | game/game_logic.py:85-101 | the candidates are exactly the enemy Soldiers of the two rings, each coordinate once |
| Economy.RingTwoWithin | game/game_logic.py:80-83 | the second ring lies on the map within distance 2 |
| Economy.ReachWithin | game/game_logic.py:80-101 | everything the Setpoint considers lies within distance 2 |
| Economy.FirstBest | game/game_logic.py:106-107 | the chosen position has the least rank, and is the first of that rank (the sort is stable) |
| Economy.RankOrder | game/game_logic.py:94-106 | least rank is least distance, with a boundary tile winning ties |
| Economy.TargetRules | game/game_logic.py:74-107 | the target is the nearest enemy Soldier within two rings, boundary winning ties; there is none exactly when no enemy Soldier is in reach |
| Economy.FireRules | game/game_logic.py:110-115 | a hit takes 5 health (clamped at 0), clears the tile exactly when none is left, changes nothing else, and records a 0.5 s shot |
| Economy.FireMisses | game/game_logic.py:103-110 | no target or a missed roll changes nothing |
| Economy.SecondRing | game/game_logic.py:81-83 | the loop builds `ring2_list` |
| Economy.Consider | game/game_logic.py:85-101 | the two `consider_tile` loops build the candidates |
| Economy.CollectCandidates | game/game_logic.py:80-101 | a Setpoint's candidate list is computed from its two rings |
| Economy.FireAll | game/game_logic.py:74-115 | the bombardment loop equals the closed-form volley |
| Economy.FireKeepsGround | game/game_logic.py:74-115 | one Setpoint's turn changes no owner, wall or key and only appends shots |
| Economy.VolleyKeepsGround | game/game_logic.py:74-115 | a volley changes no owner, wall or key and only appends shots |
| Economy.HealRules | game/game_logic.py:129-141 | healing adds one point when the 3 s timer fires and never above 20; an entry stays exactly while its hospital holds a Medical unit and its unit is below 20 |
| Economy.HealAllKeeps | game/game_logic.py:129-143 | after healing, every queued entry is for a known unit at a hospital with a Medical unit, and the queue never grows |
| Economy.HealAllHealth | game/game_logic.py:129-143 | healing changes health only |
| Economy.HealEntryStep | game/game_logic.py:131-141 | one loop body equals one entry's rule |
| Economy.HealQueue | game/game_logic.py:129-143 | the healing loop and the removal of done entries equal the closed form |
| Economy.Hospital | game/game_logic.py:120-124 | a hospital found is a listed tile holding a Medical unit of the side |
| Economy.HospitalFound | game/game_logic.py:120-124 | a hospital is found exactly when the side has a Medical unit on the map |
| Economy.FadedShrinks | game/game_logic.py:148-152 | no shot is added, and every shot left still has time |
| Economy.FadedKeeps | game/game_logic.py:148-152 | a shot stays, `dt` shorter, exactly when it had more than `dt` left |
| Economy.FadeShots | game/game_logic.py:148-152 | the loop equals the closed form |
| Economy.NewGameMap | game/game_logic.py:7 | the game's map is a valid radius-6 starting map with both pinpoints |
| Economy.NewGameObjects | game/game_logic.py:7-8 | a fresh map and two distinct fresh players with 5000 each and nothing bought |
| Economy.Game.constructor | game/game_logic.py:6-11 | `Game()` is valid, with both players fresh and nothing queued |
| Economy.Game.UpdateGoldCooldowns | game/game_logic.py:35-40 | the tiles become the cooled tiles; owners, order and units are kept |
| Economy.Game.ProcessGoldMining | game/game_logic.py:45-63 | the tiles become the mined tiles and each player's money grows by its gain |
| Economy.Game.ProcessSetpointFire | game/game_logic.py:68-115 | short of 1 s only the timer grows; at 1 s the timer resets and the volley runs |
| Economy.Game.SendToHospital | game/game_logic.py:120-124 | the unit is queued at the first hospital of its side, if there is one |
| Economy.Game.ProcessHealing | game/game_logic.py:129-143 | the store and queue become the healed ones; the tiles are kept |
| Economy.Game.UpdateShotEffects | game/game_logic.py:148-152 | the shots become the faded shots |
| Economy.Game.UpdateSystems | game/game_logic.py:16-21 | the five systems in order leave the tiles, store, purses, fire timer, queue and shots exactly as `SystemsFrame` composes them, and keep the game valid, the map order, owners and inventories |
| Economy.SystemsFrameFacts | game/game_logic.py:16-21 | after a frame no purse has shrunk, the fire timer is below 1 s, the heal queue has not grown and every shot left has time to show |
| LegacyEconomy.CollectRules | game_logic.py:11-18 | an open mine of the side pays its stored amount, then stores the new draw and a cooldown of 12; any other tile is unchanged |
| LegacyEconomy.NothingCollectable | game_logic.py:11-15 | with no open mine nothing is paid |
| LegacyEconomy.SecondCollectPaysNothing | game_logic.py:11-18 | a second `collect_gold` right after the first pays nothing |
| LegacyEconomy.CollectionNonNegative | game_logic.py:13-15 | collecting never takes money away |
| LegacyEconomy.CollectLeavesOtherSide | game_logic.py:13 | collecting for one side touches no tile of the other |
| LegacyEconomy.CollectAll | game_logic.py:11-18 | the loop yields the collected tiles and the money credited |
| LegacyEconomy.TickKeepsWhole | game_logic.py:20-23 | a whole non-negative cooldown stays whole and non-negative; nothing else changes |
| LegacyEconomy.TickedTimesValue | game_logic.py:20-23 | after `n` calls a cooldown `k` reads `max(k - n, 0)` |
| LegacyEconomy.TwelveTicksReopen | game_logic.py:17-23 | twelve calls bring a cooldown of 12 back to 0, and fewer do not |
| LegacyEconomy.TickAll | game_logic.py:20-23 | the loop equals the closed form |
| LegacyEconomy.LegacyGame.constructor | game_logic.py:6-9 | the radius-6 map, both players with 5000, turn 0 |
| LegacyEconomy.LegacyGame.CollectGold | game_logic.py:11-18 | the tiles become the collected tiles and the side's money grows by the collection |
| LegacyEconomy.LegacyGame.UpdateCooldowns | game_logic.py:20-23 | every positive cooldown drops by one |
| Paths.Trace | client.py:226-232 | the traced path runs from the start to the goal along parent links |
| Paths.RoutesEndInside | client.py:205-235 | a reached set closed under the step rule contains the goal of every route |
| Paths.StepRule | client.py:212-223 | a tile is entered exactly when it is empty or the goal, and not a foreign wall unless it is the goal |
| Paths.Visit | client.py:211-233 | one neighbour: linked when allowed; the goal ends the search |
| Paths.Expand | client.py:210-233 | one queue entry's neighbour loop keeps the search state or reaches the goal |
| Paths.TracedRoute | client.py:225-232 | a traced path is a route without repeats whose inner tiles are free |
| Paths.Bfs | client.py:188-235 | `[start]` when start is the goal; a found path is a route of the rules with free inner tiles and no repeats; none exactly when no route exists |
| Placement.FirstPinpoint | client.py:238-242 | the result is the first listed tile with the side's Pinpoint; none exactly when there is no such tile |
| Placement.FindPinpointTile | client.py:238-242 | the search loop equals that function |
| Placement.PinpointNearby | client.py:284-286 | the neighbour loop tells whether a Pinpoint is next door |
| Placement.MedicalOnMap | visual_main.py:153-156 | the loop finds exactly whether the side has a Medical unit down |
| Placement.CanPlace | client.py:253-297 | the checks, in order, equal client.py's verdict |
| Placement.CanPlaceVisual | visual_main.py:139-157 | the checks, in order, equal visual_main.py's verdict |
| Placement.PlaceAllowedIff | client.py:253-297 | allowed exactly with own territory, the slot rule of the kind, no Pinpoint next door unless Soldier or Wall, and a Setpoint within 4 of its Pinpoint |
| Placement.VisualPlaceAllowedIff | visual_main.py:139-157 | allowed exactly on an empty own tile, no Pinpoint next door unless Soldier, Setpoint within range, and a side's first Medical |
| Placement.CopiesDiffer | client.py:262-295 | with a Medical of the side already down, client.py accepts a second on an empty own tile away from a Pinpoint while visual_main.py refuses it; an occupied foreign tile is refused for territory by client.py and for the occupant by visual_main.py; both accept a Soldier on an own tile holding only a wall |
| Placement.SetpointNeedsPinpoint | client.py:289-292 | with no Pinpoint of its side, a Setpoint is refused in both copies |
| Placement.TerritoryFirst | client.py:262-263 | a foreign tile is refused first, with the territory message |
| Battles.AddBattleOnce | client.py:300-305 | adds exactly when no battle is on the tile; the list becomes the registered list |
| Battles.WithBattleKeepsOnePerTile | client.py:300-305 | adding keeps at most one battle per tile, and the tile then has one |
| Battles.WithBattleIdempotent | client.py:300-305 | a second registration on the same tile changes nothing |
| Battles.WithBattleExtends | client.py:300-305 | registration never drops or reorders a battle, and adds at most one |
| Movement.BreakIn | client.py:732-743 | the breach branch ends the order and keeps the battle list and the tile set |
| Movement.Engage | client.py:746-751 | the battle branch registers through `add_battle_once`, never advances, and keeps the breach timers |
| Movement.Walk | client.py:760-762 | an ordinary step advances the index by one, keeps battles and breaches, and leaves the order on the map |
| Movement.Step | client.py:726-765 | a step either advances by one tile or leaves the order as it was |
| Movement.MovedAll | client.py:717-765 | the block keeps the keys, and the orders left stay on the map |
| Movement.StepOnce | client.py:726-765 | the loop body equals the step function |
| Movement.AdvanceOrder | client.py:718-765 | one order's frame equals the closed form |
| Movement.MoveAll | client.py:717-765 | the movement block equals the closed form |
| Movement.AdvancedStepMovesOneTile | client.py:760-762 | a step that advances moves the occupant exactly one tile onto an empty tile, leaving all else |
| Movement.BlockedStepChangesNothing | client.py:754-757 | a step onto an occupied tile that is not a breach or battle ends the order with nothing changed |
| Movement.PathEndEndsOrder | client.py:763-765 | a used-up path ends the order with nothing changed |
| Movement.LastStepStartsBreach | client.py:732-743 | a last step onto a foreign wall puts the mover on the goal, empties its tile and starts a 10 s breach |
| Movement.LastStepStartsBattle | client.py:746-751 | a last step onto an enemy Soldier registers one battle and vacates, unless the tile already has one, when the order holds |
| Movement.StepKeepsGround | client.py:726-765 | no step changes an owner or wall, or drops a battle or breach |
| Movement.VisualStepKeepsTimers | visual_main.py:330-344 | visual_main.py's movement never touches battles or breaches |
| Movement.RunSpendsOneStepPerTile | client.py:724-762 | every `STEP_TIME` spent buys exactly one tile, and less than a step is left unless the order holds |
| Movement.RunKeepsOnePerTile | client.py:724-765 | one order's frame keeps battles one per tile |
| Movement.StepKeepsOnePerTile | client.py:746-751 | a step keeps battles one per tile |
| Movement.MovedAllKeepsOnePerTile | client.py:717-765 | the movement block keeps battles one per tile |
| Movement.MovedAllKeepsPaths | client.py:717-765 | the orders left are among those before, with the same paths and units |
| Combat.DamageFormula | client.py:784-823 | damage is attack times 0.6 times the multiplier times the tick, doubled on a crit |
| Combat.CritOnlyLiftsPenalty | client.py:792-823 | multipliers are 1.5 at home and 0.5 away; a crit leaves 1.5, turns 0.5 into 1.0, and doubles |
| Combat.LandBlows | client.py:825-865 | the second half of the body equals the clash function |
| Combat.FightOnce | client.py:775-865 | the loop body equals the fight function |
| Combat.FightAll | client.py:774-868 | the battle loop and the removal of finished battles equal the round |
| Combat.CombatUpdate | client.py:768-873 | the combat block equals the closed form |
| Combat.FightIsSimultaneous | client.py:784-826 | both damages come from the units before the round; both land and both units are marked; no other unit changes |
| Combat.FightOutcome | client.py:779-865 | a battle ends exactly when a side falls, leaving the survivor or nobody; an unknown unit ends it; only its own tile changes |
| Combat.FightKeepsKeys | client.py:774-865 | a fight adds or drops no tile or unit |
| Combat.FightMarks | client.py:788-789 | a fight marks both units and clears no mark |
| Combat.RoundMarks | client.py:774-868 | after a round every unit of every battle has fought, and no tile or unit comes or goes |
| Combat.RoundKeeps | client.py:867-868 | the battles kept are among those fought, one per tile when those were |
| Combat.CombatFrameKeeps | client.py:768-873 | the block keeps tiles and units, and the battles left are among those before, on the map, one per tile |
| Combat.CombatTimer | client.py:768-873 | with no battles the clock resets; short of a tick it banks; a full tick fights one round and takes a tick off; the clock stays non-negative |
| Capture.WallBreaks | client.py:876-903 | the breach loop equals the closed form for the tiles and the timers left |
| Capture.WallFallsIff | client.py:883-903 | a wall falls exactly where a breach timer ran out, with the claimant's Soldier on a foe's wall; nothing else changes |
| Capture.BreachesLeftGoOn | client.py:877-903 | the timers left are old breaches still going on, `dt` shorter and still running |
| Capture.CaptureHandsOver | client.py:906-933 | a tile changes hands exactly when its capture completes; only owner and boundary can change |
| Capture.CaptureTiles | client.py:906-933 | keys are kept; after any completed capture every boundary flag is recomputed; with none the tiles are untouched |
| Capture.FrozenCaptureWaits | client.py:921-924 | with a battle on the tile and its Soldier holding on, the timer keeps its time and the tile its owner |
| Capture.CapturesAfterFrame | client.py:906-948 | every timer left sits under a capturing Soldier of its side, within (0, `CAPTURE_TIME`], and new ones start full |
| Capture.Recompute | client.py:244-251 | the two loops of `recompute_boundaries` equal the recomputed flags |
| Capture.SettleClaims | client.py:906-936 | the first loop of the capture block equals the closed form for tiles and timers |
| Capture.OpenClaims | client.py:939-948 | the second loop equals the closed form of the timers opened |
| Capture.CaptureUpdate | client.py:906-948 | the capture block equals the closed form |
| Session.Reserve.Add | client.py:625-628 | a recalled unit joins the end of its kind's list, and no other list changes |
| Session.SwitchSide | client.py:524-526 | TAB flips the side and clears the selection, nothing else |
| Session.LeftClick | client.py:633-675 | the search runs only for a move out of own territory; a route is none exactly when no route exists |
| Session.RecallRules | client.py:615-630 | a recall succeeds exactly for an own unit that is not a Pinpoint or a Soldier that fought; it moves the unit to the end of its list; all else changes nothing |
| Session.RecallKeepsUnits | client.py:618-628 | a recall neither creates nor loses a unit |
| Session.TeleportRules | client.py:651-656 | inside own territory a Soldier relocates to an empty tile, stays selected, and nothing else changes |
| Session.VisualOccupiedRefused | visual_main.py:272-274 | visual_main.py refuses an occupied target with no change |
| Session.MoveOrderRules | client.py:662-675 | a move starts exactly when a route exists: a new order from index 0 with no time, and the Soldier leaves its tile |
| Session.BattleCommandRules | client.py:645-650 | a click on a foe's Soldier inside own territory registers one battle, unless the tile has one |
| Session.ClickKeepsUnits | client.py:633-675 | a left-click neither creates nor loses a unit |
| Session.RecallKeepsReady | client.py:615-630 | recall and TAB keep the state ready for the frame |
| Session.ClickKeepsReady | client.py:633-675 | a left-click with the search's route keeps the state ready |
| Session.MovedAllBattlesOnMap | client.py:746-751 | movement registers battles only on map tiles |
| Session.RunClientFrame | client.py:717-948 | the frame's rule blocks, in order, equal the client frame |
| Session.RunVisualFrame | visual_main.py:323-371 | the frame's rule blocks, in order, equal the visual frame |
| Session.ClientFrameKeepsReady | client.py:717-948 | a client frame keeps the state ready on the same coordinates: battles on the map and one per tile, timers in range, clock non-negative |
| Session.VisualFrameKeepsReady | visual_main.py:323-371 | a visual frame keeps the state ready on the same coordinates |

## Left out

- Rendering, input decoding, fonts, images, the HUD, toasts, damage pop-ups,
  the map-dirty flag and pixel geometry. These are display, not rules.
- Networking: the socket framing, the pickled commands, the JSON decoder and
  the client thread. These are I/O.
- Randomness is not generated.
  - Critical-hit rolls, Setpoint hits, gold amounts and gold-mine choices are
    parameters.
  - A `random.choice` draw is a natural number taken modulo the number of
    candidates.
- Frame timing (`clock.tick`, `time.sleep`) is not modelled. `dt` is an
  input.
- IEEE floating point is not modelled. Health, timers and damage are exact
  reals.
- Purchases from the keyboard (client.py:552-571, visual_main.py:230-242) are
  left out as `main()` blocks. The rule they call, `purchase_unit`, is
  modelled.
- Placement from the reserve (client.py:677-711, visual_main.py:298-320) is
  left out as a `main()` block. Its rule, `can_place_unit_on_tile`, is
  modelled with both copies.
- Walls cannot be bought or placed: `purchase_unit('wall')` raises "Invalid
  unit type", and `create_wall` is not part of this model. The wall slot and
  every rule that reads it are modelled.
- Session.RunVisualFrame: in visual_main.py a capture timer on a coordinate
  that has no tile raises at `tile.unit`. The model drops that timer
  instead, because no command ever creates such a timer.
- Capture: the `unit_id` field that visual_main.py stores with a capture
  timer is never read, so a timer is only an owner and the time left.
- Tiles.Resolve: a tile or battle naming an identity the store does not hold
  reads as empty. The maps built here never hold such an identity.
- Combat.FightOnce: a battle whose tile is missing ends at once. The source
  cannot reach this, since battle tiles are map tiles.
- Economy.HealQueue: dropping finished entries by index is modelled as
  keeping the others in order. The resulting list is the same.
- Aliasing is modelled through identities in the unit store. Two tiles that
  share one unit object therefore share one store entry.
- The `turn` field of game_logic.py's `Game` is set and never changed.
- `GameClient.run`'s phase and winner handling is left out. It reads fields
  that no `Game` here has.
- Economy.Game.UpdateSystems is not composed with the rule blocks of
  `Session`. The game object and the session state are separate values, and
  each has its own invariants proved.
