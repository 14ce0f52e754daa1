/**
 * `bfs_path` of client.py and of visual_main.py: breadth-first search over
 * the map's neighbour lists from the tile of a Soldier to a goal tile. A
 * tile holding a unit is never entered except as the goal; in client.py a
 * wall of a side other than the mover's is not entered either, again
 * except as the goal. The two copies differ only in that wall rule, so one
 * method carries both, chosen by `Variant`.
 */
module Paths {
  import opened Hex
  import opened Units
  import opened Tiles
  import opened HexGrid

  /** `b` is one of the map's tiles and one step from `a`: exactly the members of `neighbors(a)`. */
  predicate Linked(tiles: TileMap, a: Coord, b: Coord) {
    b in NeighborsOf(tiles.Keys, a)
  }

  /** Which copy of the rules: client.py, or the earlier visual_main.py without walls and battles. */
  datatype Variant = Client | Visual

  /** `mover_owner`: the owner of the unit on the start tile, if there is one. */
  function MoverOf(tiles: TileMap, units: UnitStore, start: Coord): Option<Side>
    requires start in tiles
  {
    var u := Resolve(tiles[start].unit, units);
    if u.Some? then Some(u.value.owner) else None
  }

  /** A wall on `t` that belongs to a side other than the mover's. */
  predicate ForeignWall(t: Tile, units: UnitStore, mover: Option<Side>) {
    var w := Resolve(t.wall, units);
    mover.Some? && w.Some? && w.value.owner != mover.value
  }

  /** A tile the search may pass through: no unit, and (in client.py) no foreign wall. */
  predicate Free(v: Variant, t: Tile, units: UnitStore, mover: Option<Side>) {
    t.unit.None? && !(v == Client && ForeignWall(t, units, mover))
  }

  /** A tile the search may step onto: the goal, or a free tile. */
  predicate Enterable(v: Variant, tiles: TileMap, units: UnitStore, mover: Option<Side>, goal: Coord, k: Coord)
    requires k in tiles
  {
    k == goal || Free(v, tiles[k], units, mover)
  }

  /**
   * A route the rules allow: it starts at `start`, ends at `goal`, each tile
   * is in the neighbour list of the one before, and every tile after the
   * first may be stepped onto.
   */
  predicate IsRoute(v: Variant, tiles: TileMap, units: UnitStore, start: Coord, goal: Coord, p: seq<Coord>)
    requires start in tiles
  {
    && |p| >= 1 && p[0] == start && p[|p| - 1] == goal
    && (forall i :: 0 <= i < |p| ==> p[i] in tiles)
    && (forall i :: 0 <= i < |p| - 1 ==> Linked(tiles, p[i], p[i + 1]))
    && (forall i :: 0 < i < |p| ==> Enterable(v, tiles, units, MoverOf(tiles, units, start), goal, p[i]))
  }

  /**
   * The parent links of a search tree: `prev` maps each reached tile to the
   * tile it was reached from, the start to nothing, and `dist` counts the
   * steps from the start, one more than the parent's.
   */
  ghost predicate ParentsOk(start: Coord, prev: map<Coord, Option<Coord>>, dist: map<Coord, nat>) {
    && start in prev && prev[start] == None && dist.Keys == prev.Keys && dist[start] == 0
    && (forall k {:trigger prev[k]} :: k in prev && k != start ==>
          prev[k].Some? && prev[k].value in dist && dist[k] == dist[prev[k].value] + 1)
  }

  /** Every parent link is a step between neighbours. */
  ghost predicate StepsOk(tiles: TileMap, prev: map<Coord, Option<Coord>>) {
    forall k {:trigger prev[k]} :: k in prev && prev[k].Some? ==> Linked(tiles, prev[k].value, k)
  }

  /**
   * The search tree: parent links between neighbours, inside the map, and
   * every reached tile other than the start free and not the goal.
   */
  ghost predicate TreeOk(v: Variant, tiles: TileMap, units: UnitStore, start: Coord, goal: Coord,
                         prev: map<Coord, Option<Coord>>, dist: map<Coord, nat>)
    requires start in tiles
  {
    && ParentsOk(start, prev, dist)
    && StepsOk(tiles, prev)
    && (forall k :: k in prev ==> k in tiles)
    && (forall k :: k in prev && k != start ==> k != goal && Free(v, tiles[k], units, MoverOf(tiles, units, start)))
  }

  /**
   * The path recovery of `bfs_path`: follow the parent links from `last`
   * back to the start. The source appends and then reverses; prepending
   * builds the same list.
   */
  method Trace(start: Coord, prev: map<Coord, Option<Coord>>, ghost dist: map<Coord, nat>, last: Coord)
    returns (p: seq<Coord>)
    requires ParentsOk(start, prev, dist) && last in prev
    ensures |p| == dist[last] + 1 && p[0] == start && p[|p| - 1] == last
    ensures forall i :: 0 <= i < |p| ==> p[i] in prev && dist[p[i]] == i
    ensures forall i :: 0 < i < |p| ==> prev[p[i]] == Some(p[i - 1])
  {
    var c := last;
    p := [last];
    while prev[c].Some?
      invariant c in prev && |p| >= 1 && p[0] == c && p[|p| - 1] == last && |p| + dist[c] == dist[last] + 1
      invariant forall i :: 0 <= i < |p| ==> p[i] in prev && dist[p[i]] == dist[c] + i
      invariant forall i :: 0 < i < |p| ==> prev[p[i]] == Some(p[i - 1])
      decreases dist[c]
    {
      var b := prev[c].value;
      p := [b] + p;
      c := b;
    }
  }

  /** Every route stays inside a reached set that is closed under the step rule, so it ends inside it. */
  lemma {:induction false} RouteInside(v: Variant, tiles: TileMap, units: UnitStore, start: Coord, goal: Coord,
                                       reached: set<Coord>, p: seq<Coord>, k: nat)
    requires start in tiles && start in reached
    requires forall d, n :: d in reached && Linked(tiles, d, n) ==>
               n in reached || !Enterable(v, tiles, units, MoverOf(tiles, units, start), goal, n)
    requires IsRoute(v, tiles, units, start, goal, p) && k < |p|
    ensures p[k] in reached
  {
    if k > 0 {
      RouteInside(v, tiles, units, start, goal, reached, p, k - 1);
    }
  }

  lemma RoutesEndInside(v: Variant, tiles: TileMap, units: UnitStore, start: Coord, goal: Coord, reached: set<Coord>)
    requires start in tiles && start in reached
    requires forall d, n :: d in reached && Linked(tiles, d, n) ==>
               n in reached || !Enterable(v, tiles, units, MoverOf(tiles, units, start), goal, n)
    ensures forall p :: IsRoute(v, tiles, units, start, goal, p) ==> goal in reached
  {
    forall p | IsRoute(v, tiles, units, start, goal, p) ensures goal in reached {
      RouteInside(v, tiles, units, start, goal, reached, p, |p| - 1);
    }
  }

  /**
   * The state of the search: the tree, the queue of tiles still to expand,
   * the expanded tiles `done`, the tiles `current` being expanded and the
   * neighbours of it `handled` so far. Every tile reached is in exactly one
   * of the first three places, and each neighbour of an expanded tile, and
   * each handled neighbour, is reached or may not be stepped onto.
   */
  ghost predicate Frontier(v: Variant, tiles: TileMap, units: UnitStore, start: Coord, goal: Coord,
                           prev: map<Coord, Option<Coord>>, dist: map<Coord, nat>,
                           queue: seq<Coord>, done: set<Coord>, current: set<Coord>, handled: seq<Coord>)
    requires start in tiles
  {
    && TreeOk(v, tiles, units, start, goal, prev, dist)
    && NoDuplicates(queue)
    && (forall x :: x in prev <==> x in done || x in queue || x in current)
    && (forall x :: x in queue ==> x !in done && x !in current)
    && current !! done
    && done <= tiles.Keys
    && (forall d, n :: d in done && Linked(tiles, d, n) ==>
          n in prev || !Enterable(v, tiles, units, MoverOf(tiles, units, start), goal, n))
    && (forall n :: n in handled ==>
          n in tiles && (n in prev || !Enterable(v, tiles, units, MoverOf(tiles, units, start), goal, n)))
  }

  /** The tree once the goal is reached: parent links intact, every other reached tile but the start free. */
  ghost predicate Reached(v: Variant, tiles: TileMap, units: UnitStore, start: Coord, goal: Coord,
                          prev: map<Coord, Option<Coord>>, dist: map<Coord, nat>)
    requires start in tiles
  {
    && ParentsOk(start, prev, dist)
    && StepsOk(tiles, prev)
    && goal in prev
    && (forall k :: k in prev ==> k in tiles)
    && (forall k :: k in prev && k != start && k != goal ==> Free(v, tiles[k], units, MoverOf(tiles, units, start)))
  }

  /** The search starts with the start tile alone reached and queued. */
  lemma FrontierStart(v: Variant, tiles: TileMap, units: UnitStore, start: Coord, goal: Coord)
    requires start in tiles
    ensures Frontier(v, tiles, units, start, goal, map[start := None], map[start := 0], [start], {}, {}, [])
  {
  }

  /** Taking the head of the queue makes it the tile being expanded; it is a map tile not yet expanded. */
  lemma FrontierPop(v: Variant, tiles: TileMap, units: UnitStore, start: Coord, goal: Coord,
                    prev: map<Coord, Option<Coord>>, dist: map<Coord, nat>, queue: seq<Coord>, done: set<Coord>)
    requires start in tiles && queue != [] && Frontier(v, tiles, units, start, goal, prev, dist, queue, done, {}, [])
    ensures Frontier(v, tiles, units, start, goal, prev, dist, queue[1..], done, {queue[0]}, [])
    ensures queue[0] in tiles && queue[0] !in done
    ensures |tiles.Keys - (done + {queue[0]})| < |tiles.Keys - done|
  {
    var cur := queue[0];
    forall x ensures x in prev <==> x in done || x in queue[1..] || x in {cur} {
      if x in queue {
        var i :| 0 <= i < |queue| && queue[i] == x;
        if i > 0 {
          assert queue[1..][i - 1] == x;
        }
      }
    }
    forall x | x in queue[1..] ensures x !in done && x != cur {
      var i :| 0 <= i < |queue[1..]| && queue[1..][i] == x;
      assert queue[i + 1] == x;
    }
    assert tiles.Keys - (done + {cur}) < tiles.Keys - done;
  }

  /** Linking a tile not yet reached to a reached neighbour keeps the parent links of a tree. */
  lemma LinkAdded(tiles: TileMap, start: Coord, prev: map<Coord, Option<Coord>>, dist: map<Coord, nat>, cur: Coord, key: Coord)
    requires ParentsOk(start, prev, dist) && StepsOk(tiles, prev)
    requires cur in prev && key !in prev && Linked(tiles, cur, key)
    ensures ParentsOk(start, prev[key := Some(cur)], dist[key := dist[cur] + 1])
    ensures StepsOk(tiles, prev[key := Some(cur)])
  {
    var prev2, dist2 := prev[key := Some(cur)], dist[key := dist[cur] + 1];
    forall k | k in prev2 && k != start
      ensures prev2[k].Some? && prev2[k].value in dist2 && dist2[k] == dist2[prev2[k].value] + 1
    {
      if k != key {
        assert prev2[k] == prev[k] && dist2[k] == dist[k];
      }
    }
    forall k | k in prev2 && prev2[k].Some? ensures Linked(tiles, prev2[k].value, k) {
      if k != key {
        assert prev2[k] == prev[k];
      }
    }
  }

  /** Linking a new free neighbour to the tile being expanded and queueing it keeps the search state. */
  lemma FrontierGrows(v: Variant, tiles: TileMap, units: UnitStore, start: Coord, goal: Coord, cur: Coord, key: Coord,
                      prev: map<Coord, Option<Coord>>, dist: map<Coord, nat>, queue: seq<Coord>, done: set<Coord>,
                      handled: seq<Coord>)
    requires start in tiles && Frontier(v, tiles, units, start, goal, prev, dist, queue, done, {cur}, handled)
    requires key !in prev && Linked(tiles, cur, key) && key != goal && Free(v, tiles[key], units, MoverOf(tiles, units, start))
    ensures Frontier(v, tiles, units, start, goal, prev[key := Some(cur)], dist[key := dist[cur] + 1], queue + [key],
                     done, {cur}, handled + [key])
  {
    LinkAdded(tiles, start, prev, dist, cur, key);
  }

  /** A neighbour already reached or barred is handled without changing the tree. */
  lemma FrontierSkips(v: Variant, tiles: TileMap, units: UnitStore, start: Coord, goal: Coord, cur: Coord, key: Coord,
                      prev: map<Coord, Option<Coord>>, dist: map<Coord, nat>, queue: seq<Coord>, done: set<Coord>,
                      handled: seq<Coord>)
    requires start in tiles && Frontier(v, tiles, units, start, goal, prev, dist, queue, done, {cur}, handled)
    requires key in tiles && (key in prev || !Enterable(v, tiles, units, MoverOf(tiles, units, start), goal, key))
    ensures Frontier(v, tiles, units, start, goal, prev, dist, queue, done, {cur}, handled + [key])
  {
  }

  /** Linking the goal to the tile being expanded completes a tree that reached it. */
  lemma GoalReached(v: Variant, tiles: TileMap, units: UnitStore, start: Coord, goal: Coord, cur: Coord,
                    prev: map<Coord, Option<Coord>>, dist: map<Coord, nat>, queue: seq<Coord>, done: set<Coord>,
                    handled: seq<Coord>)
    requires start in tiles && goal != start && Frontier(v, tiles, units, start, goal, prev, dist, queue, done, {cur}, handled)
    requires goal !in prev && Linked(tiles, cur, goal)
    ensures Reached(v, tiles, units, start, goal, prev[goal := Some(cur)], dist[goal := dist[cur] + 1])
  {
    LinkAdded(tiles, start, prev, dist, cur, goal);
  }

  /** Once every neighbour of the tile being expanded is handled, it joins the expanded tiles. */
  lemma FrontierExpanded(v: Variant, tiles: TileMap, units: UnitStore, start: Coord, goal: Coord, cur: Coord,
                         prev: map<Coord, Option<Coord>>, dist: map<Coord, nat>, queue: seq<Coord>, done: set<Coord>,
                         handled: seq<Coord>)
    requires start in tiles && Frontier(v, tiles, units, start, goal, prev, dist, queue, done, {cur}, handled)
    requires handled == NeighborsOf(tiles.Keys, cur)
    ensures Frontier(v, tiles, units, start, goal, prev, dist, queue, done + {cur}, {}, [])
  {
  }

  /** The step rule of `bfs_path` as written: a tile not yet reached, empty or the goal, and not behind a foreign wall unless it is the goal. */
  lemma StepRule(v: Variant, tiles: TileMap, units: UnitStore, mover: Option<Side>, goal: Coord, key: Coord)
    requires key in tiles
    ensures ((tiles[key].unit.None? || key == goal)
             && !(v == Client && mover.Some? && ForeignWall(tiles[key], units, mover) && key != goal))
            <==> Enterable(v, tiles, units, mover, goal, key)
  {
  }

  /**
   * One neighbour `key` of the tile `cur` under expansion: when it is not yet
   * reached and may be stepped onto it is linked to `cur`; the goal ends the
   * search, any other tile is queued.
   */
  method Visit(v: Variant, tiles: TileMap, units: UnitStore, start: Coord, goal: Coord, mover: Option<Side>, cur: Coord, key: Coord,
               prev0: map<Coord, Option<Coord>>, queue0: seq<Coord>, ghost dist0: map<Coord, nat>, ghost done: set<Coord>,
               ghost handled: seq<Coord>)
    returns (prev: map<Coord, Option<Coord>>, queue: seq<Coord>, ghost dist: map<Coord, nat>, found: bool)
    requires start in tiles && start != goal && mover == MoverOf(tiles, units, start)
    requires Frontier(v, tiles, units, start, goal, prev0, dist0, queue0, done, {cur}, handled) && Linked(tiles, cur, key)
    ensures found <==> key == goal && goal !in prev0
    ensures found ==> Reached(v, tiles, units, start, goal, prev, dist)
    ensures !found ==> Frontier(v, tiles, units, start, goal, prev, dist, queue, done, {cur}, handled + [key])
  {
    prev, queue, dist, found := prev0, queue0, dist0, false;
    StepRule(v, tiles, units, mover, goal, key);
    if key !in prev && (tiles[key].unit.None? || key == goal)
       && !(v == Client && mover.Some? && ForeignWall(tiles[key], units, mover) && key != goal) {
      if key == goal {
        GoalReached(v, tiles, units, start, goal, cur, prev, dist, queue, done, handled);
        prev := prev[key := Some(cur)];
        dist := dist[key := dist[cur] + 1];
        return prev, queue, dist, true;
      }
      FrontierGrows(v, tiles, units, start, goal, cur, key, prev, dist, queue, done, handled);
      prev := prev[key := Some(cur)];
      dist := dist[key := dist[cur] + 1];
      queue := queue + [key];
    } else {
      FrontierSkips(v, tiles, units, start, goal, cur, key, prev, dist, queue, done, handled);
    }
  }

  /**
   * The `for nb in game.map.neighbors(cq, cr)` loop of `bfs_path` for the
   * tile `cur` just taken from the queue: each neighbour is visited in the
   * order of the neighbour list; reaching the goal ends the search.
   */
  method Expand(v: Variant, tiles: TileMap, units: UnitStore, start: Coord, goal: Coord, mover: Option<Side>, cur: Coord,
                prev0: map<Coord, Option<Coord>>, queue0: seq<Coord>, ghost dist0: map<Coord, nat>, ghost done: set<Coord>)
    returns (prev: map<Coord, Option<Coord>>, queue: seq<Coord>, ghost dist: map<Coord, nat>, found: bool)
    requires start in tiles && start != goal && mover == MoverOf(tiles, units, start)
    requires Frontier(v, tiles, units, start, goal, prev0, dist0, queue0, done, {cur}, [])
    ensures found ==> Reached(v, tiles, units, start, goal, prev, dist)
    ensures !found ==> Frontier(v, tiles, units, start, goal, prev, dist, queue, done + {cur}, {}, [])
  {
    prev, queue, dist, found := prev0, queue0, dist0, false;
    var nbs := NeighborsOf(tiles.Keys, cur);
    ghost var handled: seq<Coord> := [];
    var j := 0;
    while j < |nbs|
      invariant 0 <= j <= |nbs| && handled == nbs[..j]
      invariant Frontier(v, tiles, units, start, goal, prev, dist, queue, done, {cur}, handled)
    {
      assert nbs[j] in nbs;
      prev, queue, dist, found := Visit(v, tiles, units, start, goal, mover, cur, nbs[j], prev, queue, dist, done, handled);
      if found {
        return;
      }
      handled := handled + [nbs[j]];
      assert handled == nbs[..j + 1];
      j := j + 1;
    }
    assert handled == nbs;
    FrontierExpanded(v, tiles, units, start, goal, cur, prev, dist, queue, done, handled);
  }


  /** A traced path of a tree that reached the goal is a route without repeats whose inner tiles are free. */
  lemma TracedRoute(v: Variant, tiles: TileMap, units: UnitStore, start: Coord, goal: Coord,
                    prev: map<Coord, Option<Coord>>, dist: map<Coord, nat>, p: seq<Coord>)
    requires start in tiles && Reached(v, tiles, units, start, goal, prev, dist)
    requires |p| == dist[goal] + 1 && p[0] == start && p[|p| - 1] == goal
    requires forall i :: 0 <= i < |p| ==> p[i] in prev && dist[p[i]] == i
    requires forall i :: 0 < i < |p| ==> prev[p[i]] == Some(p[i - 1])
    ensures IsRoute(v, tiles, units, start, goal, p) && NoDuplicates(p)
    ensures forall i :: 0 < i < |p| - 1 ==> Free(v, tiles[p[i]], units, MoverOf(tiles, units, start))
  {
    forall i | 0 < i < |p| ensures p[i] != start && (i < |p| - 1 ==> p[i] != goal) && Linked(tiles, p[i - 1], p[i]) {
      assert prev[p[i]].value == p[i - 1];
    }
  }

  /**
   * `bfs_path(game, start_tile, goal_tile)`. The start itself is the whole
   * path when it is the goal. Otherwise a found path is a route of the
   * rules without repeated tiles whose inner tiles are all free, and no
   * path is returned only when no route exists at all.
   */
  method Bfs(v: Variant, tiles: TileMap, units: UnitStore, start: Coord, goal: Coord) returns (path: Option<seq<Coord>>)
    requires start in tiles && goal in tiles
    ensures start == goal ==> path == Some([start])
    ensures path.Some? ==> IsRoute(v, tiles, units, start, goal, path.value) && NoDuplicates(path.value)
    ensures path.Some? ==> forall i :: 0 < i < |path.value| - 1 ==>
                             Free(v, tiles[path.value[i]], units, MoverOf(tiles, units, start))
    ensures path.None? <==> forall p :: !IsRoute(v, tiles, units, start, goal, p)
  {
    if start == goal {
      assert IsRoute(v, tiles, units, start, goal, [start]);
      return Some([start]);
    }
    var mover := MoverOf(tiles, units, start);
    var queue := [start];
    var prev: map<Coord, Option<Coord>> := map[start := None];
    ghost var dist: map<Coord, nat> := map[start := 0];
    ghost var done: set<Coord> := {};
    FrontierStart(v, tiles, units, start, goal);
    while queue != []
      invariant Frontier(v, tiles, units, start, goal, prev, dist, queue, done, {}, [])
      decreases |tiles.Keys - done|
    {
      var cur := queue[0];
      FrontierPop(v, tiles, units, start, goal, prev, dist, queue, done);
      queue := queue[1..];
      var found;
      prev, queue, dist, found := Expand(v, tiles, units, start, goal, mover, cur, prev, queue, dist, done);
      if found {
        var p := Trace(start, prev, dist, goal);
        TracedRoute(v, tiles, units, start, goal, prev, dist, p);
        return Some(p);
      }
      done := done + {cur};
    }
    RoutesEndInside(v, tiles, units, start, goal, prev.Keys);
    return None;
  }
}
