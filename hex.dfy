/**
 * Axial hex geometry and the small value types shared by every part of the
 * rules engine: the two sides, axial coordinates, the six neighbour offsets
 * and the hex distance.
 */
module Hex {

  /** The two sides of the game, 'ally' and 'enemy' in the source. */
  datatype Side = Ally | Enemy
  {
    function Other(): Side {
      if this == Ally then Enemy else Ally
    }
  }

  /** An axial coordinate (q, r); the key of a tile in the map. */
  datatype Coord = Coord(q: int, r: int)
  {
    function Plus(d: Coord): Coord {
      Coord(q + d.q, r + d.r)
    }
  }

  datatype Option<T> = None | Some(value: T)

  datatype Result<T, E> = Ok(value: T) | Err(error: E)

  /** One value per side, for the per-side dictionaries of the source. */
  datatype PerSide<T> = PerSide(ally: T, enemy: T)
  {
    function Get(s: Side): T {
      if s == Ally then ally else enemy
    }

    function Set(s: Side, v: T): (p: PerSide<T>)
      ensures p.Get(s) == v && p.Get(s.Other()) == Get(s.Other())
    {
      if s == Ally then PerSide(v, enemy) else PerSide(ally, v)
    }
  }

  /** The six axial offsets, in the order the neighbour loops visit them. */
  const Directions: seq<Coord> :=
    [Coord(1, 0), Coord(1, -1), Coord(0, -1), Coord(-1, 0), Coord(-1, 1), Coord(0, 1)]

  function Abs(x: int): nat {
    if x < 0 then -x else x
  }

  function Max3(a: nat, b: nat, c: nat): nat {
    if a >= b && a >= c then a else if b >= c then b else c
  }

  /**
   * Hex distance in axial coordinates: the largest of |dq|, |dr| and
   * |ds| where s = -(q + r) is the third cube coordinate.
   */
  function HexDistance(a: Coord, b: Coord): nat {
    Max3(Abs(a.q - b.q), Abs(a.r - b.r), Abs(-(a.q + a.r) - -(b.q + b.r)))
  }

  /** The hex distance is a metric: zero exactly on equal coordinates, symmetric, triangular. */
  lemma HexDistanceIsMetric(a: Coord, b: Coord, c: Coord)
    ensures HexDistance(a, b) == 0 <==> a == b
    ensures HexDistance(a, b) == HexDistance(b, a)
    ensures HexDistance(a, c) <= HexDistance(a, b) + HexDistance(b, c)
  {
  }

  /** The coordinates at hex distance 1 are exactly the six offsets. */
  lemma DirectionsAreUnitSteps(c: Coord, d: Coord)
    ensures d in Directions <==> HexDistance(c, c.Plus(d)) == 1
  {
  }

  /** Every offset has its opposite among the offsets, which makes adjacency symmetric. */
  lemma DirectionOpposite(d: Coord)
    requires d in Directions
    ensures Coord(-d.q, -d.r) in Directions
  {
  }

  /** The hexagon of radius `size` around the origin, as the map generator lays it out. */
  predicate InHexagon(c: Coord, size: int) {
    -size <= c.q <= size && -size <= c.r <= size && -size <= c.q + c.r <= size
  }

  /** Being in the hexagon is being within hex distance `size` of the origin. */
  lemma InHexagonIsDistance(c: Coord, size: int)
    ensures InHexagon(c, size) <==> size >= 0 && HexDistance(c, Coord(0, 0)) <= size
  {
  }
}
