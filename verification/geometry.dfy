/** Axis-aligned bounding boxes (src/Player.h): the player's box built around
    its feet, the unit box of a block cell, and the strict overlap test. */
module Geometry {

  datatype Vec3 = Vec3(x: real, y: real, z: real)

  /** A box given by its minimum and maximum corners. */
  datatype AABB = AABB(min: Vec3, max: Vec3)

  /** C's ceil for a value that fits an int. */
  function Ceil(r: real): (n: int)
    ensures n as real - 1.0 < r <= n as real
  {
    -((-r).Floor)
  }

  /** The box of width x height x depth standing on `position`: centred on it
      in x and z, with its bottom face at position.y. */
  function Box(position: Vec3, width: real, height: real, depth: real): (b: AABB)
    ensures b.min.x + b.max.x == 2.0 * position.x && b.min.z + b.max.z == 2.0 * position.z
    ensures b.min.y == position.y
    ensures b.max.x - b.min.x == width && b.max.y - b.min.y == height && b.max.z - b.min.z == depth
    ensures width >= 0.0 && height >= 0.0 && depth >= 0.0 ==>
              b.min.x <= b.max.x && b.min.y <= b.max.y && b.min.z <= b.max.z
  {
    AABB(Vec3(position.x - width / 2.0, position.y, position.z - depth / 2.0),
         Vec3(position.x + width / 2.0, position.y + height, position.z + depth / 2.0))
  }

  /** The unit box of block cell (x, y, z). */
  function BlockBox(x: int, y: int, z: int): (b: AABB)
    ensures b.min == Vec3(x as real, y as real, z as real)
    ensures b.max.x - b.min.x == 1.0 && b.max.y - b.min.y == 1.0 && b.max.z - b.min.z == 1.0
  {
    AABB(Vec3(x as real, y as real, z as real), Vec3((x + 1) as real, (y + 1) as real, (z + 1) as real))
  }

  /** Overlap test with strict inequalities on every axis. Two boxes fail it
      exactly when one lies entirely on one side of the other along some
      axis; in particular boxes that only share a boundary plane do not
      intersect. */
  predicate Intersects(a: AABB, b: AABB)
    ensures !Intersects(a, b) <==>
      || a.max.x <= b.min.x || b.max.x <= a.min.x
      || a.max.y <= b.min.y || b.max.y <= a.min.y
      || a.max.z <= b.min.z || b.max.z <= a.min.z
  {
    && (a.min.x < b.max.x && a.max.x > b.min.x)
    && (a.min.y < b.max.y && a.max.y > b.min.y)
    && (a.min.z < b.max.z && a.max.z > b.min.z)
  }

  lemma IntersectsSymmetric(a: AABB, b: AABB)
    ensures Intersects(a, b) <==> Intersects(b, a)
  {
  }

  lemma TouchingBoxesDoNotIntersect(a: AABB, b: AABB)
    requires a.max.x == b.min.x || a.max.y == b.min.y || a.max.z == b.min.z
    ensures !Intersects(a, b) && !Intersects(b, a)
  {
  }

  /** Box with a non-empty interior. */
  predicate Proper(b: AABB) {
    b.min.x < b.max.x && b.min.y < b.max.y && b.min.z < b.max.z
  }

  predicate StrictlyInside(p: Vec3, b: AABB) {
    && b.min.x < p.x < b.max.x
    && b.min.y < p.y < b.max.y
    && b.min.z < p.z < b.max.z
  }

  function Max(a: real, b: real): real { if a < b then b else a }
  function Min(a: real, b: real): real { if a < b then a else b }

  /** For boxes with an interior, the test holds exactly when some point lies
      strictly inside both. */
  lemma IntersectsIffCommonInterior(a: AABB, b: AABB)
    requires Proper(a) && Proper(b)
    ensures Intersects(a, b) <==> exists p :: StrictlyInside(p, a) && StrictlyInside(p, b)
  {
    if Intersects(a, b) {
      var p := Vec3((Max(a.min.x, b.min.x) + Min(a.max.x, b.max.x)) / 2.0,
                    (Max(a.min.y, b.min.y) + Min(a.max.y, b.max.y)) / 2.0,
                    (Max(a.min.z, b.min.z) + Min(a.max.z, b.max.z)) / 2.0);
      assert StrictlyInside(p, a) && StrictlyInside(p, b);
    }
  }

  /** A unit cell whose box meets b lies in [floor(min), ceil(max)) on every
      axis: the scan range of the collision test misses no such cell. */
  lemma IntersectingCellInScanRange(b: AABB, x: int, y: int, z: int)
    requires Intersects(b, BlockBox(x, y, z))
    ensures b.min.x.Floor <= x < Ceil(b.max.x)
    ensures b.min.y.Floor <= y < Ceil(b.max.y)
    ensures b.min.z.Floor <= z < Ceil(b.max.z)
  {
  }
}
