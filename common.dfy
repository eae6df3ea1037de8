/** Value types shared by every subsystem: optional values, 3-vectors, axis-aligned boxes and the
    scene entities that the player can stand near and interact with. JavaScript numbers are
    modelled as exact reals. */
module Common {

  datatype Option<T> = None | Some(value: T)

  /** `Math.round`: the nearest integer, halves rounded up. */
  function Round(x: real): (n: int)
    ensures n as real - 0.5 <= x < n as real + 0.5
  {
    (x + 0.5).Floor
  }

  datatype Vec3 = Vec3(x: real, y: real, z: real) {
    function Add(v: Vec3): Vec3 { Vec3(x + v.x, y + v.y, z + v.z) }
    function Sub(v: Vec3): Vec3 { Vec3(x - v.x, y - v.y, z - v.z) }
    function Scale(k: real): Vec3 { Vec3(k * x, k * y, k * z) }
  }

  const Origin := Vec3(0.0, 0.0, 0.0)

  /** Squared Euclidean distance (Three.js `distanceTo`, squared so no root is needed). */
  function DistSq(a: Vec3, b: Vec3): (d: real)
    ensures d >= 0.0
    ensures a == b ==> d == 0.0
  {
    var dx, dy, dz := a.x - b.x, a.y - b.y, a.z - b.z;
    SquareNonNegative(dx);
    SquareNonNegative(dy);
    SquareNonNegative(dz);
    dx * dx + dy * dy + dz * dz
  }

  lemma SquareNonNegative(x: real)
    ensures x * x >= 0.0
  {
    if x < 0.0 {
      var y := -x;
      assert x * x == y * y;
    }
  }

  /** "Distance below r" stated on squares; r must be non-negative for this to mean |a - b| < r. */
  predicate WithinStrict(a: Vec3, b: Vec3, r: real)
  {
    DistSq(a, b) < r * r
  }

  predicate WithinClosed(a: Vec3, b: Vec3, r: real)
  {
    DistSq(a, b) <= r * r
  }

  /** An axis-aligned box (Three.js `Box3`). */
  datatype Box3 = Box3(min: Vec3, max: Vec3)

  /** `Box3.translate(v)`: both corners move by v. */
  function Translate(b: Box3, v: Vec3): Box3
  {
    Box3(b.min.Add(v), b.max.Add(v))
  }

  /** Translation keeps the box's size, and translating back restores it. */
  lemma TranslateBack(b: Box3, v: Vec3)
    ensures var r := Translate(b, v);
      r.max.Sub(r.min) == b.max.Sub(b.min) && r.min.Sub(v) == b.min && r.max.Sub(v) == b.max
  {
  }

  /** `Box3.intersectsBox`: closed-interval overlap on all three axes, so touching boxes intersect. */
  predicate Intersects(a: Box3, b: Box3)
  {
    && a.min.x <= b.max.x && b.min.x <= a.max.x
    && a.min.y <= b.max.y && b.min.y <= a.max.y
    && a.min.z <= b.max.z && b.min.z <= a.max.z
  }

  lemma IntersectsSymmetric(a: Box3, b: Box3)
    ensures Intersects(a, b) == Intersects(b, a)
  {
  }

  /** What an interactive scene object is. Each object in the source carries at most one of the
      flags `isCollectible`, `isMiniGame`, `isNPC`; quest markers and landmarks carry none. */
  datatype EntityKind =
    | Landmark
    | Collectible(itemType: string)
    | MiniGameSite(gameType: string)
    | Character(npcType: string)
    | QuestMarker(quest: string)

  /** A scene object as the interaction code sees it. `uid` stands for JavaScript object identity,
      which `indexOf` and the event handlers compare. */
  datatype Entity = Entity(uid: nat, name: string, position: Vec3, kind: EntityKind)
}
