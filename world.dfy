/** The world's staged transformation and its obstacle collision (world.js): the lighting scalars
    that follow the transformation stage, the five deferred stage events, the colliders' boxes and
    the wandering NPCs that step and back off when they would enter an obstacle. Geometry other
    than axis-aligned boxes, colours and cosmetic animations are not modelled. */
module World {
  import opened Common
  import opened Utils
  import opened Effects

  // ---------------------------------------------------------------------------------------------
  // Transformation (world.js:1014-1093)

  const Messages: seq<string> := [
    "A subtle shimmer fills the air, heralding a grand transformation...",
    "Structures and nature harmonize; the city pulses with new energy.",
    "A radiant glow envelops every surface. Technology merges with life.",
    "Consciousness expands throughout the network, uniting all minds.",
    "Perfect equilibrium achieved! A sublime, futuristic utopia emerges."
  ]

  /** The stage notification `updateTransformation(stage)` shows: only when
      `floor(5 * stage) - 1` indexes one of the five messages. */
  function StageNotice(stage: real): (n: Option<Notice>)
    ensures n.Some? <==> 0.2 <= stage < 1.2
    ensures n.Some? ==> n.value.durationMs == 5000 && n.value.message in Messages
  {
    var index := (stage * 5.0).Floor - 1;
    if 0 <= index < |Messages| then
      var shown := Round(stage * 5.0);
      assert shown >= 1;
      Some(Notice("Transformation Stage " + NatToString(shown), Messages[index], 5000))
    else
      None
  }

  /** Stage k / 5 is announced as stage k with the k-th message. */
  lemma StageMessage(k: nat)
    requires 1 <= k <= 5
    ensures StageNotice(k as real * 0.2)
      == Some(Notice("Transformation Stage " + NatToString(k), Messages[k - 1], 5000))
  {
    var s := k as real * 0.2;
    assert s * 5.0 == k as real;
    assert (s * 5.0).Floor == k;
    assert Round(s * 5.0) == k;
  }

  /** The stage value the `transformationStage{i}` listener passes (world.js:71-76). */
  function StageValue(i: nat): (s: real)
    ensures 1 <= i <= 5 ==> 0.2 <= s <= 1.0
  {
    i as real * 0.2
  }

  /** `startTransformation`: one deferred `transformationStage{i}` emit per stage, in the order
      set, at strictly increasing delays. */
  function StartTransformation(): (r: seq<Effect>)
    ensures |r| == 5
    ensures forall i :: 0 <= i < 5 ==>
      r[i] == Schedule(2000 + 3000 * i, EmitLater(TransformationStage(i + 1)))
    ensures forall i, j :: 0 <= i < j < 5 ==> r[i].delayMs < r[j].delayMs
  {
    [ Schedule(2000, EmitLater(TransformationStage(1))),
      Schedule(5000, EmitLater(TransformationStage(2))),
      Schedule(8000, EmitLater(TransformationStage(3))),
      Schedule(11000, EmitLater(TransformationStage(4))),
      Schedule(14000, EmitLater(TransformationStage(5))) ]
  }

  datatype Crystal = Crystal(emissiveIntensity: real, scale: Vec3)

  /** The scalar part of the scene the transformation drives: `transformationState`, the ambient
      light's intensity, the bloom pass's strength (absent when post-processing could not be set
      up) and the monument crystal. */
  datatype Look = Look(state: real, ambient: real, bloom: Option<real>, crystal: Option<Crystal>)

  /** The scene as `init` builds it (world.js:84, 131-136, 456-506). */
  function Opening(withBloom: bool): Look
  {
    Look(0.0, 0.3, if withBloom then Some(1.2) else None, Some(Crystal(0.4, Vec3(1.0, 1.0, 1.0))))
  }

  /** What `updateTransformation(stage)` makes of the scene: every scalar is linear in the stage,
      and the bloom and crystal change only where they exist. */
  function Lit(l: Look, stage: real): (r: Look)
    ensures r.state == stage
    ensures r.bloom.Some? == l.bloom.Some? && r.crystal.Some? == l.crystal.Some?
    ensures 0.0 <= stage <= 1.0 ==>
      && 0.3 <= r.ambient <= 1.0
      && (r.bloom.Some? ==> 1.2 <= r.bloom.value <= 2.0)
      && (r.crystal.Some? ==> 0.4 <= r.crystal.value.emissiveIntensity <= 1.9)
      && (r.crystal.Some? ==> r.crystal.value.scale == Vec3(1.0 + stage, 1.0 + stage, 1.0 + stage))
  {
    Look(
      stage,
      0.3 + 0.7 * stage,
      if l.bloom.Some? then Some(1.2 + 0.8 * stage) else None,
      if l.crystal.Some? then Some(Crystal(0.4 + stage * 1.5, Vec3(1.0 + stage, 1.0 + stage, 1.0 + stage)))
      else None)
  }

  /** The scene depends on the last stage only, not on the stages before it: the stages need not
      arrive in increasing order. */
  lemma {:induction false} LitLastWins(l: Look, a: real, b: real)
    ensures Lit(Lit(l, a), b) == Lit(l, b)
  {
    var r, q := Lit(Lit(l, a), b), Lit(l, b);
    assert r.bloom == q.bloom;
    assert r.crystal == q.crystal;
  }

  /** Stage 0 reproduces the opening scene: the formulas agree with the values `init` sets. */
  lemma OpeningIsStageZero(withBloom: bool)
    ensures Lit(Opening(withBloom), 0.0) == Opening(withBloom)
  {
    var r := Lit(Opening(withBloom), 0.0);
    assert r.crystal == Some(Crystal(0.4, Vec3(1.0, 1.0, 1.0)));
  }

  /** The notification effects of one `updateTransformation` call. */
  function StageEffects(stage: real): (r: seq<Effect>)
    ensures |r| <= 1 && Emitted(r) == []
    ensures |r| == 1 <==> 0.2 <= stage < 1.2
  {
    match StageNotice(stage)
    case None => []
    case Some(n) => [Notify(n)]
  }

  // ---------------------------------------------------------------------------------------------
  // Colliders (world.js:216-220, 357-361, ..., 834-838, 950-954)

  /** A static obstacle: its geometry's local box, its position and the world box
      `userData.boundingBox` the collision scan tests (missing on an object never given one). */
  datatype Collider = Collider(geometryBox: Box3, position: Vec3, boundingBox: Option<Box3>)

  /** The box registration and the per-frame refresh compute: the geometry box translated by the
      object's position. */
  predicate Current(c: Collider)
  {
    c.boundingBox == Some(Translate(c.geometryBox, c.position))
  }

  /** How a builder registers an obstacle: `computeBoundingBox`, clone, translate, push. */
  function Registered(geometryBox: Box3, position: Vec3): (c: Collider)
    ensures Current(c)
  {
    Collider(geometryBox, position, Some(Translate(geometryBox, position)))
  }

  /** The per-frame refresh of one collider: a collider with a box gets the current one, one
      without keeps none. */
  function Refresh(c: Collider): (r: Collider)
    ensures r.geometryBox == c.geometryBox && r.position == c.position
    ensures c.boundingBox.Some? ==> Current(r)
    ensures c.boundingBox.None? ==> r == c
  {
    if c.boundingBox.Some? then c.(boundingBox := Some(Translate(c.geometryBox, c.position))) else c
  }

  function RefreshAll(cs: seq<Collider>): (r: seq<Collider>)
    ensures |r| == |cs|
    ensures forall i :: 0 <= i < |cs| ==> r[i] == Refresh(cs[i])
  {
    seq(|cs|, i requires 0 <= i < |cs| => Refresh(cs[i]))
  }

  /** Obstacles do not move, so refreshing the boxes of registered colliders changes nothing. */
  lemma {:induction false} RefreshRegistered(cs: seq<Collider>)
    requires forall i :: 0 <= i < |cs| ==> Current(cs[i])
    ensures RefreshAll(cs) == cs
  {
    var r := RefreshAll(cs);
    forall i | 0 <= i < |cs|
      ensures r[i] == cs[i]
    {
      assert r[i] == Refresh(cs[i]);
    }
  }

  /** A second refresh in the same frame changes nothing. */
  lemma {:induction false} RefreshIdempotent(cs: seq<Collider>)
    ensures RefreshAll(RefreshAll(cs)) == RefreshAll(cs)
  {
    var r := RefreshAll(cs);
    var rr := RefreshAll(r);
    forall i | 0 <= i < |cs|
      ensures rr[i] == r[i]
    {
      assert r[i] == Refresh(cs[i]);
    }
  }

  /** The collision scan's test of one collider: it needs a box, and the boxes must overlap. */
  predicate Hits(box: Box3, c: Collider)
  {
    c.boundingBox.Some? && Intersects(box, c.boundingBox.value)
  }

  predicate Blocked(box: Box3, cs: seq<Collider>)
  {
    exists i :: 0 <= i < |cs| && Hits(box, cs[i])
  }

  // ---------------------------------------------------------------------------------------------
  // Wandering NPCs (world.js:846-891, 978-1009)

  /** A wandering NPC: position, per-tick speed, direction and its geometry's local box. */
  datatype Walker = Walker(position: Vec3, speed: real, direction: Vec3, baseBox: Box3)

  /** The box of `CylinderGeometry(1, 1, 2, 12)`. */
  const CylinderBox := Box3(Vec3(-1.0, -1.0, -1.0), Vec3(1.0, 1.0, 1.0))

  /** `createNPC(x, z)` with `direction` the normalised random direction it draws. */
  function NewWalker(x: real, z: real, direction: Vec3): (w: Walker)
    ensures w.position == Vec3(x, 1.0, z) && w.speed == 0.02 && w.direction == direction
    ensures w.baseBox == CylinderBox
  {
    Walker(Vec3(x, 1.0, z), 0.02, direction, CylinderBox)
  }

  /** `createNPCs`: for each of the five tries (the two draws for x and z, and the direction),
      an NPC where the spot lies at least 20 from the centre, else nothing. */
  function Spawned(spots: seq<(real, real)>, dirs: seq<Vec3>): (r: seq<Walker>)
    requires |dirs| == |spots|
    requires forall i :: 0 <= i < |spots| ==> 0.0 <= spots[i].0 < 1.0 && 0.0 <= spots[i].1 < 1.0
    ensures |r| <= |spots|
    ensures forall w :: w in r ==>
      && w.position.y == 1.0
      && w.position.x * w.position.x + w.position.z * w.position.z >= 400.0
      && -100.0 <= w.position.x < 100.0 && -100.0 <= w.position.z < 100.0
      && w.speed == 0.02 && w.baseBox == CylinderBox
    decreases |spots|
  {
    if spots == [] then []
    else
      var n := |spots| - 1;
      var rest := Spawned(spots[..n], dirs[..n]);
      var x := RandomFloat(-100.0, 100.0, spots[n].0);
      var z := RandomFloat(-100.0, 100.0, spots[n].1);
      if x * x + z * z < 400.0 then rest else rest + [NewWalker(x, z, dirs[n])]
  }

  /** Where the tick's move would take the walker. */
  function Ahead(w: Walker): Vec3
  {
    w.position.Add(w.direction.Scale(w.speed))
  }

  /** The walker's box stays clear of every obstacle box. */
  predicate Clear(w: Walker, cs: seq<Collider>)
  {
    !Blocked(Translate(w.baseBox, w.position), cs)
  }

  /** One tick of `updateNPCs` for one walker, with the revert it evidently intends: move by
      direction times speed; if the moved box hits an obstacle, undo exactly that move and take
      the new direction `turn`. The step does not depend on the frame's delta time. */
  function Step(w: Walker, cs: seq<Collider>, turn: Vec3): (r: Walker)
    ensures r.speed == w.speed && r.baseBox == w.baseBox
    ensures Blocked(Translate(w.baseBox, Ahead(w)), cs) ==>
      r.position == w.position && r.direction == turn
    ensures !Blocked(Translate(w.baseBox, Ahead(w)), cs) ==>
      r.position == Ahead(w) && r.direction == w.direction
  {
    var step := w.direction.Scale(w.speed);
    var moved := w.position.Add(step);
    if Blocked(Translate(w.baseBox, moved), cs) then
      w.(position := moved.Sub(step), direction := turn)
    else
      w.(position := moved)
  }

  /** A walker that starts clear of the obstacles is clear after its step. */
  lemma StepKeepsClear(w: Walker, cs: seq<Collider>, turn: Vec3)
    requires Clear(w, cs)
    ensures Clear(Step(w, cs, turn), cs)
  {
  }

  /** The revert as world.js:1001 writes it: `dir` already holds direction times speed after
      the move (`multiplyScalar` scales in place), so the second `multiplyScalar(delta)` makes it
      direction times speed squared, and that is what is subtracted. */
  function StepAsWritten(w: Walker, cs: seq<Collider>, turn: Vec3): (r: Walker)
    ensures !Blocked(Translate(w.baseBox, Ahead(w)), cs) ==> r == Step(w, cs, turn)
    ensures Blocked(Translate(w.baseBox, Ahead(w)), cs) ==>
      r.position == Ahead(w).Sub(w.direction.Scale(w.speed).Scale(w.speed))
  {
    var dir := w.direction.Scale(w.speed);
    var moved := w.position.Add(dir);
    if Blocked(Translate(w.baseBox, moved), cs) then
      w.(position := moved.Sub(dir.Scale(w.speed)), direction := turn)
    else
      w.(position := moved)
  }

  /** An NPC the way `createNPC(0, 0)` makes it, heading along +x, and a wall whose near face
      lies 0.01 beyond the NPC's box. */
  const Probe := Walker(Vec3(0.0, 1.0, 0.0), 0.02, Vec3(1.0, 0.0, 0.0), CylinderBox)
  const WallBox := Box3(Vec3(1.01, -1.0, -5.0), Vec3(10.0, 10.0, 5.0))
  const Wall := Collider(WallBox, Origin, Some(WallBox))

  /** The probe NPC is clear of the wall and its step would touch it: the as-written revert
      leaves it 0.0196 along its way, inside the wall, where the intended revert leaves it where
      it was, clear. */
  lemma RevertCounterexample()
    ensures Probe == NewWalker(0.0, 0.0, Vec3(1.0, 0.0, 0.0)) && Wall == Registered(WallBox, Origin)
    ensures Clear(Probe, [Wall])
    ensures StepAsWritten(Probe, [Wall], Vec3(-1.0, 0.0, 0.0)).position == Vec3(0.0196, 1.0, 0.0)
    ensures !Clear(StepAsWritten(Probe, [Wall], Vec3(-1.0, 0.0, 0.0)), [Wall])
    ensures Clear(Step(Probe, [Wall], Vec3(-1.0, 0.0, 0.0)), [Wall])
  {
    ProbeClear(Probe, Wall);
    StepKeepsClear(Probe, [Wall], Vec3(-1.0, 0.0, 0.0));
    AsWrittenPosition(Probe, Wall, Vec3(-1.0, 0.0, 0.0));
    EndsInside(StepAsWritten(Probe, [Wall], Vec3(-1.0, 0.0, 0.0)), Wall);
  }

  lemma ProbeClear(w: Walker, c: Collider)
    requires w == Probe && c == Wall
    ensures Clear(w, [c])
  {
    var start := Box3(Vec3(-1.0, 0.0, -1.0), Vec3(1.0, 2.0, 1.0));
    assert Translate(w.baseBox, w.position) == start;
    OneCollider(start, c);
  }

  lemma ProbeBlocked(w: Walker, c: Collider)
    requires w == Probe && c == Wall
    ensures Blocked(Translate(w.baseBox, Ahead(w)), [c])
  {
    var ahead := Box3(Vec3(-0.98, 0.0, -1.0), Vec3(1.02, 2.0, 1.0));
    assert Ahead(w) == Vec3(0.02, 1.0, 0.0);
    assert Translate(w.baseBox, Ahead(w)) == ahead;
    OneCollider(ahead, c);
  }

  lemma AsWrittenPosition(w: Walker, c: Collider, turn: Vec3)
    requires w == Probe && c == Wall
    ensures StepAsWritten(w, [c], turn).position == Vec3(0.0196, 1.0, 0.0)
    ensures StepAsWritten(w, [c], turn).baseBox == CylinderBox
  {
    ProbeBlocked(w, c);
    AsWrittenBlocked(w, [c], turn);
    assert w.position == Vec3(0.0, 1.0, 0.0) && w.direction == Vec3(1.0, 0.0, 0.0) && w.speed == 0.02;
  }

  /** The as-written revert, component by component. */
  lemma AsWrittenBlocked(w: Walker, cs: seq<Collider>, turn: Vec3)
    requires Blocked(Translate(w.baseBox, Ahead(w)), cs)
    ensures var p, d, s := w.position, w.direction, w.speed;
      StepAsWritten(w, cs, turn).position
        == Vec3(p.x + s * d.x - s * (s * d.x), p.y + s * d.y - s * (s * d.y), p.z + s * d.z - s * (s * d.z))
  {
    var p, d, s := w.position, w.direction, w.speed;
    var dir := d.Scale(s);
    assert dir == Vec3(s * d.x, s * d.y, s * d.z);
    assert dir.Scale(s) == Vec3(s * (s * d.x), s * (s * d.y), s * (s * d.z));
    assert Ahead(w) == Vec3(p.x + s * d.x, p.y + s * d.y, p.z + s * d.z);
    assert StepAsWritten(w, cs, turn).position == Ahead(w).Sub(dir.Scale(s));
  }

  lemma EndsInside(w: Walker, c: Collider)
    requires w.position == Vec3(0.0196, 1.0, 0.0) && w.baseBox == CylinderBox && c == Wall
    ensures !Clear(w, [c])
  {
    var inside := Box3(Vec3(-0.9804, 0.0, -1.0), Vec3(1.0196, 2.0, 1.0));
    assert Translate(w.baseBox, w.position) == inside;
    OneCollider(inside, c);
  }

  lemma OneCollider(box: Box3, c: Collider)
    ensures Blocked(box, [c]) <==> Hits(box, c)
  {
    if Hits(box, c) {
      assert [c][0] == c;
    }
  }

  function StepAll(ws: seq<Walker>, cs: seq<Collider>, turns: seq<Vec3>): (r: seq<Walker>)
    requires |turns| == |ws|
    ensures |r| == |ws|
    ensures forall i :: 0 <= i < |ws| ==> r[i] == Step(ws[i], cs, turns[i])
  {
    seq(|ws|, i requires 0 <= i < |ws| => Step(ws[i], cs, turns[i]))
  }

  /** NPCs that start clear of every obstacle stay clear, tick after tick. NPCs are not
      colliders, so each step looks at the obstacles only, never at the other NPCs. */
  lemma {:induction false} StepAllKeepsClear(ws: seq<Walker>, cs: seq<Collider>, turns: seq<Vec3>)
    requires |turns| == |ws|
    requires forall i :: 0 <= i < |ws| ==> Clear(ws[i], cs)
    ensures forall i :: 0 <= i < |ws| ==> Clear(StepAll(ws, cs, turns)[i], cs)
  {
    forall i | 0 <= i < |ws|
      ensures Clear(StepAll(ws, cs, turns)[i], cs)
    {
      StepKeepsClear(ws[i], cs, turns[i]);
    }
  }

  // ---------------------------------------------------------------------------------------------
  // The world object

  class World {
    var transformationState: real
    var ambientIntensity: real
    var bloomStrength: Option<real>
    var crystal: Option<Crystal>
    var colliders: seq<Collider>
    var npcs: seq<Walker>
    var interactiveObjects: seq<Entity>

    function Scene(): Look
      reads this
    {
      Look(transformationState, ambientIntensity, bloomStrength, crystal)
    }

    /** `init` before the builders run; `withBloom` says whether post-processing was set up. */
    constructor (withBloom: bool)
      ensures Scene() == Opening(withBloom)
      ensures colliders == [] && npcs == [] && interactiveObjects == []
    {
      transformationState := 0.0;
      ambientIntensity := 0.3;
      bloomStrength := if withBloom then Some(1.2) else None;
      crystal := Some(Crystal(0.4, Vec3(1.0, 1.0, 1.0)));
      colliders := [];
      npcs := [];
      interactiveObjects := [];
    }

    /** A builder's obstacle registration. */
    method RegisterCollider(geometryBox: Box3, position: Vec3)
      modifies this
      ensures colliders == old(colliders) + [Registered(geometryBox, position)]
      ensures Scene() == old(Scene()) && npcs == old(npcs)
      ensures interactiveObjects == old(interactiveObjects)
    {
      var bb := Translate(geometryBox, position);
      colliders := colliders + [Collider(geometryBox, position, Some(bb))];
    }

    /** A builder's `interactiveObjects.push`. */
    method AddInteractive(e: Entity)
      modifies this
      ensures interactiveObjects == old(interactiveObjects) + [e]
      ensures Scene() == old(Scene()) && npcs == old(npcs) && colliders == old(colliders)
    {
      interactiveObjects := interactiveObjects + [e];
    }

    /** `createNPC(x, z)`: onto `npcs` only, never onto `colliders`. */
    method CreateNPC(x: real, z: real, direction: Vec3)
      modifies this
      ensures npcs == old(npcs) + [NewWalker(x, z, direction)]
      ensures colliders == old(colliders) && Scene() == old(Scene())
      ensures interactiveObjects == old(interactiveObjects)
    {
      npcs := npcs + [Walker(Vec3(x, 1.0, z), 0.02, direction, CylinderBox)];
    }

    /** `createNPCs` with the random draws of each of its tries. */
    method CreateNPCs(spots: seq<(real, real)>, dirs: seq<Vec3>)
      requires |spots| == 5 && |dirs| == 5
      requires forall i :: 0 <= i < 5 ==> 0.0 <= spots[i].0 < 1.0 && 0.0 <= spots[i].1 < 1.0
      modifies this
      ensures npcs == old(npcs) + Spawned(spots, dirs)
      ensures colliders == old(colliders) && Scene() == old(Scene())
      ensures interactiveObjects == old(interactiveObjects)
    {
      var i := 0;
      while i < 5
        invariant 0 <= i <= 5
        invariant npcs == old(npcs) + Spawned(spots[..i], dirs[..i])
        invariant colliders == old(colliders) && Scene() == old(Scene())
        invariant interactiveObjects == old(interactiveObjects)
      {
        assert spots[..i + 1][..i] == spots[..i] && dirs[..i + 1][..i] == dirs[..i];
        var x := RandomFloat(-100.0, 100.0, spots[i].0);
        var z := RandomFloat(-100.0, 100.0, spots[i].1);
        if x * x + z * z >= 400.0 {
          CreateNPC(x, z, dirs[i]);
        }
        i := i + 1;
      }
      assert spots[..5] == spots && dirs[..5] == dirs;
    }

    /** `updateTransformation(stage)`: the scene takes the stage's values, and the stage's
        notification, if any, is shown. */
    method UpdateTransformation(stage: real) returns (effects: seq<Effect>)
      modifies this
      ensures Scene() == Lit(old(Scene()), stage)
      ensures effects == StageEffects(stage)
      ensures colliders == old(colliders) && npcs == old(npcs)
      ensures interactiveObjects == old(interactiveObjects)
    {
      transformationState := stage;
      ambientIntensity := 0.3 + 0.7 * stage;
      if bloomStrength.Some? {
        bloomStrength := Some(1.2 + 0.8 * stage);
      }
      if crystal.Some? {
        crystal := Some(Crystal(0.4 + stage * 1.5, Vec3(1.0 + stage, 1.0 + stage, 1.0 + stage)));
      }
      effects := [];
      var index := (stage * 5.0).Floor - 1;
      if 0 <= index < |Messages| {
        effects := [Notify(StageNotice(stage).value)];
      }
    }

    /** `transform`: the final stage at once. */
    method Transform() returns (effects: seq<Effect>)
      modifies this
      ensures Scene() == Lit(old(Scene()), 1.0)
      ensures effects == StageEffects(1.0)
      ensures colliders == old(colliders) && npcs == old(npcs)
      ensures interactiveObjects == old(interactiveObjects)
    {
      effects := UpdateTransformation(1.0);
    }

    /** The collision scan: the first collider with a box the given box overlaps. */
    method FirstHit(box: Box3) returns (hit: Option<nat>)
      ensures hit.None? <==> !Blocked(box, colliders)
      ensures hit.Some? ==> hit.value < |colliders| && Hits(box, colliders[hit.value])
      ensures hit.Some? ==> forall j :: 0 <= j < hit.value ==> !Hits(box, colliders[j])
    {
      var i := 0;
      while i < |colliders|
        invariant 0 <= i <= |colliders|
        invariant forall j :: 0 <= j < i ==> !Hits(box, colliders[j])
      {
        if colliders[i].boundingBox.None? {
          i := i + 1;
          continue;
        }
        if Intersects(box, colliders[i].boundingBox.value) {
          return Some(i);
        }
        i := i + 1;
      }
      return None;
    }

    /** `updateNPCs` with the intended revert; `turns[i]` is the direction NPC i would draw. */
    method UpdateNPCs(turns: seq<Vec3>)
      requires |turns| == |npcs|
      modifies this
      ensures npcs == StepAll(old(npcs), colliders, turns)
      ensures colliders == old(colliders) && Scene() == old(Scene())
      ensures interactiveObjects == old(interactiveObjects)
    {
      var i := 0;
      while i < |npcs|
        invariant 0 <= i <= |npcs| == |old(npcs)|
        invariant forall j :: 0 <= j < i ==> npcs[j] == Step(old(npcs)[j], colliders, turns[j])
        invariant forall j :: i <= j < |npcs| ==> npcs[j] == old(npcs)[j]
        invariant colliders == old(colliders) && Scene() == old(Scene())
        invariant interactiveObjects == old(interactiveObjects)
      {
        var npc := npcs[i];
        var step := npc.direction.Scale(npc.speed);
        var moved := npc.position.Add(step);
        var hit := FirstHit(Translate(npc.baseBox, moved));
        if hit.Some? {
          npc := npc.(position := moved.Sub(step), direction := turns[i]);
        } else {
          npc := npc.(position := moved);
        }
        npcs := npcs[i := npc];
        i := i + 1;
      }
    }

    /** The per-frame box refresh (world.js:949-955). */
    method RefreshColliders()
      modifies this
      ensures colliders == RefreshAll(old(colliders))
      ensures npcs == old(npcs) && Scene() == old(Scene())
      ensures interactiveObjects == old(interactiveObjects)
    {
      var i := 0;
      while i < |colliders|
        invariant 0 <= i <= |colliders| == |old(colliders)|
        invariant forall j :: 0 <= j < i ==> colliders[j] == Refresh(old(colliders)[j])
        invariant forall j :: i <= j < |colliders| ==> colliders[j] == old(colliders)[j]
        invariant npcs == old(npcs) && Scene() == old(Scene())
        invariant interactiveObjects == old(interactiveObjects)
      {
        var c := colliders[i];
        if c.boundingBox.Some? {
          colliders := colliders[i := c.(boundingBox := Some(Translate(c.geometryBox, c.position)))];
        }
        i := i + 1;
      }
    }

    /** The collision part of `update`: refresh the obstacle boxes, then step the NPCs. */
    method Update(turns: seq<Vec3>)
      requires |turns| == |npcs|
      modifies this
      ensures colliders == RefreshAll(old(colliders))
      ensures npcs == StepAll(old(npcs), colliders, turns)
      ensures Scene() == old(Scene()) && interactiveObjects == old(interactiveObjects)
    {
      RefreshColliders();
      UpdateNPCs(turns);
    }
  }
}
