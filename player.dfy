/** The player (player.js): the pressed-key flags, the jump and landing flags, the position
    clamp, the free-look camera angles and the choice of the object the player can interact with.
    The sine and cosine of the player's rotation are parameters, and the walk animation, the camera
    placement and the model's meshes are not modelled. */
module Player {
  import opened Common
  import opened Utils
  import opened Effects

  // ---------------------------------------------------------------------------------------------
  // Keys (player.js:52-62, 670-733, 585-595)

  datatype Keys = Keys(
    forward: bool, backward: bool, left: bool, right: bool, jump: bool,
    interact: bool, showMap: bool, sprint: bool, pause: bool)

  const Released := Keys(false, false, false, false, false, false, false, false, false)

  datatype Control = Forward | Backward | Left | Right | Jump | Interact | Map | Sprint

  function Get(k: Keys, c: Control): bool
  {
    match c
    case Forward => k.forward
    case Backward => k.backward
    case Left => k.left
    case Right => k.right
    case Jump => k.jump
    case Interact => k.interact
    case Map => k.showMap
    case Sprint => k.sprint
  }

  function Set(k: Keys, c: Control, b: bool): (r: Keys)
    ensures Get(r, c) == b
    ensures forall d :: d != c ==> Get(r, d) == Get(k, d)
    ensures r.pause == k.pause
  {
    match c
    case Forward => k.(forward := b)
    case Backward => k.(backward := b)
    case Left => k.(left := b)
    case Right => k.(right := b)
    case Jump => k.(jump := b)
    case Interact => k.(interact := b)
    case Map => k.(showMap := b)
    case Sprint => k.(sprint := b)
  }

  /** The flag a lower-cased key name drives. 'w' drives `backward` and 's' drives `forward`. */
  function Bound(key: string): (c: Option<Control>)
    ensures key == "w" <==> c == Some(Backward)
    ensures key == "s" <==> c == Some(Forward)
    ensures key == "a" <==> c == Some(Left)
    ensures key == "d" <==> c == Some(Right)
    ensures key == " " <==> c == Some(Jump)
    ensures key == "e" <==> c == Some(Control.Interact)
    ensures key == "m" <==> c == Some(Map)
    ensures key == "shift" <==> c == Some(Sprint)
  {
    if key == "w" then Some(Backward)
    else if key == "s" then Some(Forward)
    else if key == "a" then Some(Left)
    else if key == "d" then Some(Right)
    else if key == " " then Some(Jump)
    else if key == "e" then Some(Control.Interact)
    else if key == "m" then Some(Map)
    else if key == "shift" then Some(Sprint)
    else None
  }

  /** The flags after `handleKeyDown(key)`, case by case as its switch has them: the key's flag
      (the one `Bound` names) is set, except that 'm' toggles the map flag. */
  function Pressed(k: Keys, key: string): (r: Keys)
    ensures Bound(key).None? ==> r == k
    ensures Bound(key) == Some(Map) ==> r == Set(k, Map, !k.showMap)
    ensures Bound(key).Some? && Bound(key) != Some(Map) ==> r == Set(k, Bound(key).value, true)
  {
    if key == "w" then k.(backward := true)
    else if key == "s" then k.(forward := true)
    else if key == "a" then k.(left := true)
    else if key == "d" then k.(right := true)
    else if key == " " then k.(jump := true)
    else if key == "e" then k.(interact := true)
    else if key == "m" then k.(showMap := !k.showMap)
    else if key == "shift" then k.(sprint := true)
    else k
  }

  /** The flags after `handleKeyUp(key)`, case by case as its switch has them: the key's flag
      (the one `Bound` names) is cleared; 'm' is ignored. */
  function Lifted(k: Keys, key: string): (r: Keys)
    ensures Bound(key).None? || Bound(key) == Some(Map) ==> r == k
    ensures Bound(key).Some? && Bound(key) != Some(Map) ==> r == Set(k, Bound(key).value, false)
  {
    if key == "w" then k.(backward := false)
    else if key == "s" then k.(forward := false)
    else if key == "a" then k.(left := false)
    else if key == "d" then k.(right := false)
    else if key == " " then k.(jump := false)
    else if key == "e" then k.(interact := false)
    else if key == "shift" then k.(sprint := false)
    else k
  }

  /** Pressing and releasing a key leaves every flag as releasing it alone would: the key's flag
      is down again and all the others are as they were. */
  lemma PressThenLift(k: Keys, key: string)
    ensures Bound(key) != Some(Map) ==> Lifted(Pressed(k, key), key) == Lifted(k, key)
  {
  }

  /** Pressing and releasing 'm' toggles the map once: `keyup` ignores it. */
  lemma MapPressLift(k: Keys)
    ensures Bound("m") == Some(Map) && Lifted(Pressed(k, "m"), "m").showMap == !k.showMap
  {
  }

  /** Pressing 'm' twice gives the flags back. */
  lemma {:induction false} MapTwice(k: Keys)
    ensures Pressed(Pressed(k, "m"), "m") == k
  {
    assert Bound("m") == Some(Map);
    var once := Pressed(k, "m");
    assert once == k.(showMap := !k.showMap);
    assert Pressed(once, "m") == once.(showMap := !once.showMap);
  }

  /** `toLowerCase` on ASCII letters; other characters are kept. */
  function Lower(s: string): (r: string)
    ensures |r| == |s|
    ensures forall i :: 0 <= i < |s| ==> ('A' <= s[i] <= 'Z' ==> r[i] == (s[i] as int + 32) as char)
    ensures forall i :: 0 <= i < |s| ==> (!('A' <= s[i] <= 'Z') ==> r[i] == s[i])
  {
    seq(|s|, i requires 0 <= i < |s| => if 'A' <= s[i] <= 'Z' then (s[i] as int + 32) as char else s[i])
  }

  // ---------------------------------------------------------------------------------------------
  // Motion (player.js:740-837)

  const MoveSpeed := 0.07
  const SprintMultiplier := 2.16
  const RotationSpeed := 0.03
  const JumpForce := 0.3
  const Gravity := 0.01
  const Friction := 0.9
  const Bounds := 1000.0

  /** What one update changes: position, velocity, rotation, the horizontal camera angle and
      the jumping flag. */
  datatype Motion = Motion(position: Vec3, velocity: Vec3, rotation: real, cameraH: real, isJumping: bool)

  /** `Math.min(deltaTime, 3)`. */
  function Capped(deltaTime: real): (nd: real)
    ensures nd <= 3.0
    ensures deltaTime <= 3.0 ==> nd == deltaTime
  {
    Min(deltaTime, 3.0)
  }

  /** `jump`: acts only when not already jumping. */
  function Jumped(m: Motion): (r: Motion)
    ensures m.isJumping ==> r == m
    ensures !m.isJumping ==> r.isJumping && r.velocity.y == JumpForce && r.position == m.position
  {
    if m.isJumping then m else m.(velocity := m.velocity.(y := JumpForce), isJumping := true)
  }

  /** A/D turn the player; outside free look the horizontal camera angle follows. */
  function Turned(m: Motion, keys: Keys, freeLook: bool, nd: real): (r: Motion)
    ensures r.position == m.position && r.velocity == m.velocity && r.isJumping == m.isJumping
    ensures keys.left && keys.right ==> r.rotation == m.rotation
    ensures !keys.left && !keys.right ==> r == m
    ensures (keys.left || keys.right) && !freeLook ==> r.cameraH == r.rotation
    ensures freeLook ==> r.cameraH == m.cameraH
  {
    var l := if keys.left then
      var rot := m.rotation + RotationSpeed * nd;
      m.(rotation := rot, cameraH := if freeLook then m.cameraH else rot)
    else m;
    if keys.right then
      var rot := l.rotation - RotationSpeed * nd;
      l.(rotation := rot, cameraH := if freeLook then l.cameraH else rot)
    else l
  }

  /** The forward/backward component of the move direction; 'w' (backward) wins over 's'. */
  function Heading(keys: Keys): (z: int)
    ensures z == 0 <==> !keys.forward && !keys.backward
  {
    if keys.backward then 1 else if keys.forward then -1 else 0
  }

  /** Acceleration along the player's facing (`sinR`, `cosR` are the sine and cosine of the
      rotation), then friction on the horizontal components. */
  function Accelerated(v: Vec3, keys: Keys, sinR: real, cosR: real, nd: real): (r: Vec3)
    ensures r.y == v.y
  {
    var dz := Heading(keys) as real;
    var mult := if keys.sprint then SprintMultiplier else 1.0;
    var pushed := if dz != 0.0 then
      Vec3(v.x + sinR * dz * MoveSpeed * mult * nd, v.y, v.z + cosR * dz * MoveSpeed * mult * nd)
    else v;
    Vec3(pushed.x * Friction, pushed.y, pushed.z * Friction)
  }

  /** Gravity and the landing check while jumping; the check looks at the position before this
      update moves it. */
  function Fallen(m: Motion, nd: real): (r: Motion)
    ensures r.position.x == m.position.x && r.position.z == m.position.z
    ensures r.velocity.x == m.velocity.x && r.velocity.z == m.velocity.z
    ensures r.rotation == m.rotation && r.cameraH == m.cameraH
    ensures !m.isJumping ==> r == m
    ensures m.isJumping && m.position.y <= 0.0 ==>
      !r.isJumping && r.position.y == 0.0 && r.velocity.y == 0.0
    ensures m.isJumping && m.position.y > 0.0 ==>
      r.isJumping && r.position == m.position && r.velocity.y == m.velocity.y - Gravity * nd
  {
    if !m.isJumping then m
    else
      var v := m.velocity.(y := m.velocity.y - Gravity * nd);
      if m.position.y <= 0.0 then
        m.(position := m.position.(y := 0.0), velocity := v.(y := 0.0), isJumping := false)
      else
        m.(velocity := v)
  }

  /** Position plus velocity times the capped delta, then x and z clamped to the world. */
  function Advanced(m: Motion, nd: real): (r: Motion)
    ensures -Bounds <= r.position.x <= Bounds && -Bounds <= r.position.z <= Bounds
    ensures r.position.y == m.position.y + m.velocity.y * nd
    ensures r.velocity == m.velocity && r.isJumping == m.isJumping
    ensures r.rotation == m.rotation && r.cameraH == m.cameraH
  {
    var p := m.position.Add(m.velocity.Scale(nd));
    m.(position := Vec3(Clamp(p.x, -Bounds, Bounds), p.y, Clamp(p.z, -Bounds, Bounds)))
  }

  /** The motion part of `update(deltaTime)`. */
  function Moved(m: Motion, keys: Keys, freeLook: bool, deltaTime: real, sinR: real, cosR: real): (r: Motion)
    ensures -Bounds <= r.position.x <= Bounds && -Bounds <= r.position.z <= Bounds
  {
    var nd := Capped(deltaTime);
    var t := Turned(m, keys, freeLook, nd);
    var a := t.(velocity := Accelerated(t.velocity, keys, sinR, cosR, nd));
    Advanced(Fallen(a, nd), nd)
  }

  /** A frame longer than three reference frames moves the player exactly as one of three. */
  lemma LongFrame(m: Motion, keys: Keys, freeLook: bool, deltaTime: real, sinR: real, cosR: real)
    requires deltaTime >= 3.0
    ensures Moved(m, keys, freeLook, deltaTime, sinR, cosR) == Moved(m, keys, freeLook, 3.0, sinR, cosR)
  {
    assert Capped(deltaTime) == Capped(3.0);
  }

  /** A jump from the ground is cancelled by the very next update: the landing check sees y = 0
      before the upward velocity is applied. */
  lemma {:induction false} GroundJumpCancelled(m: Motion, keys: Keys, freeLook: bool, deltaTime: real, sinR: real, cosR: real)
    requires !m.isJumping && m.position.y == 0.0
    ensures var r := Moved(Jumped(m), keys, freeLook, deltaTime, sinR, cosR);
      r.position.y == 0.0 && r.velocity.y == 0.0 && !r.isJumping
  {
    var nd := Capped(deltaTime);
    var t := Turned(Jumped(m), keys, freeLook, nd);
    var a := t.(velocity := Accelerated(t.velocity, keys, sinR, cosR, nd));
    var f := Fallen(a, nd);
    assert f.position.y == 0.0 && f.velocity.y == 0.0 && !f.isJumping;
    assert f.velocity.y * nd == 0.0;
  }

  /** In the air, a jumping player keeps jumping and the vertical velocity drops by gravity. */
  lemma {:induction false} Airborne(m: Motion, keys: Keys, freeLook: bool, deltaTime: real, sinR: real, cosR: real)
    requires m.isJumping && m.position.y > 0.0
    ensures var r := Moved(m, keys, freeLook, deltaTime, sinR, cosR);
      r.isJumping && r.velocity.y == m.velocity.y - Gravity * Capped(deltaTime)
  {
    var nd := Capped(deltaTime);
    var t := Turned(m, keys, freeLook, nd);
    var a := t.(velocity := Accelerated(t.velocity, keys, sinR, cosR, nd));
    assert a.isJumping && a.position.y > 0.0 && a.velocity.y == m.velocity.y;
  }

  // ---------------------------------------------------------------------------------------------
  // Interaction (player.js:842-873)

  const InteractionDistance := 3.0

  predicate InReach(p: Vec3, e: Entity)
  {
    WithinStrict(p, e.position, InteractionDistance)
  }

  /** The object `checkInteractions` ends on: the last one in list order within reach. */
  function LastInReach(p: Vec3, objs: seq<Entity>): (r: Option<Entity>)
    ensures r.None? <==> forall i :: 0 <= i < |objs| ==> !InReach(p, objs[i])
    ensures r.Some? ==>
      exists i :: 0 <= i < |objs| && objs[i] == r.value && InReach(p, objs[i]) &&
        (forall j :: i < j < |objs| ==> !InReach(p, objs[j]))
    decreases |objs|
  {
    if objs == [] then None
    else
      var n := |objs| - 1;
      if InReach(p, objs[n]) then Some(objs[n])
      else
        var r := LastInReach(p, objs[..n]);
        assert forall i :: 0 <= i < n ==> objs[..n][i] == objs[i];
        r
  }

  /** `object.name || 'object'`. */
  function Label(e: Entity): string
  {
    if e.name == "" then "object" else e.name
  }

  function Hint(e: Entity): Effect
  {
    Notify(Notice("Interaction Available", "Press E to interact with " + Label(e), 1000))
  }

  /** The hints `checkInteractions` shows, one per object within reach, in list order; none once
      the player has interacted. */
  function Hints(p: Vec3, objs: seq<Entity>, interacting: bool): (r: seq<Effect>)
    ensures interacting ==> r == []
    ensures Emitted(r) == []
    ensures |r| <= |objs|
    decreases |objs|
  {
    if objs == [] then []
    else
      var n := |objs| - 1;
      var rest := Hints(p, objs[..n], interacting);
      if InReach(p, objs[n]) && !interacting then rest + [Hint(objs[n])] else rest
  }

  /** `Math.max(-limit, Math.min(limit, angle))` with `limit` = `Math.PI / 4` as a double. */
  const VerticalAngleLimit := 0.7853981633974483

  class Player {
    var keys: Keys
    var position: Vec3
    var velocity: Vec3
    var rotation: real
    var cameraH: real
    var cameraV: real
    var savedH: real
    var savedV: real
    var isFreeLookActive: bool
    var isJumping: bool
    var isMouseLocked: bool
    var isInteracting: bool
    var currentInteraction: Option<Entity>

    function State(): Motion
      reads this
    {
      Motion(position, velocity, rotation, cameraH, isJumping)
    }

    constructor ()
      ensures keys == Released && State() == Motion(Origin, Origin, 0.0, 0.0, false)
      ensures cameraV == 0.0 && !isFreeLookActive && !isMouseLocked && !isInteracting
      ensures currentInteraction.None?
    {
      keys := Released;
      position, velocity := Origin, Origin;
      rotation, cameraH, cameraV, savedH, savedV := 0.0, 0.0, 0.0, 0.0, 0.0;
      isFreeLookActive, isJumping, isMouseLocked, isInteracting := false, false, false, false;
      currentInteraction := None;
    }

    /** `startFreeLook`: the camera angles are saved and decoupled from the player's rotation. */
    method StartFreeLook()
      modifies this
      ensures isFreeLookActive && savedH == old(cameraH) && savedV == old(cameraV)
      ensures State() == old(State()) && keys == old(keys) && cameraV == old(cameraV)
      ensures currentInteraction == old(currentInteraction) && isInteracting == old(isInteracting)
      ensures isMouseLocked == old(isMouseLocked)
    {
      isFreeLookActive := true;
      savedH := cameraH;
      savedV := cameraV;
    }

    /** `endFreeLook`: the player turns to the horizontal camera angle. */
    method EndFreeLook()
      modifies this
      ensures !isFreeLookActive && rotation == old(cameraH)
      ensures State() == old(State()).(rotation := old(cameraH))
      ensures keys == old(keys) && cameraV == old(cameraV)
      ensures savedH == old(savedH) && savedV == old(savedV) && isMouseLocked == old(isMouseLocked)
      ensures currentInteraction == old(currentInteraction) && isInteracting == old(isInteracting)
    {
      isFreeLookActive := false;
      rotation := cameraH;
    }

    /** The `pointerlockchange` listener. */
    method SetMouseLocked(locked: bool)
      modifies this
      ensures isMouseLocked == locked
      ensures State() == old(State()) && keys == old(keys) && cameraV == old(cameraV)
      ensures isFreeLookActive == old(isFreeLookActive)
      ensures currentInteraction == old(currentInteraction) && isInteracting == old(isInteracting)
    {
      isMouseLocked := locked;
    }

    /** The `mousemove` listener: only while the pointer is locked. */
    method MouseMove(movementX: real, movementY: real)
      modifies this
      ensures !old(isMouseLocked) ==> State() == old(State()) && cameraV == old(cameraV)
      ensures old(isMouseLocked) ==>
        && cameraH == old(cameraH) - movementX * 0.002
        && cameraV == Clamp(old(cameraV) - movementY * 0.0005, -VerticalAngleLimit, VerticalAngleLimit)
        && rotation == (if old(isFreeLookActive) then old(rotation) else cameraH)
      ensures -VerticalAngleLimit <= old(cameraV) <= VerticalAngleLimit ==>
        -VerticalAngleLimit <= cameraV <= VerticalAngleLimit
      ensures position == old(position) && velocity == old(velocity) && isJumping == old(isJumping)
      ensures keys == old(keys) && isFreeLookActive == old(isFreeLookActive)
      ensures isMouseLocked == old(isMouseLocked)
      ensures currentInteraction == old(currentInteraction) && isInteracting == old(isInteracting)
    {
      if isMouseLocked {
        cameraH := cameraH - movementX * 0.002;
        cameraV := cameraV - movementY * 0.0005;
        cameraV := Max(-VerticalAngleLimit, Min(VerticalAngleLimit, cameraV));
        if !isFreeLookActive {
          rotation := cameraH;
        }
      }
    }

    /** The `mousedown` / `mouseup` listeners for the left button (button 0). */
    method MouseDown(button: int)
      modifies this
      ensures button == 0 && old(isMouseLocked) ==> isFreeLookActive && savedH == old(cameraH)
      ensures !(button == 0 && old(isMouseLocked)) ==> isFreeLookActive == old(isFreeLookActive)
      ensures State() == old(State()) && keys == old(keys) && cameraV == old(cameraV)
      ensures currentInteraction == old(currentInteraction) && isInteracting == old(isInteracting)
      ensures isMouseLocked == old(isMouseLocked)
    {
      if button == 0 && isMouseLocked {
        StartFreeLook();
      }
    }

    method MouseUp(button: int)
      modifies this
      ensures button == 0 && old(isFreeLookActive) ==> !isFreeLookActive && rotation == old(cameraH)
      ensures !(button == 0 && old(isFreeLookActive)) ==>
        isFreeLookActive == old(isFreeLookActive) && State() == old(State())
      ensures keys == old(keys) && cameraV == old(cameraV) && cameraH == old(cameraH)
      ensures position == old(position) && velocity == old(velocity) && isJumping == old(isJumping)
      ensures currentInteraction == old(currentInteraction) && isInteracting == old(isInteracting)
      ensures isMouseLocked == old(isMouseLocked)
    {
      if button == 0 && isFreeLookActive {
        EndFreeLook();
      }
    }

    /** `jump`. */
    method JumpUp()
      modifies this
      ensures State() == Jumped(old(State()))
      ensures keys == old(keys) && cameraV == old(cameraV) && isFreeLookActive == old(isFreeLookActive)
      ensures currentInteraction == old(currentInteraction) && isInteracting == old(isInteracting)
      ensures isMouseLocked == old(isMouseLocked)
    {
      if !isJumping {
        velocity := velocity.(y := JumpForce);
        isJumping := true;
      }
    }

    /** `interact`: emits `interact` with the current object, if there is one. */
    method Interact() returns (effects: seq<Effect>)
      modifies this
      ensures old(currentInteraction).None? ==> effects == [] && isInteracting == old(isInteracting)
      ensures old(currentInteraction).Some? ==>
        effects == [Emit(Effects.Interact(old(currentInteraction).value))] && isInteracting
      ensures State() == old(State()) && keys == old(keys) && cameraV == old(cameraV)
      ensures currentInteraction == old(currentInteraction)
      ensures isFreeLookActive == old(isFreeLookActive) && isMouseLocked == old(isMouseLocked)
    {
      effects := [];
      if currentInteraction.Some? {
        isInteracting := true;
        effects := [Emit(Effects.Interact(currentInteraction.value))];
      }
    }

    /** `handleKeyDown(key)` on the lower-cased key name. */
    method HandleKeyDown(key: string) returns (effects: seq<Effect>)
      modifies this
      ensures keys == Pressed(old(keys), key)
      ensures key in {"w", "s", "a", "d"} && old(isFreeLookActive) ==>
        !isFreeLookActive && State() == old(State()).(rotation := old(cameraH))
      ensures key == " " ==> State() == Jumped(old(State()))
      ensures key == "e" && old(currentInteraction).Some? ==>
        effects == [Emit(Effects.Interact(old(currentInteraction).value))] && isInteracting
      ensures key == "e" && old(currentInteraction).None? ==> effects == []
      ensures key == "m" ==> effects == [Emit(ToggleMap(keys.showMap))] && keys.showMap == !old(keys.showMap)
      ensures key != "e" && key != "m" ==> effects == []
      ensures key !in {"w", "s", "a", "d", " "} ==> State() == old(State())
      ensures !(key in {"w", "s", "a", "d"} && old(isFreeLookActive)) ==>
        isFreeLookActive == old(isFreeLookActive)
      ensures currentInteraction == old(currentInteraction) && cameraV == old(cameraV)
      ensures key != "e" ==> isInteracting == old(isInteracting)
      ensures isMouseLocked == old(isMouseLocked)
    {
      effects := [];
      if key == "w" {
        keys := keys.(backward := true);
        if isFreeLookActive { EndFreeLook(); }
      } else if key == "s" {
        keys := keys.(forward := true);
        if isFreeLookActive { EndFreeLook(); }
      } else if key == "a" {
        keys := keys.(left := true);
        if isFreeLookActive { EndFreeLook(); }
      } else if key == "d" {
        keys := keys.(right := true);
        if isFreeLookActive { EndFreeLook(); }
      } else if key == " " {
        keys := keys.(jump := true);
        if !isJumping { JumpUp(); }
      } else if key == "e" {
        keys := keys.(interact := true);
        effects := Interact();
      } else if key == "m" {
        keys := keys.(showMap := !keys.showMap);
        effects := [Emit(ToggleMap(keys.showMap))];
      } else if key == "shift" {
        keys := keys.(sprint := true);
      }
    }

    /** `handleKeyUp(key)` on the lower-cased key name. */
    method HandleKeyUp(key: string)
      modifies this
      ensures keys == Lifted(old(keys), key)
      ensures State() == old(State()) && cameraV == old(cameraV)
      ensures isFreeLookActive == old(isFreeLookActive) && isMouseLocked == old(isMouseLocked)
      ensures currentInteraction == old(currentInteraction) && isInteracting == old(isInteracting)
    {
      var k := keys;
      if key == "w" {
        k := k.(backward := false);
      } else if key == "s" {
        k := k.(forward := false);
      } else if key == "a" {
        k := k.(left := false);
      } else if key == "d" {
        k := k.(right := false);
      } else if key == " " {
        k := k.(jump := false);
      } else if key == "e" {
        k := k.(interact := false);
      } else if key == "shift" {
        k := k.(sprint := false);
      }
      keys := k;
    }

    /** The document's two `keydown` listeners in registration order: `handleKeyDown` on the
        lower-cased name, then the Escape toggle of the pause flag on the raw name. */
    method KeyDown(raw: string) returns (effects: seq<Effect>)
      modifies this
      ensures raw == "Escape" ==>
        keys == old(keys).(pause := !old(keys.pause))
        && effects == [Emit(if keys.pause then PauseGame else ResumeGame)]
        && State() == old(State())
      ensures raw != "Escape" ==> keys == Pressed(old(keys), Lower(raw))
      ensures Lower(raw) == "e" && old(currentInteraction).Some? ==>
        effects == [Emit(Effects.Interact(old(currentInteraction).value))] && isInteracting
      ensures Lower(raw) == "m" ==> effects == [Emit(ToggleMap(keys.showMap))] && keys.showMap == !old(keys.showMap)
      ensures raw != "Escape" && !(Lower(raw) == "e" && old(currentInteraction).Some?) && Lower(raw) != "m" ==>
        effects == []
      ensures Lower(raw) == " " ==> State() == Jumped(old(State()))
      ensures Lower(raw) !in {"w", "s", "a", "d", " "} ==> State() == old(State())
      ensures currentInteraction == old(currentInteraction)
    {
      effects := HandleKeyDown(Lower(raw));
      if raw == "Escape" {
        assert Lower(raw) == "escape";
        keys := keys.(pause := !keys.pause);
        if keys.pause {
          effects := effects + [Emit(PauseGame)];
        } else {
          effects := effects + [Emit(ResumeGame)];
        }
      }
    }

    /** The `keyup` listener. */
    method KeyUp(raw: string)
      modifies this
      ensures keys == Lifted(old(keys), Lower(raw))
      ensures State() == old(State()) && cameraV == old(cameraV)
      ensures currentInteraction == old(currentInteraction) && isInteracting == old(isInteracting)
    {
      HandleKeyUp(Lower(raw));
    }

    /** `checkInteractions(interactives)`: an empty list changes nothing; otherwise the current
        object becomes the last one within reach, or none. */
    method CheckInteractions(objs: seq<Entity>) returns (effects: seq<Effect>)
      modifies this
      ensures objs == [] ==> currentInteraction == old(currentInteraction) && effects == []
      ensures objs != [] ==> currentInteraction == LastInReach(position, objs)
      ensures objs != [] ==> effects == Hints(position, objs, isInteracting)
      ensures State() == old(State()) && keys == old(keys) && cameraV == old(cameraV)
      ensures isInteracting == old(isInteracting) && isFreeLookActive == old(isFreeLookActive)
      ensures isMouseLocked == old(isMouseLocked)
    {
      effects := [];
      if objs == [] {
        return;
      }
      currentInteraction := None;
      var i := 0;
      while i < |objs|
        invariant 0 <= i <= |objs|
        invariant currentInteraction == LastInReach(position, objs[..i])
        invariant effects == Hints(position, objs[..i], isInteracting)
        invariant State() == old(State()) && keys == old(keys) && cameraV == old(cameraV)
        invariant isInteracting == old(isInteracting) && isFreeLookActive == old(isFreeLookActive)
        invariant isMouseLocked == old(isMouseLocked)
      {
        assert objs[..i + 1][..i] == objs[..i];
        var obj := objs[i];
        if WithinStrict(position, obj.position, InteractionDistance) {
          currentInteraction := Some(obj);
          if !isInteracting {
            effects := effects + [Hint(obj)];
          }
        }
        i := i + 1;
      }
      assert objs[..i] == objs;
    }

    /** `update(deltaTime, colliders)`: move, then look for objects within reach. */
    method Update(deltaTime: real, sinR: real, cosR: real, objs: seq<Entity>) returns (effects: seq<Effect>)
      modifies this
      ensures State() == Moved(old(State()), old(keys), old(isFreeLookActive), deltaTime, sinR, cosR)
      ensures -Bounds <= position.x <= Bounds && -Bounds <= position.z <= Bounds
      ensures objs == [] ==> currentInteraction == old(currentInteraction) && effects == []
      ensures objs != [] ==> currentInteraction == LastInReach(position, objs)
      ensures objs != [] ==> effects == Hints(position, objs, isInteracting)
      ensures keys == old(keys) && cameraV == old(cameraV) && isInteracting == old(isInteracting)
      ensures isFreeLookActive == old(isFreeLookActive) && isMouseLocked == old(isMouseLocked)
    {
      var nd := Min(deltaTime, 3.0);
      Turn(nd);
      velocity := Accelerated(velocity, keys, sinR, cosR, nd);
      Fall(nd);
      Advance(nd);
      effects := CheckInteractions(objs);
    }

    /** The A/D part of `update`. */
    method Turn(nd: real)
      modifies this
      ensures State() == Turned(old(State()), keys, isFreeLookActive, nd)
      ensures keys == old(keys) && cameraV == old(cameraV) && isInteracting == old(isInteracting)
      ensures isFreeLookActive == old(isFreeLookActive) && isMouseLocked == old(isMouseLocked)
      ensures currentInteraction == old(currentInteraction)
    {
      if keys.left {
        rotation := rotation + RotationSpeed * nd;
        if !isFreeLookActive { cameraH := rotation; }
      }
      if keys.right {
        rotation := rotation - RotationSpeed * nd;
        if !isFreeLookActive { cameraH := rotation; }
      }
    }

    /** The gravity and landing part of `update`. */
    method Fall(nd: real)
      modifies this
      ensures State() == Fallen(old(State()), nd)
      ensures keys == old(keys) && cameraV == old(cameraV) && isInteracting == old(isInteracting)
      ensures isFreeLookActive == old(isFreeLookActive) && isMouseLocked == old(isMouseLocked)
      ensures currentInteraction == old(currentInteraction)
    {
      if isJumping {
        velocity := velocity.(y := velocity.y - Gravity * nd);
        if position.y <= 0.0 {
          position := position.(y := 0.0);
          velocity := velocity.(y := 0.0);
          isJumping := false;
        }
      }
    }

    /** The position update and world clamp of `update`. */
    method Advance(nd: real)
      modifies this
      ensures State() == Advanced(old(State()), nd)
      ensures keys == old(keys) && cameraV == old(cameraV) && isInteracting == old(isInteracting)
      ensures isFreeLookActive == old(isFreeLookActive) && isMouseLocked == old(isMouseLocked)
      ensures currentInteraction == old(currentInteraction)
    {
      position := position.Add(velocity.Scale(nd));
      position := Vec3(Clamp(position.x, -Bounds, Bounds), position.y, Clamp(position.z, -Bounds, Bounds));
    }

    /** `reset`: back to the start, standing, facing away from the camera. */
    method Reset()
      modifies this
      ensures State() == Motion(Origin, Origin, 0.0, 0.0, false) && cameraV == 0.0
      ensures keys == old(keys) && isFreeLookActive == old(isFreeLookActive)
      ensures currentInteraction == old(currentInteraction) && isInteracting == old(isInteracting)
      ensures isMouseLocked == old(isMouseLocked)
    {
      position := Origin;
      velocity := Origin;
      rotation := 0.0;
      isJumping := false;
      cameraH := 0.0;
      cameraV := 0.0;
    }
  }
}
