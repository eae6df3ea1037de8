/** The `Game` object (main.js) and what ties the subsystems together: the synchronous dispatch
    of an emitted event to the listeners of `Listeners.Wiring`, the deferred callbacks, the frame
    loop and the window listeners.

    A listener runs synchronously inside `emit`; the events a listener emits are dispatched
    before the next listener of the outer event runs. Dispatch terminates because every listener
    of an event of rank k (`Effects.Rank`) emits only events of rank below k. */
module Game {
  import opened Common
  import opened Utils
  import opened Effects
  import opened EventBus
  import opened Timers
  import W = World
  import P = Player
  import N = NPCs
  import M = MiniGames
  import Q = Quests
  import U = UI
  import opened Listeners

  // ---------------------------------------------------------------------------------------------
  // The state the listeners and deferred callbacks act on

  /** Everything an emitted event can change: the world's transformation scalars, obstacles,
      walkers and interactive objects, the quest log, the mini-game overlay, the characters, the
      countdown, the game's own flags, the notifications shown so far, and the timer queue. */
  datatype GameState = GameState(
    scene: W.Look, colliders: seq<W.Collider>, walkers: seq<W.Walker>, objects: seq<Entity>,
    log: Q.Log, overlay: M.Overlay, chars: seq<N.Npc>, countdown: U.Countdown,
    running: bool, paused: bool, lastTime: real, shown: seq<Notice>, now: int, timers: seq<Timer>)

  /** What the listeners rely on: a well-typed roster and a consistent overlay. */
  ghost predicate Ready(s: GameState)
  {
    N.WellTyped(s.chars) && M.Valid(s.overlay)
  }

  /** What no listener changes. */
  predicate Kept(s: GameState, r: GameState)
  {
    && r.colliders == s.colliders && r.walkers == s.walkers && r.chars == s.chars
    && r.countdown == s.countdown && r.running == s.running && r.now == s.now
  }

  /** `interactiveObjects.indexOf(x)`: the first position holding `x`. */
  function IndexOf(objs: seq<Entity>, x: Entity): (r: Option<nat>)
    ensures r.None? <==> x !in objs
    ensures r.Some? ==> r.value < |objs| && objs[r.value] == x && x !in objs[..r.value]
    decreases |objs|
  {
    if objs == [] then None
    else if objs[0] == x then Some(0)
    else
      var rest := IndexOf(objs[1..], x);
      if rest.Some? then
        assert objs[..rest.value + 1] == [objs[0]] + objs[1..][..rest.value];
        Some(rest.value + 1)
      else None
  }

  /** The `splice(index, 1)` after `indexOf`: the first occurrence of `x` goes, everything else
      stays in order; without an occurrence nothing changes. */
  function WithoutFirst(objs: seq<Entity>, x: Entity): (r: seq<Entity>)
    ensures x !in objs ==> r == objs
    ensures x in objs ==> |r| == |objs| - 1 && multiset(r) == multiset(objs) - multiset{x}
  {
    match IndexOf(objs, x)
    case None => objs
    case Some(i) =>
      assert objs == objs[..i] + [x] + objs[i + 1..];
      objs[..i] + objs[i + 1..]
  }

  /** Everything before the removed object keeps its position, everything after moves up one. */
  lemma WithoutFirstKeepsOrder(objs: seq<Entity>, x: Entity, j: nat)
    requires x in objs && j < |objs| - 1
    ensures var i := IndexOf(objs, x).value;
      WithoutFirst(objs, x)[j] == if j < i then objs[j] else objs[j + 1]
  {
  }

  /** An objective loop of the quest log, as a listener's result. */
  function Objectives(s: GameState, t: Q.Trigger): (r: (GameState, seq<Effect>))
    ensures r.0 == s.(log := Q.Pass(s.log, s.log.order, t).log)
    ensures Q.CompletionsOnly(r.1) && EmitsBelow(r.1, 2)
  {
    var p := Q.Pass(s.log, s.log.order, t);
    Q.PassEmitsCompletions(s.log, s.log.order, t);
    (s.(log := p.log), p.effects)
  }

  /** What listener `h` does when called for event `e`: the new state and the effects it leaves
      to run after it, in order. A listener only ever emits events of lower rank than the one it
      handles. `draw` is the `Math.random()` that picks an NPC's line. A listener handed an event
      of another shape than it expects (no event of the game is such) does nothing. */
  function Handle(s: GameState, h: Handler, e: Event, draw: real): (r: (GameState, seq<Effect>))
    requires Ready(s) && N.Draw(draw)
    ensures Ready(r.0) && Kept(s, r.0)
    ensures EmitsBelow(r.1, Rank(e))
  {
    match h
    case StartStages => (s, W.StartTransformation())
    case StageListener(i) =>
      (s.(scene := W.Lit(s.scene, W.StageValue(i))), W.StageEffects(W.StageValue(i)))
    case NpcTalk =>
      if e.Interact? then (s, N.Interacted(s.chars, e.target, draw)) else (s, [])
    case MiniGameStart =>
      if e.Interact? then
        var m := M.Interacted(s.overlay, e.target);
        (s.(overlay := m.0), m.1)
      else (s, [])
    case MiniGameQuestNote => (s, [])
    case CompletedBanner =>
      if e.QuestCompleted? then
        (s, [Notify(Notice("Quest Completed", "You have completed: " + e.title, 5000))])
      else (s, [])
    case NewQuestBanner => (s, [])
    case FinalStage => (s.(scene := W.Lit(s.scene, 1.0)), W.StageEffects(1.0))
    case DialogueCheck =>
      if e.NpcDialogue? then Objectives(s, Q.TalkedTo(e.npcType)) else (s, [])
    case MiniGameCheck =>
      if e.MiniGameCompleted? then Objectives(s, Q.Played(e.gameType)) else (s, [])
    case ItemCheck =>
      if e.ItemCollected? then Objectives(s, Q.Collected(e.itemType)) else (s, [])
    case PauseListener => (s.(paused := true), [])
    case ResumeListener => (s.(paused := false, lastTime := s.now as real), [])
    case CollectibleListener =>
      if e.Interact? && e.target.kind.Collectible? then
        (s.(objects := WithoutFirst(s.objects, e.target)),
         [Notify(Notice("Item Collected", "You found a " + e.target.name + "!", 3000)),
          Emit(ItemCollected(e.target.kind.itemType))])
      else (s, [])
  }

  lemma EmitsBelowTail(effects: seq<Effect>, k: nat)
    requires effects != [] && EmitsBelow(effects, k)
    ensures EmitsBelow(effects[1..], k)
  {
    forall i | 0 <= i < |effects[1..]| && effects[1..][i].Emit?
      ensures Rank(effects[1..][i].event) < k
    {
      assert effects[1..][i] == effects[i + 1];
    }
  }

  /** Runs the effects first to last: a notification is shown, a callback is queued behind the
      pending ones, an event is dispatched to completion before the next effect. */
  function Perform(s: GameState, effects: seq<Effect>, k: nat, draw: real): (r: GameState)
    requires Ready(s) && N.Draw(draw) && EmitsBelow(effects, k)
    ensures Ready(r) && Kept(s, r)
    decreases k, 0, |effects|
  {
    if effects == [] then s
    else
      var s1 :=
        match effects[0]
        case Notify(n) => s.(shown := s.shown + [n])
        case Schedule(d, t) => s.(timers := s.timers + [Timer(s.now + d, t)])
        case Emit(e) => Deliver(s, e, draw);
      EmitsBelowTail(effects, k);
      Perform(s1, effects[1..], k, draw)
  }

  /** `emit(e)`: every listener registered for the event's name, in order. */
  function Deliver(s: GameState, e: Event, draw: real): (r: GameState)
    requires Ready(s) && N.Draw(draw)
    ensures Ready(r) && Kept(s, r)
    decreases Rank(e), 2, 0
  {
    Call(s, ListenersOf(Wiring, Name(e)), e, draw)
  }

  /** The listeners `hs` one after the other, each with everything it emits run before the next. */
  function Call(s: GameState, hs: seq<Handler>, e: Event, draw: real): (r: GameState)
    requires Ready(s) && N.Draw(draw)
    ensures Ready(r) && Kept(s, r)
    decreases Rank(e), 1, |hs|
  {
    if hs == [] then s
    else
      var h := Handle(s, hs[0], e, draw);
      Call(Perform(h.0, h.1, Rank(e), draw), hs[1..], e, draw)
  }

  /** A deferred callback when its time comes; `rx` and `rz` are the draws a quest marker may
      need. A cleared countdown interval no longer fires. */
  function Ran(s: GameState, task: Task, draw: real, rx: real, rz: real): (r: GameState)
    requires Ready(s) && N.Draw(draw) && 0.0 <= rx < 1.0 && 0.0 <= rz < 1.0
    ensures Ready(r) && r.chars == s.chars
  {
    match task
    case EmitLater(e) => Deliver(s, e, draw)
    case StartQuestLater(id) => Questing(s, id, rx, rz, draw)
    case FinishCloseGame =>
      var c := M.Closed(s.overlay);
      Perform(s.(overlay := c.0), c.1, 4, draw)
    case CountdownTick =>
      if s.countdown.running then
        var n := U.NextSecond(s.countdown);
        Perform(s.(countdown := n.state), n.effects, 4, draw)
      else s
    case NoticeLater(n) => s.(shown := s.shown + [n])
  }

  /** The message `init` shows 1.5 s after start. */
  const Welcome := Notice("Welcome to Solana Ascension",
    "Explore the city, complete quests, and prepare for the ultimate transformation when Solana reaches $1000!",
    10000)

  // ---------------------------------------------------------------------------------------------
  // What the events do

  /** The locations-only effects of a quest pass change nothing but the notifications and the
      timer queue: a `questCompleted` reaches only the UI banner. */
  lemma {:induction false} QuietPerform(s: GameState, effects: seq<Effect>, k: nat, draw: real)
    requires Ready(s) && N.Draw(draw) && EmitsBelow(effects, k) && Q.CompletionsOnly(effects)
    ensures var r := Perform(s, effects, k, draw);
      r == s.(shown := r.shown, timers := r.timers) && s.shown <= r.shown
    decreases |effects|
  {
    if effects != [] {
      EmitsBelowTail(effects, k);
      assert Q.CompletionsOnly(effects[1..]) by {
        forall i | 0 <= i < |effects[1..]| && effects[1..][i].Emit?
          ensures effects[1..][i].event.QuestCompleted?
        {
          assert effects[1..][i] == effects[i + 1];
        }
      }
      var s1 :=
        match effects[0]
        case Notify(n) => s.(shown := s.shown + [n])
        case Schedule(d, t) => s.(timers := s.timers + [Timer(s.now + d, t)])
        case Emit(e) => Deliver(s, e, draw);
      if effects[0].Emit? {
        var e := effects[0].event;
        Banner(s, e.questId, e.title, draw);
      }
      QuietPerform(s1, effects[1..], k, draw);
    }
  }

  /** `questCompleted` shows the UI's banner and does nothing else. */
  lemma Banner(s: GameState, id: string, title: string, draw: real)
    requires Ready(s) && N.Draw(draw)
    ensures Deliver(s, QuestCompleted(id, title), draw)
      == s.(shown := s.shown + [Notice("Quest Completed", "You have completed: " + title, 5000)])
  {
    CompletedListeners(id, title);
    var e := QuestCompleted(id, title);
    var n := Notice("Quest Completed", "You have completed: " + title, 5000);
    assert Handle(s, CompletedBanner, e, draw) == (s, [Notify(n)]);
    assert Perform(s, [Notify(n)], 1, draw) == s.(shown := s.shown + [n]) by {
      assert [Notify(n)][1..] == [];
    }
    assert Call(s, [CompletedBanner], e, draw) == Perform(s, [Notify(n)], 1, draw) by {
      assert [CompletedBanner][1..] == [];
    }
  }

  /** Completing a quest shows its notice twice: once from `completeQuest`, once from the UI's
      `questCompleted` listener. */
  lemma CompletionShownTwice(s: GameState, id: string, title: string, draw: real, k: nat)
    requires Ready(s) && N.Draw(draw) && k >= 2
    ensures var n := Notice("Quest Completed", "You have completed: " + title, 5000);
      Perform(s, [Notify(n), Emit(QuestCompleted(id, title))], k, draw).shown == s.shown + [n, n]
  {
    var n := Notice("Quest Completed", "You have completed: " + title, 5000);
    var em := Emit(QuestCompleted(id, title));
    var s1 := s.(shown := s.shown + [n]);
    Banner(s1, id, title, draw);
    var s2 := Deliver(s1, QuestCompleted(id, title), draw);
    assert Perform(s1, [em], k, draw) == s2 by {
      assert [em][1..] == [];
    }
    assert Perform(s, [Notify(n), em], k, draw) == Perform(s1, [em], k, draw) by {
      assert [Notify(n), em][1..] == [em];
    }
  }

  /** `pauseGame` sets the pause flag; `resumeGame` clears it and restarts the frame clock. */
  lemma PauseResume(s: GameState, draw: real)
    requires Ready(s) && N.Draw(draw)
    ensures Deliver(s, PauseGame, draw) == s.(paused := true)
    ensures Deliver(s, ResumeGame, draw) == s.(paused := false, lastTime := s.now as real)
  {
    PauseListeners();
    assert Call(s, [PauseListener], PauseGame, draw) == Call(s.(paused := true), [], PauseGame, draw);
    var r := s.(paused := false, lastTime := s.now as real);
    assert Call(s, [ResumeListener], ResumeGame, draw) == Call(r, [], ResumeGame, draw);
  }

  /** The five timers `startTransformation` queues at time `now`. */
  function StageTimers(now: int): (t: seq<Timer>)
    ensures |t| == 5
    ensures forall i :: 0 <= i < 5 ==> t[i] == Timer(now + 2000 + 3000 * i, EmitLater(TransformationStage(i + 1)))
  {
    [Timer(now + 2000, EmitLater(TransformationStage(1))), Timer(now + 5000, EmitLater(TransformationStage(2))),
     Timer(now + 8000, EmitLater(TransformationStage(3))), Timer(now + 11000, EmitLater(TransformationStage(4))),
     Timer(now + 14000, EmitLater(TransformationStage(5)))]
  }

  lemma StagesQueued(s: GameState, draw: real)
    requires Ready(s) && N.Draw(draw)
    ensures EmitsBelow(W.StartTransformation(), 0)
    ensures Perform(s, W.StartTransformation(), 0, draw) == s.(timers := s.timers + StageTimers(s.now))
  {
    var eff := W.StartTransformation();
    var t := StageTimers(s.now);
    assert s.(timers := s.timers + t[..0]) == s && eff[0..] == eff;
    QueuedTimers(s, eff, t, 0, draw);
  }

  /** The UI's `ascension` listener on its own: stage 1.0 and its notice. */
  lemma FinalStageCall(a: GameState, draw: real)
    requires Ready(a) && N.Draw(draw)
    ensures Call(a, [FinalStage], Ascension, draw) ==
      a.(scene := W.Lit(a.scene, 1.0), shown := a.shown + [W.StageNotice(1.0).value])
  {
    var n := W.StageNotice(1.0).value;
    var a1 := a.(scene := W.Lit(a.scene, 1.0));
    assert Handle(a, FinalStage, Ascension, draw) == (a1, [Notify(n)]);
    assert Perform(a1, [Notify(n)], 0, draw) == a1.(shown := a.shown + [n]) by {
      assert [Notify(n)][1..] == [];
    }
    assert [FinalStage][1..] == [];
  }

  /** `ascension`: the world's listener queues the five stage emits at 2, 5, 8, 11 and 14 s, then
      the UI's listener jumps the world to stage 1.0 and announces stage 5. */
  lemma AscensionDelivered(s: GameState, draw: real)
    requires Ready(s) && N.Draw(draw)
    ensures Deliver(s, Ascension, draw) ==
      s.(scene := W.Lit(s.scene, 1.0), timers := s.timers + StageTimers(s.now),
         shown := s.shown + [W.StageNotice(1.0).value])
  {
    AscensionListeners();
    var hs := [StartStages, FinalStage];
    assert Handle(s, StartStages, Ascension, draw) == (s, W.StartTransformation());
    FirstListener(s, hs, Ascension, draw);
    StagesQueued(s, draw);
    var a := s.(timers := s.timers + StageTimers(s.now));
    assert hs[1..] == [FinalStage];
    FinalStageCall(a, draw);
  }

  /** `transformationStage{i}` sets the world to stage i / 5 and announces stage i. */
  lemma StageDelivered(s: GameState, i: nat, draw: real)
    requires Ready(s) && N.Draw(draw) && 1 <= i <= 5
    ensures Deliver(s, TransformationStage(i), draw) ==
      s.(scene := W.Lit(s.scene, i as real * 0.2), shown := s.shown + [W.StageNotice(i as real * 0.2).value])
  {
    StageListeners(i);
    var e := TransformationStage(i);
    var n := W.StageNotice(W.StageValue(i)).value;
    var a1 := s.(scene := W.Lit(s.scene, W.StageValue(i)));
    assert Handle(s, StageListener(i), e, draw) == (a1, [Notify(n)]);
    assert Perform(a1, [Notify(n)], 0, draw) == a1.(shown := s.shown + [n]) by {
      assert [Notify(n)][1..] == [];
    }
    assert [StageListener(i)][1..] == [];
  }

  /** The observed transformation: `ascension` jumps to 1.0, then the five deferred stage events
      set 0.2, 0.4, 0.6, 0.8 and 1.0, so the stage first drops and then climbs back. */
  lemma TransformationSequence(s: GameState, draw: real)
    requires Ready(s) && N.Draw(draw)
    ensures var s1 := Deliver(s, Ascension, draw);
      var s2 := Deliver(s1, TransformationStage(1), draw);
      var s3 := Deliver(s2, TransformationStage(2), draw);
      var s4 := Deliver(s3, TransformationStage(3), draw);
      var s5 := Deliver(s4, TransformationStage(4), draw);
      var s6 := Deliver(s5, TransformationStage(5), draw);
      [s1.scene.state, s2.scene.state, s3.scene.state, s4.scene.state, s5.scene.state, s6.scene.state]
        == [1.0, 0.2, 0.4, 0.6, 0.8, 1.0]
      && s6.scene == s1.scene
  {
    AscensionDelivered(s, draw);
    var s1 := Deliver(s, Ascension, draw);
    StageDelivered(s1, 1, draw);
    var s2 := Deliver(s1, TransformationStage(1), draw);
    StageDelivered(s2, 2, draw);
    var s3 := Deliver(s2, TransformationStage(2), draw);
    StageDelivered(s3, 3, draw);
    var s4 := Deliver(s3, TransformationStage(3), draw);
    StageDelivered(s4, 4, draw);
    var s5 := Deliver(s4, TransformationStage(4), draw);
    StageDelivered(s5, 5, draw);
    W.LitLastWins(s.scene, 1.0, 0.2);
    W.LitLastWins(s.scene, 0.2, 0.4);
    W.LitLastWins(s.scene, 0.4, 0.6);
    W.LitLastWins(s.scene, 0.6, 0.8);
    W.LitLastWins(s.scene, 0.8, 1.0);
  }

  // Single steps of the dispatch, so that each scenario below unfolds one call at a time.

  /** A listener that does nothing for the event is skipped. */
  lemma SkipListener(s: GameState, hs: seq<Handler>, e: Event, draw: real)
    requires Ready(s) && N.Draw(draw) && hs != [] && Handle(s, hs[0], e, draw) == (s, [])
    ensures Call(s, hs, e, draw) == Call(s, hs[1..], e, draw)
  {
    assert Perform(s, [], Rank(e), draw) == s;
  }

  /** The last listener of an event: what it does, then its effects. */
  lemma LastListener(s: GameState, h: Handler, e: Event, draw: real)
    requires Ready(s) && N.Draw(draw)
    ensures var x := Handle(s, h, e, draw);
      Call(s, [h], e, draw) == Perform(x.0, x.1, Rank(e), draw)
  {
    var x := Handle(s, h, e, draw);
    assert Call(Perform(x.0, x.1, Rank(e), draw), [], e, draw) == Perform(x.0, x.1, Rank(e), draw);
    assert [h][1..] == [];
  }

  /** `Deliver` runs the listeners `Wiring` holds for the event's name. */
  lemma DeliverCalls(s: GameState, e: Event, hs: seq<Handler>, draw: real)
    requires Ready(s) && N.Draw(draw) && hs == ListenersOf(Wiring, Name(e))
    ensures Deliver(s, e, draw) == Call(s, hs, e, draw)
  {
  }

  /** The first listener of an event, with everything it emits, before the rest. */
  lemma FirstListener(s: GameState, hs: seq<Handler>, e: Event, draw: real)
    requires Ready(s) && N.Draw(draw) && hs != []
    ensures var x := Handle(s, hs[0], e, draw);
      Call(s, hs, e, draw) == Call(Perform(x.0, x.1, Rank(e), draw), hs[1..], e, draw)
  {
  }

  /** What the character listener returns for an `interact`. */
  lemma NpcTalkHandled(s: GameState, c: Entity, draw: real)
    requires Ready(s) && N.Draw(draw)
    ensures Handle(s, NpcTalk, Interact(c), draw) == (s, N.Interacted(s.chars, c, draw))
  {
  }

  /** What the mini-game listener returns for an `interact`. */
  lemma MiniGameHandled(s: GameState, c: Entity, draw: real)
    requires Ready(s) && N.Draw(draw)
    ensures var m := M.Interacted(s.overlay, c);
      Handle(s, MiniGameStart, Interact(c), draw) == (s.(overlay := m.0), m.1)
  {
  }

  /** The collectible listener ignores any other object. */
  lemma CollectibleIgnored(s: GameState, c: Entity, draw: real)
    requires Ready(s) && N.Draw(draw) && !c.kind.Collectible?
    ensures Handle(s, CollectibleListener, Interact(c), draw) == (s, [])
  {
  }

  /** What the collectible listener returns for a collectible. */
  lemma CollectibleHandled(s: GameState, c: Entity, draw: real)
    requires Ready(s) && N.Draw(draw) && c.kind.Collectible?
    ensures Handle(s, CollectibleListener, Interact(c), draw) ==
      (s.(objects := WithoutFirst(s.objects, c)),
       [Notify(Notice("Item Collected", "You found a " + c.name + "!", 3000))] + [Emit(ItemCollected(c.kind.itemType))])
  {
    assert [Notify(Notice("Item Collected", "You found a " + c.name + "!", 3000))] + [Emit(ItemCollected(c.kind.itemType))]
      == [Notify(Notice("Item Collected", "You found a " + c.name + "!", 3000)), Emit(ItemCollected(c.kind.itemType))];
  }

  /** A first effect that notifies. */
  lemma NotifyFirst(s: GameState, n: Notice, rest: seq<Effect>, k: nat, draw: real)
    requires Ready(s) && N.Draw(draw) && EmitsBelow([Notify(n)] + rest, k)
    ensures EmitsBelow(rest, k)
    ensures Perform(s, [Notify(n)] + rest, k, draw) == Perform(s.(shown := s.shown + [n]), rest, k, draw)
  {
    EmitsBelowTail([Notify(n)] + rest, k);
    assert ([Notify(n)] + rest)[1..] == rest;
  }

  /** A single effect that emits. */
  lemma EmitOnly(s: GameState, e: Event, k: nat, draw: real)
    requires Ready(s) && N.Draw(draw) && Rank(e) < k
    ensures EmitsBelow([Emit(e)], k)
    ensures Perform(s, [Emit(e)], k, draw) == Deliver(s, e, draw)
  {
    var d := Deliver(s, e, draw);
    assert Perform(d, [], k, draw) == d;
    assert [Emit(e)][1..] == [];
  }

  /** An event whose listener runs only an objective loop changes the quest log as the loop does,
      adds notifications, may queue the next quest, and changes nothing else. */
  lemma ObjectiveDelivered(s: GameState, e: Event, t: Q.Trigger, draw: real)
    requires Ready(s) && N.Draw(draw)
    requires (e.NpcDialogue? && t == Q.TalkedTo(e.npcType)) || (e.MiniGameCompleted? && t == Q.Played(e.gameType))
      || (e.ItemCollected? && t == Q.Collected(e.itemType))
    ensures var r := Deliver(s, e, draw);
      r == s.(log := Q.Pass(s.log, s.log.order, t).log, shown := r.shown, timers := r.timers)
      && s.shown <= r.shown
  {
    ObjectiveListeners(e);
    var h := if e.NpcDialogue? then DialogueCheck else if e.MiniGameCompleted? then MiniGameCheck else ItemCheck;
    assert ListenersOf(Wiring, Name(e)) == [h];
    var o := Objectives(s, t);
    assert Handle(s, h, e, draw) == o;
    LastListener(s, h, e, draw);
    QuietPerform(o.0, o.1, Rank(e), draw);
  }

  /** A notice and then an event: the event is delivered with the notice already shown. */
  lemma NotifyThenEmit(s: GameState, n: Notice, e: Event, k: nat, draw: real)
    requires Ready(s) && N.Draw(draw) && Rank(e) < k
    ensures Perform(s, [Notify(n)] + [Emit(e)], k, draw) == Deliver(s.(shown := s.shown + [n]), e, draw)
  {
    var effects := [Notify(n)] + [Emit(e)];
    assert effects == [Notify(n), Emit(e)];
    assert EmitsBelow(effects, k);
    NotifyFirst(s, n, [Emit(e)], k, draw);
    EmitOnly(s.(shown := s.shown + [n]), e, k, draw);
  }

  /** The collectible listener's own work for a collectible `c`. */
  lemma CollectibleCall(s: GameState, c: Entity, draw: real)
    requires Ready(s) && N.Draw(draw) && c.kind.Collectible?
    ensures var n := Notice("Item Collected", "You found a " + c.name + "!", 3000);
      var s1 := s.(objects := WithoutFirst(s.objects, c));
      Call(s, [CollectibleListener], Interact(c), draw) == Deliver(s1.(shown := s1.shown + [n]), ItemCollected(c.kind.itemType), draw)
  {
    var n := Notice("Item Collected", "You found a " + c.name + "!", 3000);
    var s1 := s.(objects := WithoutFirst(s.objects, c));
    CollectibleHandled(s, c, draw);
    LastListener(s, CollectibleListener, Interact(c), draw);
    NotifyThenEmit(s1, n, ItemCollected(c.kind.itemType), 3, draw);
  }

  /** Picking up a collectible: it leaves the interactive objects, the pick-up notice is the next
      one shown, and the item counts for the quests; the overlay, the pause flag and the scene
      stay as they were. */
  lemma CollectDelivered(s: GameState, c: Entity, draw: real)
    requires Ready(s) && N.Draw(draw) && c.kind.Collectible?
    ensures var r := Deliver(s, Interact(c), draw);
      && r.objects == WithoutFirst(s.objects, c)
      && r.log == Q.Pass(s.log, s.log.order, Q.Collected(c.kind.itemType)).log
      && s.shown + [Notice("Item Collected", "You found a " + c.name + "!", 3000)] <= r.shown
      && r == s.(objects := r.objects, log := r.log, shown := r.shown, timers := r.timers)
  {
    InteractListeners(c);
    var e := Interact(c);
    var hs := [NpcTalk, MiniGameStart, CollectibleListener];
    assert Handle(s, NpcTalk, e, draw) == (s, []);
    SkipListener(s, hs, e, draw);
    assert hs[1..] == [MiniGameStart, CollectibleListener];
    assert Handle(s, MiniGameStart, e, draw) == (s, []);
    SkipListener(s, hs[1..], e, draw);
    assert hs[1..][1..] == [CollectibleListener];
    CollectibleCall(s, c, draw);
    var n := Notice("Item Collected", "You found a " + c.name + "!", 3000);
    var s1 := s.(objects := WithoutFirst(s.objects, c));
    ObjectiveDelivered(s1.(shown := s1.shown + [n]), ItemCollected(c.kind.itemType), Q.Collected(c.kind.itemType), draw);
  }

  /** The character listener's own work for the `k`th character. */
  lemma TalkCall(s: GameState, k: nat, draw: real)
    requires Ready(s) && N.Draw(draw) && k < |s.chars|
    ensures var c := N.AsEntity(s.chars[k]);
      var effects := N.Interacted(s.chars, c, draw);
      effects == [Emit(NpcDialogue(s.chars[k].npcType, effects[0].event.line))]
      && Perform(s, effects, 3, draw) == Deliver(s, effects[0].event, draw)
  {
    var c := N.AsEntity(s.chars[k]);
    N.TalkToCharacter(s.chars, k, draw);
    var effects := N.Interacted(s.chars, c, draw);
    EmitOnly(s, effects[0].event, 3, draw);
  }

  /** Talking to a character: its type counts for the dialogue quests; nothing else changes but
      the notifications and the timer queue. */
  lemma TalkDelivered(s: GameState, k: nat, draw: real)
    requires Ready(s) && N.Draw(draw) && k < |s.chars|
    ensures var r := Deliver(s, Interact(N.AsEntity(s.chars[k])), draw);
      r == s.(log := Q.Pass(s.log, s.log.order, Q.TalkedTo(s.chars[k].npcType)).log,
              shown := r.shown, timers := r.timers)
  {
    var c := N.AsEntity(s.chars[k]);
    InteractListeners(c);
    var e := Interact(c);
    var hs := [NpcTalk, MiniGameStart, CollectibleListener];
    TalkCall(s, k, draw);
    var effects := N.Interacted(s.chars, c, draw);
    var d := effects[0].event;
    ObjectiveDelivered(s, d, Q.TalkedTo(s.chars[k].npcType), draw);
    var s1 := Deliver(s, d, draw);
    NpcTalkHandled(s, c, draw);
    FirstListener(s, hs, e, draw);
    assert hs[1..] == [MiniGameStart, CollectibleListener];
    MiniGameHandled(s1, c, draw);
    SkipListener(s1, hs[1..], e, draw);
    assert hs[1..][1..] == [CollectibleListener];
    CollectibleIgnored(s1, c, draw);
    SkipListener(s1, [CollectibleListener], e, draw);
  }

  /** Interacting with a mini-game's object opens that game and, through `pauseGame`, pauses the
      frame loop; nothing else changes. */
  lemma SiteDelivered(s: GameState, uid: nat, gameType: string, position: Vec3, draw: real)
    requires Ready(s) && N.Draw(draw) && gameType in M.Games
    ensures var r := Deliver(s, Interact(M.MiniGameObject(uid, gameType, position)), draw);
      r == s.(overlay := M.Started(s.overlay, gameType).0, paused := true)
      && r.overlay.activeGame == Some(gameType) && r.overlay.open
  {
    var c := M.MiniGameObject(uid, gameType, position);
    InteractListeners(c);
    var e := Interact(c);
    var hs := [NpcTalk, MiniGameStart, CollectibleListener];
    NpcTalkHandled(s, c, draw);
    SkipListener(s, hs, e, draw);
    assert hs[1..] == [MiniGameStart, CollectibleListener];
    var s1 := s.(overlay := M.Started(s.overlay, gameType).0);
    MiniGameHandled(s, c, draw);
    EmitOnly(s1, PauseGame, 3, draw);
    PauseResume(s1, draw);
    var s2 := s1.(paused := true);
    FirstListener(s, hs[1..], e, draw);
    assert hs[1..][1..] == [CollectibleListener];
    CollectibleIgnored(s2, c, draw);
    SkipListener(s2, [CollectibleListener], e, draw);
  }

  /** Running the remaining stage schedules from position `j` on appends their timers. */
  lemma {:induction false} QueuedTimers(s: GameState, eff: seq<Effect>, t: seq<Timer>, j: nat, draw: real)
    requires Ready(s) && N.Draw(draw) && |eff| == |t| && j <= |eff|
    requires forall i :: 0 <= i < |eff| ==> eff[i].Schedule? && t[i] == Timer(s.now + eff[i].delayMs, eff[i].task)
    ensures EmitsBelow(eff[j..], 0)
    ensures Perform(s.(timers := s.timers + t[..j]), eff[j..], 0, draw) == s.(timers := s.timers + t)
    decreases |eff| - j
  {
    assert EmitsBelow(eff[j..], 0) by {
      forall i | 0 <= i < |eff[j..]|
        ensures !eff[j..][i].Emit?
      {
        assert eff[j..][i] == eff[j + i];
      }
    }
    var p := s.(timers := s.timers + t[..j]);
    if j == |eff| {
      assert t[..j] == t;
      assert eff[j..] == [];
    } else {
      QueuedTimers(s, eff, t, j + 1, draw);
      var q := s.(timers := s.timers + t[..j + 1]);
      assert eff[j..][0] == eff[j];
      assert eff[j..][1..] == eff[j + 1..];
      assert s.timers + t[..j + 1] == s.timers + t[..j] + [t[j]];
      assert q == p.(timers := p.timers + [Timer(p.now + eff[j].delayMs, eff[j].task)]);
      assert Perform(p, eff[j..], 0, draw) == Perform(q, eff[j + 1..], 0, draw);
    }
  }

  // ---------------------------------------------------------------------------------------------
  // Helpers of the object below

  /** Running a queue of effects, one effect at a time. */
  lemma PerformHead(s: GameState, effects: seq<Effect>, k: nat, draw: real)
    requires Ready(s) && N.Draw(draw) && effects != [] && EmitsBelow(effects, k)
    ensures EmitsBelow(effects[1..], k)
    ensures effects[0].Emit? ==> Rank(effects[0].event) < k
    ensures effects[0].Notify? ==>
      Perform(s, effects, k, draw) == Perform(s.(shown := s.shown + [effects[0].notice]), effects[1..], k, draw)
    ensures effects[0].Schedule? ==>
      Perform(s, effects, k, draw) ==
      Perform(s.(timers := s.timers + [Timer(s.now + effects[0].delayMs, effects[0].task)]), effects[1..], k, draw)
    ensures effects[0].Emit? ==>
      Perform(s, effects, k, draw) == Perform(Deliver(s, effects[0].event, draw), effects[1..], k, draw)
  {
    EmitsBelowTail(effects, k);
    match effects[0] {
      case Notify(n) =>
        assert Perform(s, effects, k, draw) == Perform(s.(shown := s.shown + [n]), effects[1..], k, draw);
      case Schedule(d, t) =>
        assert Perform(s, effects, k, draw) == Perform(s.(timers := s.timers + [Timer(s.now + d, t)]), effects[1..], k, draw);
      case Emit(e) =>
        assert Perform(s, effects, k, draw) == Perform(Deliver(s, e, draw), effects[1..], k, draw);
    }
  }

  /** Effects that emit nothing contain no event but completions (vacuously). */
  lemma {:induction false} Silent(effects: seq<Effect>)
    requires Emitted(effects) == []
    ensures Q.CompletionsOnly(effects)
    decreases |effects|
  {
    if effects != [] {
      var n := |effects| - 1;
      var init := effects[..n];
      assert !effects[n].Emit? && Emitted(init) == [];
      Silent(init);
      assert forall i :: 0 <= i < n ==> effects[i] == init[i];
    }
  }

  /** Effects that emit nothing only show notifications and queue callbacks. */
  lemma HintsShown(s: GameState, effects: seq<Effect>, draw: real)
    requires Ready(s) && N.Draw(draw) && Emitted(effects) == []
    ensures EmitsBelow(effects, 2)
    ensures var r := Perform(s, effects, 2, draw); r == s.(shown := r.shown, timers := r.timers) && s.shown <= r.shown
  {
    Silent(effects);
    QuietPerform(s, effects, 2, draw);
  }

  /** The quest marker as `getColliders` hands it to the player: an unnamed mesh. */
  function MarkerEntity(m: Q.Marker): (e: Entity)
    ensures e.position == m.position && e.kind == QuestMarker(m.quest)
  {
    Entity(0, "", m.position, QuestMarker(m.quest))
  }

  function MarkerEntities(ms: seq<Q.Marker>): (es: seq<Entity>)
    ensures |es| == |ms|
    ensures forall i :: 0 <= i < |ms| ==> es[i] == MarkerEntity(ms[i])
  {
    seq(|ms|, i requires 0 <= i < |ms| => MarkerEntity(ms[i]))
  }

  /** `Math.min((currentTime - lastTime) / 16.667, 3)`. */
  function FrameDelta(last: real, current: real): (d: real)
    ensures d <= 3.0
    ensures (current - last) / 16.667 <= 3.0 ==> d == (current - last) / 16.667
    ensures (current - last) / 16.667 > 3.0 ==> d == 3.0
  {
    Min((current - last) / 16.667, 3.0)
  }

  // ---------------------------------------------------------------------------------------------
  // Timers and start-up

  /** The state once the clock has moved on to timer `k` and taken it off the queue; the clock
      never goes back. */
  function Due(s: GameState, k: nat): (r: GameState)
    requires k < |s.timers|
    ensures r.now >= s.now && r.now >= s.timers[k].due
    ensures r.now == s.now || r.now == s.timers[k].due
    ensures r == s.(now := r.now, timers := s.timers[..k] + s.timers[k + 1..])
  {
    s.(now := if s.timers[k].due > s.now then s.timers[k].due else s.now,
       timers := s.timers[..k] + s.timers[k + 1..])
  }

  /** The state the constructors leave, the clock reading `start`. */
  function BeforeInit(withBloom: bool, start: int, all: map<string, Q.Quest>): (s: GameState)
    ensures Ready(s)
  {
    GameState(W.Opening(withBloom), [], [], [], Q.Empty(all), M.Overlay(None, false, "", M.Empty), [],
      U.Initial, false, false, 0.0, [], start, [])
  }

  /** The draws `createInitialNPCs` makes. */
  predicate Roster(looks: seq<N.Looks>, fifth: (real, real))
  {
    && |looks| == 5
    && (forall i :: 0 <= i < 5 ==> N.Draw(looks[i].badgeDraw) && N.Draw(looks[i].overlayDraw))
    && N.Draw(fifth.0) && N.Draw(fifth.1)
  }

  /** `UI.startCountdown` and the interval it sets. */
  function Counting(s: GameState, draw: real): (r: GameState)
    requires Ready(s) && N.Draw(draw) && s.countdown.current >= 0
    ensures Ready(r)
  {
    var b := U.Begin(s.countdown);
    Perform(s.(countdown := b.state), b.effects, 4, draw)
  }

  /** `Quests.startQuest(id)` and what it emits. */
  function Questing(s: GameState, id: string, rx: real, rz: real, draw: real): (r: GameState)
    requires Ready(s) && N.Draw(draw) && 0.0 <= rx < 1.0 && 0.0 <= rz < 1.0
    ensures Ready(r) && r.chars == s.chars
  {
    var st := Q.Start(s.log, id, rx, rz);
    Perform(s.(log := st.log), st.effects, 4, draw)
  }

  /** The end of `init`: the game runs, the frame clock starts at the clock's reading and the
      welcome message is queued 1.5 s ahead. */
  function Launched(s: GameState, welcome: Notice): (r: GameState)
    ensures r.running && r.lastTime == s.now as real
    ensures r.timers == s.timers + [Timer(s.now + 1500, NoticeLater(welcome))]
    ensures r == s.(running := true, lastTime := r.lastTime, timers := r.timers)
  {
    s.(running := true, lastTime := s.now as real, timers := s.timers + [Timer(s.now + 1500, NoticeLater(welcome))])
  }

  /** `init` after `NPCs.init`: `UI.init` starts the countdown, `Quests.init` starts `intro`,
      and the game launches. */
  function Started(s: GameState, welcome: Notice, rx: real, rz: real, draw: real): (r: GameState)
    requires Ready(s) && N.Draw(draw) && 0.0 <= rx < 1.0 && 0.0 <= rz < 1.0 && s.countdown.current >= 0
    ensures Ready(r) && r.running && r.chars == s.chars
  {
    Launched(Questing(Counting(s, draw), "intro", rx, rz, draw), welcome)
  }

  /** The rest of `init` once the subsystems exist: `NPCs.init` creates the five characters,
      and then the game starts. */
  function Booted(s: GameState, firstUid: nat, looks: seq<N.Looks>, fifth: (real, real),
                  scripts: map<string, seq<string>>, welcome: Notice, rx: real, rz: real, draw: real): (r: GameState)
    requires Ready(s) && N.Draw(draw) && 0.0 <= rx < 1.0 && 0.0 <= rz < 1.0
    requires s.chars == [] && s.countdown.current >= 0 && Roster(looks, fifth) && N.Fits(scripts)
    ensures Ready(r) && r.running && r.chars == N.Initial(firstUid, looks, fifth, scripts, 5)
  {
    N.InitialWellTyped(firstUid, looks, fifth, scripts);
    Started(s.(chars := N.Initial(firstUid, looks, fifth, scripts, 5)), welcome, rx, rz, draw)
  }

  lemma BootedSteps(s: GameState, firstUid: nat, looks: seq<N.Looks>, fifth: (real, real),
                    scripts: map<string, seq<string>>, welcome: Notice, rx: real, rz: real, draw: real)
    requires Ready(s) && N.Draw(draw) && 0.0 <= rx < 1.0 && 0.0 <= rz < 1.0
    requires s.chars == [] && s.countdown.current >= 0 && Roster(looks, fifth) && N.Fits(scripts)
    ensures N.WellTyped(N.Initial(firstUid, looks, fifth, scripts, 5))
    ensures Booted(s, firstUid, looks, fifth, scripts, welcome, rx, rz, draw)
      == Started(s.(chars := N.Initial(firstUid, looks, fifth, scripts, 5)), welcome, rx, rz, draw)
  {
    N.InitialWellTyped(firstUid, looks, fifth, scripts);
  }

  /** A single effect that queues a callback. */
  lemma ScheduleOnly(s: GameState, d: nat, t: Task, k: nat, draw: real)
    requires Ready(s) && N.Draw(draw)
    ensures EmitsBelow([Schedule(d, t)], k)
    ensures Perform(s, [Schedule(d, t)], k, draw) == s.(timers := s.timers + [Timer(s.now + d, t)])
  {
    var r := s.(timers := s.timers + [Timer(s.now + d, t)]);
    assert Perform(r, [], k, draw) == r;
    assert [Schedule(d, t)][1..] == [];
  }

  /** An event nobody listens to changes nothing. */
  lemma UnheardDelivered(s: GameState, e: Event, draw: real)
    requires Ready(s) && N.Draw(draw)
    requires e.QuestStarted? || e.ToggleMap? || (e.Milestone? && e.milestone in ["nearMilestone", "quarterComplete", "halfwayPoint", "finalDay", "finalHour"])
    ensures Deliver(s, e, draw) == s
  {
    Unheard(e);
  }

  /** Starting `intro` shows its notice; the `questStarted` it emits reaches nobody. */
  lemma IntroStarted(s: GameState, rx: real, rz: real, draw: real)
    requires Ready(s) && N.Draw(draw) && 0.0 <= rx < 1.0 && 0.0 <= rz < 1.0 && "intro" in s.log.all
    ensures Questing(s, "intro", rx, rz, draw) == s.(log := Q.Start(s.log, "intro", rx, rz).log,
      shown := s.shown + [Notice("New Quest", s.log.all["intro"].description, 8000)])
  {
    var q := Q.Start(s.log, "intro", rx, rz);
    var d := s.log.all["intro"];
    var n := Notice("New Quest", d.description, 8000);
    var e := QuestStarted("intro", d.title, d.description);
    assert q.effects == [Notify(n)] + [Emit(e)];
    var s1 := s.(log := q.log);
    NotifyFirst(s1, n, [Emit(e)], 4, draw);
    EmitOnly(s1.(shown := s1.shown + [n]), e, 4, draw);
    UnheardDelivered(s1.(shown := s1.shown + [n]), e, draw);
  }

  /** From the constructed state with a well-typed roster `cs` (`NPCs.init` makes the one
      `NPCs.InitialRoster` describes), `init` leaves the game running and unpaused with the frame
      clock at the start time, `intro` the one active quest at progress 0, the countdown running
      from ten days, exactly the interval's first tick and then the welcome message queued, and
      the `intro` notice the only one shown. */
  lemma Boot(withBloom: bool, start: int, cs: seq<N.Npc>, welcome: Notice, all: map<string, Q.Quest>,
             rx: real, rz: real, draw: real)
    requires N.Draw(draw) && 0.0 <= rx < 1.0 && 0.0 <= rz < 1.0 && N.WellTyped(cs) && Q.Opens(all)
    ensures var r := Started(BeforeInit(withBloom, start, all).(chars := cs), welcome, rx, rz, draw);
      && r.running && !r.paused && r.lastTime == start as real
      && r.log == Q.IntroLog(all)
      && r.countdown.running && r.countdown.current == 864000
      && r.timers == [Timer(start + 1000, CountdownTick), Timer(start + 1500, NoticeLater(welcome))]
      && r.shown == [Notice("New Quest", all["intro"].description, 8000)]
      && r.chars == cs
  {
    var s := BeforeInit(withBloom, start, all).(chars := cs);
    BootWith(s, start, welcome, rx, rz, draw);
  }

  /** `Boot` from any ready state with a fresh countdown, no timers, no quest and no notice. */
  lemma BootWith(s: GameState, now: int, welcome: Notice, rx: real, rz: real, draw: real)
    requires Ready(s) && s.now == now && s.countdown == U.Initial && s.timers == [] && s.shown == []
    requires s.log == Q.Empty(s.log.all) && Q.Opens(s.log.all)
    requires N.Draw(draw) && 0.0 <= rx < 1.0 && 0.0 <= rz < 1.0
    ensures var r := Started(s, welcome, rx, rz, draw);
      && r.running && r.paused == s.paused && r.lastTime == now as real
      && r.log == Q.IntroLog(s.log.all)
      && r.countdown.running && r.countdown.current == 864000
      && r.timers == [Timer(now + 1000, CountdownTick), Timer(now + 1500, NoticeLater(welcome))]
      && r.shown == [Notice("New Quest", s.log.all["intro"].description, 8000)]
      && r.chars == s.chars
  {
    var t1 := Timer(now + 1000, CountdownTick);
    var c := U.Begin(s.countdown).state;
    var s2 := s.(countdown := c).(timers := [t1]);
    CountingFirst(s, now, draw);
    IntroStarted(s2, rx, rz, draw);
    Q.IntroStarted(s.log.all, rx, rz);
    var n := Notice("New Quest", s.log.all["intro"].description, 8000);
    Assembled(s, now, s2, Questing(s2, "intro", rx, rz, draw), c, Q.IntroLog(s.log.all), t1, n, welcome);
  }

  /** The three steps of `init` put together: each changes only its own fields. */
  lemma Assembled(s: GameState, now: int, s2: GameState, q: GameState, c: U.Countdown, log: Q.Log, t: Timer,
                  n: Notice, welcome: Notice)
    requires s.shown == [] && s.now == now && s2 == s.(countdown := c).(timers := [t])
    requires q == s2.(log := log, shown := s2.shown + [n])
    ensures var r := Launched(q, welcome);
      && r.running && r.paused == s.paused && r.lastTime == now as real
      && r.log == log && r.countdown == c
      && r.timers == [t, Timer(now + 1500, NoticeLater(welcome))]
      && r.shown == [n] && r.chars == s.chars
  {
    assert q.timers == [t] && q.now == now && q.shown == [n];
    LaunchedTimers(q, welcome, t, now);
  }

  /** `init`'s welcome message goes after the one callback already queued. */
  lemma LaunchedTimers(q: GameState, welcome: Notice, t: Timer, now: int)
    requires q.timers == [t] && q.now == now
    ensures Launched(q, welcome).timers == [t, Timer(now + 1500, NoticeLater(welcome))]
  {
  }

  /** `UI.init` with no callback pending: only the interval's first tick is queued. */
  lemma CountingFirst(s: GameState, now: int, draw: real)
    requires Ready(s) && N.Draw(draw) && s.now == now && s.countdown.current >= 0 && s.timers == []
    ensures Counting(s, draw) == s.(countdown := U.Begin(s.countdown).state).(timers := [Timer(now + 1000, CountdownTick)])
  {
    var b := U.Begin(s.countdown);
    var s1 := s.(countdown := b.state);
    assert Counting(s, draw) == Perform(s1, [Schedule(1000, CountdownTick)], 4, draw);
    ScheduleOnly(s1, 1000, CountdownTick, 4, draw);
    var ts := [Timer(now + 1000, CountdownTick)];
    assert s1.timers + [Timer(s1.now + 1000, CountdownTick)] == ts;
  }

  // ---------------------------------------------------------------------------------------------
  // The `Game` object

  class Game {
    const world: W.World
    const player: P.Player
    const npcs: N.NPCs
    const games: M.MiniGames
    const ui: U.CountdownPanel
    const quests: Q.QuestLog
    const bus: Bus<Handler>
    /** `setTimeout` and `performance.now()`. */
    const clock: Scheduler
    /** The message `init` queues. */
    const welcome: Notice
    var isRunning: bool
    var isPaused: bool
    var isLoading: bool
    var lastTime: real
    /** Every `Utils.showNotification` so far, oldest first. */
    var shown: seq<Notice>

    function State(): GameState
      reads this, world, quests, games, npcs, ui, clock
    {
      GameState(world.Scene(), world.colliders, world.npcs, world.interactiveObjects,
        quests.State(), games.State(), npcs.characters, ui.State(),
        isRunning, isPaused, lastTime, shown, clock.now, clock.timers)
    }

    /** The listeners are the game's, and the state is one they can act on. */
    ghost predicate Valid()
      reads this, bus, world, quests, games, npcs, ui, clock
    {
      bus.listeners == Wiring && N.Fits(npcs.scripts) && Ready(State())
    }

    /** The subsystems as their `init` functions leave them before `Game.init` goes on, with every
        listener registered in the order the `init` functions register them; `start` is the
        clock's reading. */
    constructor (withBloom: bool, start: int)
      ensures Valid() && fresh(bus) && npcs.scripts == N.Scripts && welcome == Welcome && quests.all == Q.All
      ensures State() == BeforeInit(withBloom, start, quests.all)
      ensures isLoading
    {
      world := new W.World(withBloom);
      player := new P.Player();
      npcs := new N.NPCs();
      games := new M.MiniGames();
      ui := new U.CountdownPanel();
      quests := new Q.QuestLog();
      bus := new Bus<Handler>();
      clock := new Scheduler(start);
      welcome := Welcome;
      isRunning, isPaused, isLoading, lastTime, shown := false, false, true, 0.0, [];
      new;
      RegisterAll(bus);
    }

    /** `init` from `NPCs.init` on (main.js:29-58): the World's builders have run, the characters
        are created, the countdown starts, `intro` starts, the game runs and the welcome message
        is queued. */
    method Init(firstUid: nat, looks: seq<N.Looks>, fifth: (real, real), rx: real, rz: real, draw: real)
      requires Valid() && npcs.characters == [] && ui.currentCountdown >= 0 && Roster(looks, fifth)
      requires N.Draw(draw) && 0.0 <= rx < 1.0 && 0.0 <= rz < 1.0
      modifies this, npcs, ui, world, quests, games, clock
      ensures Valid() && !isLoading
      ensures State() == Booted(old(State()), firstUid, looks, fifth, npcs.scripts, welcome, rx, rz, draw)
    {
      ghost var s := State();
      Populate(firstUid, looks, fifth);
      ghost var s1 := State();
      StartCountdown(draw);
      StartQuest("intro", rx, rz, draw);
      ghost var s3 := State();
      Launch();
      BootedSteps(s, firstUid, looks, fifth, npcs.scripts, welcome, rx, rz, draw);
      assert Started(s1, welcome, rx, rz, draw) == Launched(s3, welcome);
    }

    /** `NPCs.init`: the five characters join an empty roster. */
    method Populate(firstUid: nat, looks: seq<N.Looks>, fifth: (real, real))
      requires Valid() && npcs.characters == [] && Roster(looks, fifth)
      modifies npcs
      ensures Valid() && State() == old(State()).(chars := N.Initial(firstUid, looks, fifth, npcs.scripts, 5))
    {
      ghost var before := State();
      ghost var cs := N.Initial(firstUid, looks, fifth, npcs.scripts, 5);
      npcs.CreateInitialNPCs(firstUid, looks, fifth);
      assert npcs.characters == cs;
      N.InitialWellTyped(firstUid, looks, fifth, npcs.scripts);
      assert State() == before.(chars := cs);
    }

    /** The end of `init`: loading is over, the game runs, the frame clock starts and the welcome
        message is queued. */
    method Launch()
      modifies this, clock
      ensures !isLoading && State() == Launched(old(State()), welcome)
    {
      isLoading, isRunning := false, true;
      lastTime := clock.now as real;
      clock.SetTimeout(1500, NoticeLater(welcome));
    }

    /** `getColliders()`: the interactive objects, then the characters, then the quest marker. */
    function Colliders(): (objs: seq<Entity>)
      reads world, npcs, quests
      ensures |objs| == |world.interactiveObjects| + |npcs.characters| + |quests.GetQuestMarkers()|
      ensures objs[..|world.interactiveObjects|] == world.interactiveObjects
      ensures forall i :: 0 <= i < |npcs.characters| ==>
        objs[|world.interactiveObjects| + i] == N.AsEntity(npcs.characters[i])
      ensures quests.activeMarker.Some? ==> objs[|objs| - 1] == MarkerEntity(quests.activeMarker.value)
    {
      world.interactiveObjects + npcs.Entities() + MarkerEntities(quests.GetQuestMarkers())
    }

    /** `update(deltaTime)`: Player, NPCs, World, MiniGames, Quests, in that order. The player
        meets the colliders as they are at the start of the frame, and the quest pass uses the
        player's new position; `MiniGames.update` only animates. */
    method Update(deltaTime: real, sinR: real, cosR: real, ws: seq<N.Wander>, ds: seq<real>,
                  turns: seq<Vec3>, bob: real)
      requires Valid() && N.Distances(npcs.characters, deltaTime, ws, ds)
      requires |turns| == |world.npcs| && -0.3 <= bob <= 0.3
      modifies this, player, npcs, world, quests, games, clock
      ensures Valid()
      ensures player.State() ==
        P.Moved(old(player.State()), old(player.keys), old(player.isFreeLookActive), deltaTime, sinR, cosR)
      ensures old(Colliders()) != [] ==> player.currentInteraction == P.LastInReach(player.position, old(Colliders()))
      ensures |npcs.characters| == |old(npcs.characters)|
      ensures forall i :: 0 <= i < |npcs.characters| ==>
        npcs.characters[i] == N.Wandered(old(npcs.characters)[i], deltaTime, ws[i], ds[i])
      ensures world.colliders == W.RefreshAll(old(world.colliders))
      ensures world.npcs == W.StepAll(old(world.npcs), world.colliders, turns)
      ensures quests.State() == Q.UpdateLog(old(quests.State()), player.position, bob).log
      ensures world.Scene() == old(world.Scene()) && world.interactiveObjects == old(world.interactiveObjects)
      ensures isPaused == old(isPaused) && isRunning == old(isRunning) && lastTime == old(lastTime)
      ensures games.State() == old(games.State()) && ui.State() == old(ui.State())
      ensures old(shown) <= shown
    {
      PlayerStep(deltaTime, sinR, cosR);
      ghost var chars := npcs.characters;
      npcs.Update(deltaTime, ws, ds);
      N.WanderKeepsTypes(chars, npcs.characters, deltaTime, ws, ds);
      world.Update(turns);
      QuestStep(bob);
    }

    /** `Player.update(deltaTime, getColliders())` and the hints it shows. */
    method PlayerStep(deltaTime: real, sinR: real, cosR: real)
      requires Valid()
      modifies this, player, world, quests, games, clock
      ensures Valid()
      ensures player.State() ==
        P.Moved(old(player.State()), old(player.keys), old(player.isFreeLookActive), deltaTime, sinR, cosR)
      ensures old(Colliders()) != [] ==> player.currentInteraction == P.LastInReach(player.position, old(Colliders()))
      ensures State() == old(State()).(shown := shown, timers := clock.timers) && old(shown) <= shown
    {
      var objs := Colliders();
      var hints := player.Update(deltaTime, sinR, cosR, objs);
      if objs != [] {
        HintsShown(State(), hints, 0.0);
        Replay(hints, 2, 0.0);
      }
    }

    /** `Quests.update(Player.getPosition())` and the completions it emits. */
    method QuestStep(bob: real)
      requires Valid() && -0.3 <= bob <= 0.3
      modifies this, world, quests, games, clock
      ensures Valid()
      ensures var s := old(State()); var u := Q.UpdateLog(s.log, player.position, bob);
        State() == s.(log := u.log, shown := shown, timers := clock.timers) && old(shown) <= shown
    {
      var effects := quests.Update(player.position, bob);
      Q.UpdateEmitsCompletions(old(quests.State()), player.position, bob);
      QuietPerform(State(), effects, 2, 0.0);
      Replay(effects, 2, 0.0);
    }

    /** One animation frame, `gameLoop(currentTime)`; the next frame's request is the caller's.
        Paused or stopped, it changes nothing; otherwise the frame clock moves to `currentTime`
        and the update runs with the clamped delta. */
    method GameLoop(currentTime: real, sinR: real, cosR: real, ws: seq<N.Wander>, ds: seq<real>,
                    turns: seq<Vec3>, bob: real)
      requires Valid() && -0.3 <= bob <= 0.3
      requires !isPaused && isRunning ==>
        N.Distances(npcs.characters, FrameDelta(lastTime, currentTime), ws, ds) && |turns| == |world.npcs|
      modifies this, player, npcs, world, quests, games, clock
      ensures Valid()
      ensures old(isPaused) || !old(isRunning) ==> unchanged(this, player, npcs, world, quests, games, clock)
      ensures !old(isPaused) && old(isRunning) ==>
        && lastTime == currentTime
        && player.State() == P.Moved(old(player.State()), old(player.keys), old(player.isFreeLookActive),
                                     FrameDelta(old(lastTime), currentTime), sinR, cosR)
        && world.colliders == W.RefreshAll(old(world.colliders))
        && quests.State() == Q.UpdateLog(old(quests.State()), player.position, bob).log
    {
      if isPaused || !isRunning {
        return;
      }
      var deltaTime := FrameDelta(lastTime, currentTime);
      lastTime := currentTime;
      Update(deltaTime, sinR, cosR, ws, ds, turns, bob);
    }

    /** The window's `blur` listener. */
    method Blur()
      modifies this
      ensures State() == old(State()).(paused := true)
      ensures isLoading == old(isLoading)
    {
      isPaused := true;
    }

    /** The window's `focus` listener: it resumes only a paused game. */
    method Focus()
      modifies this
      ensures old(isPaused) ==> State() == old(State()).(paused := false, lastTime := old(clock.now) as real)
      ensures !old(isPaused) ==> State() == old(State())
      ensures isLoading == old(isLoading)
    {
      if isPaused {
        isPaused := false;
        lastTime := clock.now as real;
      }
    }

    /** `reset()`: the player back at the start, the game unpaused, the frame clock restarted. */
    method Reset()
      modifies this, player
      ensures player.State() == P.Motion(Origin, Origin, 0.0, 0.0, false)
      ensures State() == old(State()).(paused := false, lastTime := old(clock.now) as real)
      ensures isLoading == old(isLoading)
    {
      player.Reset();
      isPaused := false;
      lastTime := clock.now as real;
    }

    /** A `keydown` reaching the player's listener; what it emits is dispatched in order. Escape
        pauses exactly when it turns the pause key on; 'e' next to an object delivers `interact`
        with it; 'm' flips the map flag, and nobody listens to the `toggleMap` it emits; every
        other key only moves the player's flags. */
    method KeyDown(raw: string, draw: real) returns (effects: seq<Effect>)
      requires Valid() && N.Draw(draw)
      modifies this, player, world, quests, games, clock
      ensures Valid() && EmitsBelow(effects, 4) && State() == Perform(old(State()), effects, 4, draw)
      ensures raw == "Escape" ==>
        player.keys.pause == !old(player.keys.pause) &&
        State() == if player.keys.pause then old(State()).(paused := true)
                   else old(State()).(paused := false, lastTime := old(clock.now) as real)
      ensures raw != "Escape" ==> player.keys == P.Pressed(old(player.keys), P.Lower(raw))
      ensures P.Lower(raw) == "e" && old(player.currentInteraction).Some? ==>
        State() == Deliver(old(State()), Interact(old(player.currentInteraction).value), draw)
      ensures P.Lower(raw) == "m" ==>
        player.keys.showMap == !old(player.keys.showMap) && State() == old(State())
      ensures raw != "Escape" && !(P.Lower(raw) == "e" && old(player.currentInteraction).Some?) && P.Lower(raw) != "m" ==>
        State() == old(State())
    {
      effects := player.KeyDown(raw);
      ghost var s0 := State();
      if raw == "Escape" {
        EmitOnly(s0, effects[0].event, 4, draw);
        PauseResume(s0, draw);
      } else if effects != [] {
        EmitOnly(s0, effects[0].event, 4, draw);
        if P.Lower(raw) == "m" {
          UnheardDelivered(s0, effects[0].event, draw);
        }
      } else {
        assert Perform(s0, effects, 4, draw) == s0;
      }
      Replay(effects, 4, draw);
    }

    /** `Quests.startQuest(id)` and what it emits. */
    method StartQuest(id: string, rx: real, rz: real, draw: real)
      requires Valid() && N.Draw(draw) && 0.0 <= rx < 1.0 && 0.0 <= rz < 1.0
      modifies this, world, quests, games, clock
      ensures Valid() && State() == Questing(old(State()), id, rx, rz, draw)
    {
      var effects := quests.StartQuest(id, rx, rz);
      Replay(effects, 4, draw);
    }

    /** `UI.startCountdown` and the interval it sets. */
    method StartCountdown(draw: real)
      requires Valid() && N.Draw(draw) && ui.currentCountdown >= 0
      modifies this, ui, world, quests, games, clock
      ensures Valid() && State() == Counting(old(State()), draw)
    {
      var effects := ui.StartCountdown();
      Replay(effects, 4, draw);
    }

    /** A click on block `i` of the mining board; what it emits is dispatched in order. */
    method ClickBlock(i: nat, draw: real) returns (effects: seq<Effect>)
      requires Valid() && N.Draw(draw) && i < 5
      modifies this, world, quests, games, clock
      ensures Valid() && EmitsBelow(effects, 4)
      ensures var c := M.Clicking(old(State()).overlay, i);
        effects == c.1 && State() == Perform(old(State()).(overlay := c.0), effects, 4, draw)
    {
      effects := games.Click(i);
      Replay(effects, 4, draw);
    }

    /** A click on the overlay's close button: the closing animation is queued when a game is
        open, and its end runs as a deferred callback. */
    method CloseGame(draw: real) returns (effects: seq<Effect>)
      requires Valid() && N.Draw(draw)
      modifies this, world, quests, games, clock
      ensures Valid() && EmitsBelow(effects, 4)
      ensures effects == M.Closing(old(State()).overlay) && State() == Perform(old(State()), effects, 4, draw)
    {
      effects := games.CloseGame();
      Replay(effects, 4, draw);
    }

    /** A deferred callback whose time has come. */
    method RunTask(task: Task, draw: real, rx: real, rz: real)
      requires Valid() && N.Draw(draw) && 0.0 <= rx < 1.0 && 0.0 <= rz < 1.0
      modifies this, world, quests, games, ui, clock
      ensures Valid() && State() == Ran(old(State()), task, draw, rx, rz)
    {
      match task
      case EmitLater(e) =>
        Dispatch(e, draw);
      case StartQuestLater(id) =>
        StartQuest(id, rx, rz, draw);
      case FinishCloseGame =>
        var effects := games.FinishClose();
        Replay(effects, 4, draw);
      case CountdownTick =>
        if ui.intervalActive {
          var effects := ui.Tick();
          Replay(effects, 4, draw);
        }
      case NoticeLater(n) =>
        shown := shown + [n];
    }

    /** The browser's timer queue moving on: the clock reaches the next pending timer, which
        leaves the queue and runs; with nothing pending, nothing happens. */
    method Advance(draw: real, rx: real, rz: real) returns (fired: Option<Task>, ghost k: nat)
      requires Valid() && N.Draw(draw) && 0.0 <= rx < 1.0 && 0.0 <= rz < 1.0
      modifies this, world, quests, games, ui, clock
      ensures Valid()
      ensures fired.None? <==> old(clock.timers) == []
      ensures fired.None? ==> State() == old(State())
      ensures fired.Some? ==>
        && FiresNext(old(clock.timers), k) && fired.value == old(clock.timers)[k].task
        && State() == Ran(Due(old(State()), k), fired.value, draw, rx, rz)
    {
      ghost var s0 := State();
      k := 0;
      fired := clock.Fire();
      if fired.Some? {
        k :| && FiresNext(s0.timers, k) && fired == Some(s0.timers[k].task)
             && clock.timers == s0.timers[..k] + s0.timers[k + 1..]
             && clock.now == if s0.timers[k].due > s0.now then s0.timers[k].due else s0.now;
        assert State() == Due(s0, k);
        RunTask(fired.value, draw, rx, rz);
      }
    }

    /** `emit(e)` with the listeners of `Wiring`: each one runs, with everything it emits, before
        the next. */
    method Dispatch(e: Event, draw: real)
      requires Valid() && N.Draw(draw)
      modifies this, world, quests, games, clock
      ensures Valid() && State() == Deliver(old(State()), e, draw)
      decreases Rank(e), 2, 0
    {
      var calls := bus.Emit(Name(e));
      ghost var s0 := State();
      DeliverCalls(s0, e, calls, draw);
      var j := 0;
      while j < |calls|
        invariant 0 <= j <= |calls|
        invariant Valid()
        invariant Call(State(), calls[j..], e, draw) == Call(s0, calls, e, draw)
      {
        Run(calls[j..], e, draw);
        assert calls[j..][1..] == calls[j + 1..];
        j := j + 1;
      }
    }

    /** The first of the listeners `hs` and, after it, the effects it left: what remains of the
        dispatch from the new state is the whole dispatch from the old one. */
    method Run(hs: seq<Handler>, e: Event, draw: real)
      requires Valid() && N.Draw(draw) && hs != []
      modifies this, world, quests, games, clock
      ensures Valid() && Call(State(), hs[1..], e, draw) == Call(old(State()), hs, e, draw)
      decreases Rank(e), 1, 0
    {
      FirstListener(State(), hs, e, draw);
      var effects := Apply(hs[0], e, draw);
      Replay(effects, Rank(e), draw);
    }

    /** The effects, first to last. */
    method Replay(effects: seq<Effect>, k: nat, draw: real)
      requires Valid() && N.Draw(draw) && EmitsBelow(effects, k)
      modifies this, world, quests, games, clock
      ensures Valid() && State() == Perform(old(State()), effects, k, draw)
      decreases k, 0, 0
    {
      ghost var s0 := State();
      var i := 0;
      while i < |effects|
        invariant 0 <= i <= |effects|
        invariant Valid() && EmitsBelow(effects[i..], k)
        invariant Perform(State(), effects[i..], k, draw) == Perform(s0, effects, k, draw)
      {
        PerformHead(State(), effects[i..], k, draw);
        assert effects[i..][0] == effects[i] && effects[i..][1..] == effects[i + 1..];
        match effects[i] {
          case Notify(n) => shown := shown + [n];
          case Schedule(d, t) => clock.SetTimeout(d, t);
          case Emit(e) => Dispatch(e, draw);
        }
        i := i + 1;
      }
    }

    /** The body of listener `h` for event `e`, calling into the subsystem that registered it. */
    method Apply(h: Handler, e: Event, draw: real) returns (effects: seq<Effect>)
      requires Valid() && N.Draw(draw)
      modifies this, world, quests, games
      ensures Valid() && EmitsBelow(effects, Rank(e))
      ensures (State(), effects) == Handle(old(State()), h, e, draw)
    {
      match h
      case StartStages | StageListener(_) | FinalStage =>
        effects := ApplyWorld(h, e, draw);
      case NpcTalk | MiniGameStart | MiniGameQuestNote =>
        effects := ApplyCharacters(h, e, draw);
      case CompletedBanner | NewQuestBanner =>
        effects := ApplyBanners(h, e, draw);
      case DialogueCheck | MiniGameCheck | ItemCheck =>
        effects := ApplyQuests(h, e, draw);
      case PauseListener | ResumeListener | CollectibleListener =>
        effects := ApplyGame(h, e, draw);
    }

    /** The World's listeners, and the UI's final-stage listener, which calls `World.transform`. */
    method ApplyWorld(h: Handler, e: Event, draw: real) returns (effects: seq<Effect>)
      requires Valid() && N.Draw(draw) && (h.StartStages? || h.StageListener? || h.FinalStage?)
      modifies world
      ensures Valid() && (State(), effects) == Handle(old(State()), h, e, draw)
    {
      ghost var s0 := State();
      match h
      case StartStages =>
        effects := W.StartTransformation();
      case StageListener(i) =>
        effects := world.UpdateTransformation(W.StageValue(i));
        assert State() == s0.(scene := W.Lit(s0.scene, W.StageValue(i)));
      case FinalStage =>
        effects := world.Transform();
        assert State() == s0.(scene := W.Lit(s0.scene, 1.0));
    }

    /** The listeners NPCs and MiniGames register. */
    method ApplyCharacters(h: Handler, e: Event, draw: real) returns (effects: seq<Effect>)
      requires Valid() && N.Draw(draw) && (h.NpcTalk? || h.MiniGameStart? || h.MiniGameQuestNote?)
      modifies games
      ensures Valid() && (State(), effects) == Handle(old(State()), h, e, draw)
    {
      ghost var s0 := State();
      effects := [];
      match h
      case NpcTalk =>
        if e.Interact? {
          effects := npcs.OnInteract(e.target, draw);
        }
      case MiniGameStart =>
        if e.Interact? {
          effects := games.OnInteract(e.target);
          assert State() == s0.(overlay := M.Interacted(s0.overlay, e.target).0);
        }
      case MiniGameQuestNote =>
    }

    /** The banners the UI shows for quest events. */
    method ApplyBanners(h: Handler, e: Event, draw: real) returns (effects: seq<Effect>)
      requires Valid() && N.Draw(draw) && (h.CompletedBanner? || h.NewQuestBanner?)
      ensures (old(State()), effects) == Handle(old(State()), h, e, draw)
    {
      effects := [];
      if h.CompletedBanner? && e.QuestCompleted? {
        effects := [Notify(Notice("Quest Completed", "You have completed: " + e.title, 5000))];
      }
    }

    /** The objective checks Quests registers. */
    method ApplyQuests(h: Handler, e: Event, draw: real) returns (effects: seq<Effect>)
      requires Valid() && N.Draw(draw) && (h.DialogueCheck? || h.MiniGameCheck? || h.ItemCheck?)
      modifies quests
      ensures Valid() && (State(), effects) == Handle(old(State()), h, e, draw)
    {
      ghost var s0 := State();
      effects := [];
      match h
      case DialogueCheck =>
        if e.NpcDialogue? {
          effects := quests.CheckDialogueObjectives(e.npcType);
          assert State() == Objectives(s0, Q.TalkedTo(e.npcType)).0;
        }
      case MiniGameCheck =>
        if e.MiniGameCompleted? {
          effects := quests.CheckMiniGameObjectives(e.gameType);
          assert State() == Objectives(s0, Q.Played(e.gameType)).0;
        }
      case ItemCheck =>
        if e.ItemCollected? {
          effects := quests.CheckItemObjectives(e.itemType);
          assert State() == Objectives(s0, Q.Collected(e.itemType)).0;
        }
    }

    /** The game's own listeners. */
    method ApplyGame(h: Handler, e: Event, draw: real) returns (effects: seq<Effect>)
      requires Valid() && N.Draw(draw) && (h.PauseListener? || h.ResumeListener? || h.CollectibleListener?)
      modifies this, world
      ensures Valid() && (State(), effects) == Handle(old(State()), h, e, draw)
    {
      ghost var s0 := State();
      effects := [];
      match h
      case PauseListener =>
        isPaused := true;
        assert State() == s0.(paused := true);
      case ResumeListener =>
        isPaused := false;
        lastTime := clock.now as real;
        assert State() == s0.(paused := false, lastTime := s0.now as real);
      case CollectibleListener =>
        if e.Interact? && e.target.kind.Collectible? {
          effects := HandleCollectible(e.target);
          assert State() == s0.(objects := WithoutFirst(s0.objects, e.target));
        }
    }

    /** `handleCollectible(collectible)`: the first occurrence leaves `interactiveObjects` in
        place, then the pick-up notice and the `itemCollected` emit. */
    method HandleCollectible(c: Entity) returns (effects: seq<Effect>)
      requires c.kind.Collectible?
      modifies world
      ensures world.interactiveObjects == WithoutFirst(old(world.interactiveObjects), c)
      ensures world.Scene() == old(world.Scene()) && world.colliders == old(world.colliders)
      ensures world.npcs == old(world.npcs)
      ensures effects == [Notify(Notice("Item Collected", "You found a " + c.name + "!", 3000)),
                          Emit(ItemCollected(c.kind.itemType))]
    {
      var index := IndexOf(world.interactiveObjects, c);
      if index.Some? {
        var i := index.value;
        world.interactiveObjects := world.interactiveObjects[..i] + world.interactiveObjects[i + 1..];
      }
      effects := [Notify(Notice("Item Collected", "You found a " + c.name + "!", 3000)),
                  Emit(ItemCollected(c.kind.itemType))];
    }
  }
}
