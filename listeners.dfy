/** The bus listeners the subsystems' `init` functions register (`Utils.events.on` calls), the
    table they build, and which listeners each event of the game reaches. */
module Listeners {
  import opened Common
  import opened Utils
  import opened Effects
  import opened EventBus

  // ---------------------------------------------------------------------------------------------
  // The listener table

  /** The bus callbacks, one per `Utils.events.on` call. */
  datatype Handler =
    | StartStages           // World: 'ascension' -> startTransformation (world.js:69-71)
    | StageListener(i: nat) // World: 'transformationStage{i}' -> updateTransformation(i * 0.2) (world.js:72-76)
    | NpcTalk               // NPCs: 'interact' on an isNPC object (npcs.js:206-210)
    | MiniGameStart         // MiniGames: 'interact' on an isMiniGame object (minigames.js:65-69)
    | MiniGameQuestNote     // MiniGames: 'questUpdated', an empty body (minigames.js:72-76)
    | CompletedBanner       // UI: 'questCompleted' -> notification (ui.js:143-147)
    | NewQuestBanner        // UI: 'newQuest' -> notification (ui.js:149-151)
    | FinalStage            // UI: 'ascension' -> World.transform (ui.js:153-156)
    | DialogueCheck         // Quests: 'npcDialogue' (quests.js:111-113)
    | MiniGameCheck         // Quests: 'miniGameCompleted' (quests.js:116-118)
    | ItemCheck             // Quests: 'itemCollected' (quests.js:121-123)
    | PauseListener         // Game: 'pauseGame' (main.js:64-66)
    | ResumeListener        // Game: 'resumeGame' (main.js:68-71)
    | CollectibleListener   // Game: 'interact' on an isCollectible object (main.js:74-78)

  /** The listener table once every `init` has run, in the order `Game.init` calls them: World,
      (Player registers DOM listeners only), NPCs, MiniGames, UI, Quests, then the game's own. */
  const Wiring: Table<Handler> := map[
    "ascension" := [StartStages, FinalStage],
    "transformationStage1" := [StageListener(1)],
    "transformationStage2" := [StageListener(2)],
    "transformationStage3" := [StageListener(3)],
    "transformationStage4" := [StageListener(4)],
    "transformationStage5" := [StageListener(5)],
    "interact" := [NpcTalk, MiniGameStart, CollectibleListener],
    "questUpdated" := [MiniGameQuestNote],
    "questCompleted" := [CompletedBanner],
    "newQuest" := [NewQuestBanner],
    "npcDialogue" := [DialogueCheck],
    "miniGameCompleted" := [MiniGameCheck],
    "itemCollected" := [ItemCheck],
    "pauseGame" := [PauseListener],
    "resumeGame" := [ResumeListener]
  ]

  /** The `Utils.events.on` calls of each `init`, in the order each makes them. */
  function WorldOn(t: Table<Handler>): Table<Handler>
  {
    AddListener(AddListener(AddListener(AddListener(AddListener(AddListener(t,
      "ascension", StartStages),
      "transformationStage1", StageListener(1)),
      "transformationStage2", StageListener(2)),
      "transformationStage3", StageListener(3)),
      "transformationStage4", StageListener(4)),
      "transformationStage5", StageListener(5))
  }

  function NpcsOn(t: Table<Handler>): Table<Handler>
  {
    AddListener(t, "interact", NpcTalk)
  }

  function MiniGamesOn(t: Table<Handler>): Table<Handler>
  {
    AddListener(AddListener(t, "interact", MiniGameStart), "questUpdated", MiniGameQuestNote)
  }

  function UiOn(t: Table<Handler>): Table<Handler>
  {
    var t := AddListener(t, "questCompleted", CompletedBanner);
    var t := AddListener(t, "newQuest", NewQuestBanner);
    AddListener(t, "ascension", FinalStage)
  }

  function QuestsOn(t: Table<Handler>): Table<Handler>
  {
    var t := AddListener(t, "npcDialogue", DialogueCheck);
    var t := AddListener(t, "miniGameCompleted", MiniGameCheck);
    AddListener(t, "itemCollected", ItemCheck)
  }

  function GameOn(t: Table<Handler>): Table<Handler>
  {
    var t := AddListener(t, "pauseGame", PauseListener);
    var t := AddListener(t, "resumeGame", ResumeListener);
    AddListener(t, "interact", CollectibleListener)
  }

  /** The registrations themselves, made on the game's bus. */
  method RegisterWorld(bus: Bus<Handler>)
    modifies bus
    ensures bus.listeners == WorldOn(old(bus.listeners))
  {
    bus.On("ascension", StartStages);
    bus.On("transformationStage1", StageListener(1));
    bus.On("transformationStage2", StageListener(2));
    bus.On("transformationStage3", StageListener(3));
    bus.On("transformationStage4", StageListener(4));
    bus.On("transformationStage5", StageListener(5));
  }

  method RegisterNpcs(bus: Bus<Handler>)
    modifies bus
    ensures bus.listeners == NpcsOn(old(bus.listeners))
  {
    bus.On("interact", NpcTalk);
  }

  method RegisterMiniGames(bus: Bus<Handler>)
    modifies bus
    ensures bus.listeners == MiniGamesOn(old(bus.listeners))
  {
    bus.On("interact", MiniGameStart);
    bus.On("questUpdated", MiniGameQuestNote);
  }

  method RegisterUi(bus: Bus<Handler>)
    modifies bus
    ensures bus.listeners == UiOn(old(bus.listeners))
  {
    bus.On("questCompleted", CompletedBanner);
    bus.On("newQuest", NewQuestBanner);
    bus.On("ascension", FinalStage);
  }

  method RegisterQuests(bus: Bus<Handler>)
    modifies bus
    ensures bus.listeners == QuestsOn(old(bus.listeners))
  {
    bus.On("npcDialogue", DialogueCheck);
    bus.On("miniGameCompleted", MiniGameCheck);
    bus.On("itemCollected", ItemCheck);
  }

  method RegisterGame(bus: Bus<Handler>)
    modifies bus
    ensures bus.listeners == GameOn(old(bus.listeners))
  {
    bus.On("pauseGame", PauseListener);
    bus.On("resumeGame", ResumeListener);
    bus.On("interact", CollectibleListener);
  }

  /** Every `init`'s registrations, in the order `Game.init` runs them (main.js:15-59), on a bus
      that has none yet. */
  method RegisterAll(bus: Bus<Handler>)
    requires bus.listeners == map[]
    modifies bus
    ensures bus.listeners == Wiring
  {
    ghost var t0 := bus.listeners;
    RegisterWorld(bus);
    RegisterNpcs(bus);
    RegisterMiniGames(bus);
    RegisterUi(bus);
    RegisterQuests(bus);
    RegisterGame(bus);
    Registered(t0);
  }

  lemma FirstOn(t: Table<Handler>, e: string, cb: Handler)
    requires e !in t
    ensures AddListener(t, e, cb) == t[e := [cb]]
  {
    assert ListenersOf(t, e) + [cb] == [cb];
  }

  /** The table the calls build is `Wiring`. */
  lemma Registered(t0: Table<Handler>)
    requires t0 == map[]
    ensures GameOn(QuestsOn(UiOn(MiniGamesOn(NpcsOn(WorldOn(t0)))))) == Wiring
  {
    WorldTable(t0);
    NpcsAndMiniGamesStep();
    UiStep();
    QuestsStep();
    GameStep();
    ChainedIsWiring();
  }

  /** The tables after each `init`, as the map updates its registrations amount to. */
  const AfterMiniGames: Table<Handler> :=
    WorldWiring["interact" := [NpcTalk, MiniGameStart]]["questUpdated" := [MiniGameQuestNote]]

  const AfterUi: Table<Handler> :=
    AfterMiniGames["questCompleted" := [CompletedBanner]]["newQuest" := [NewQuestBanner]]["ascension" := [StartStages, FinalStage]]

  const AfterQuests: Table<Handler> :=
    AfterUi["npcDialogue" := [DialogueCheck]]["miniGameCompleted" := [MiniGameCheck]]["itemCollected" := [ItemCheck]]

  const Chained: Table<Handler> :=
    AfterQuests["pauseGame" := [PauseListener]]["resumeGame" := [ResumeListener]]
      ["interact" := [NpcTalk, MiniGameStart, CollectibleListener]]

  lemma NpcsAndMiniGamesStep()
    ensures MiniGamesOn(NpcsOn(WorldWiring)) == AfterMiniGames
  {
    var t := NpcsAndMiniGamesTable(WorldWiring);
  }

  lemma UiStep()
    ensures UiOn(AfterMiniGames) == AfterUi
  {
    var t := UiTable(AfterMiniGames);
  }

  lemma QuestsStep()
    ensures QuestsOn(AfterUi) == AfterQuests
  {
    var t := QuestsTable(AfterUi);
  }

  lemma GameStep()
    ensures GameOn(AfterQuests) == Chained
  {
    var t := GameTable(AfterQuests);
  }

  lemma ChainedIsWiring()
    ensures Chained == Wiring
  {
    assert Chained.Keys == Wiring.Keys;
    forall k | k in Wiring
      ensures Chained[k] == Wiring[k]
    {
    }
  }

  lemma GameTable(t4: Table<Handler>) returns (t: Table<Handler>)
    requires "pauseGame" !in t4 && "resumeGame" !in t4
    requires "interact" in t4 && t4["interact"] == [NpcTalk, MiniGameStart]
    ensures t == GameOn(t4)
    ensures t == t4["pauseGame" := [PauseListener]]["resumeGame" := [ResumeListener]]
                   ["interact" := [NpcTalk, MiniGameStart, CollectibleListener]]
  {
    assert "pauseGame"[0] != "ascension"[0];
    FirstOn(t4, "pauseGame", PauseListener);
    FirstOn(t4["pauseGame" := [PauseListener]], "resumeGame", ResumeListener);
    assert [NpcTalk, MiniGameStart] + [CollectibleListener] == [NpcTalk, MiniGameStart, CollectibleListener];
    t := t4["pauseGame" := [PauseListener]]["resumeGame" := [ResumeListener]]
           ["interact" := [NpcTalk, MiniGameStart, CollectibleListener]];
  }

  /** The table once `World.init` has run. */
  const WorldWiring: Table<Handler> := map["ascension" := [StartStages], "transformationStage1" := [StageListener(1)],
    "transformationStage2" := [StageListener(2)], "transformationStage3" := [StageListener(3)],
    "transformationStage4" := [StageListener(4)], "transformationStage5" := [StageListener(5)]]

  lemma WorldTable(t0: Table<Handler>)
    requires t0 == map[]
    ensures WorldOn(t0) == WorldWiring
  {
    FirstOn(t0, "ascension", StartStages);
    var t1 := t0["ascension" := [StartStages]];
    FirstOn(t1, "transformationStage1", StageListener(1));
    var t2 := t1["transformationStage1" := [StageListener(1)]];
    assert "transformationStage2"[19] != "transformationStage1"[19];
    FirstOn(t2, "transformationStage2", StageListener(2));
    var t3 := t2["transformationStage2" := [StageListener(2)]];
    assert "transformationStage3"[19] != "transformationStage1"[19];
    assert "transformationStage3"[19] != "transformationStage2"[19];
    FirstOn(t3, "transformationStage3", StageListener(3));
    var t4 := t3["transformationStage3" := [StageListener(3)]];
    assert "transformationStage4"[19] != "transformationStage1"[19];
    assert "transformationStage4"[19] != "transformationStage2"[19];
    assert "transformationStage4"[19] != "transformationStage3"[19];
    FirstOn(t4, "transformationStage4", StageListener(4));
    var t5 := t4["transformationStage4" := [StageListener(4)]];
    assert "transformationStage5"[19] != "transformationStage1"[19];
    assert "transformationStage5"[19] != "transformationStage2"[19];
    assert "transformationStage5"[19] != "transformationStage3"[19];
    assert "transformationStage5"[19] != "transformationStage4"[19];
    FirstOn(t5, "transformationStage5", StageListener(5));
  }

  lemma NpcsAndMiniGamesTable(t1: Table<Handler>) returns (t: Table<Handler>)
    requires "interact" !in t1 && "questUpdated" !in t1
    ensures t == MiniGamesOn(NpcsOn(t1))
    ensures t == t1["interact" := [NpcTalk, MiniGameStart]]["questUpdated" := [MiniGameQuestNote]]
  {
    FirstOn(t1, "interact", NpcTalk);
    assert [NpcTalk] + [MiniGameStart] == [NpcTalk, MiniGameStart];
    FirstOn(t1["interact" := [NpcTalk, MiniGameStart]], "questUpdated", MiniGameQuestNote);
    t := t1["interact" := [NpcTalk, MiniGameStart]]["questUpdated" := [MiniGameQuestNote]];
  }

  lemma UiTable(t2: Table<Handler>) returns (t: Table<Handler>)
    requires "questCompleted" !in t2 && "newQuest" !in t2
    requires "ascension" in t2 && t2["ascension"] == [StartStages]
    ensures t == UiOn(t2)
    ensures t == t2["questCompleted" := [CompletedBanner]]["newQuest" := [NewQuestBanner]]
                   ["ascension" := [StartStages, FinalStage]]
  {
    FirstOn(t2, "questCompleted", CompletedBanner);
    assert "newQuest"[0] != "interact"[0];
    FirstOn(t2["questCompleted" := [CompletedBanner]], "newQuest", NewQuestBanner);
    assert [StartStages] + [FinalStage] == [StartStages, FinalStage];
    t := t2["questCompleted" := [CompletedBanner]]["newQuest" := [NewQuestBanner]]
           ["ascension" := [StartStages, FinalStage]];
  }

  lemma QuestsTable(t3: Table<Handler>) returns (t: Table<Handler>)
    requires "npcDialogue" !in t3 && "miniGameCompleted" !in t3 && "itemCollected" !in t3
    ensures t == QuestsOn(t3)
    ensures t == t3["npcDialogue" := [DialogueCheck]]["miniGameCompleted" := [MiniGameCheck]]
                   ["itemCollected" := [ItemCheck]]
  {
    FirstOn(t3, "npcDialogue", DialogueCheck);
    FirstOn(t3["npcDialogue" := [DialogueCheck]], "miniGameCompleted", MiniGameCheck);
    FirstOn(t3["npcDialogue" := [DialogueCheck]]["miniGameCompleted" := [MiniGameCheck]], "itemCollected", ItemCheck);
    t := t3["npcDialogue" := [DialogueCheck]]["miniGameCompleted" := [MiniGameCheck]]["itemCollected" := [ItemCheck]];
  }

  /** The name `transformationStage{i}` the stage timers emit. */
  lemma StageNames()
    ensures Name(TransformationStage(1)) == "transformationStage1"
    ensures Name(TransformationStage(2)) == "transformationStage2"
    ensures Name(TransformationStage(3)) == "transformationStage3"
    ensures Name(TransformationStage(4)) == "transformationStage4"
    ensures Name(TransformationStage(5)) == "transformationStage5"
  {
    assert NatToString(1) == "1" && NatToString(2) == "2" && NatToString(3) == "3";
    assert NatToString(4) == "4" && NatToString(5) == "5";
  }

  /** Each event of the game reaches exactly these listeners, in this order. */
  lemma InteractListeners(t: Entity)
    ensures ListenersOf(Wiring, Name(Interact(t))) == [NpcTalk, MiniGameStart, CollectibleListener]
  {
  }

  lemma AscensionListeners()
    ensures ListenersOf(Wiring, Name(Ascension)) == [StartStages, FinalStage]
  {
  }

  lemma StageListeners(i: nat)
    requires 1 <= i <= 5
    ensures ListenersOf(Wiring, Name(TransformationStage(i))) == [StageListener(i)]
  {
    StageNames();
    if i == 1 {} else if i == 2 {} else if i == 3 {} else if i == 4 {} else {}
  }

  lemma CompletedListeners(id: string, title: string)
    ensures ListenersOf(Wiring, Name(QuestCompleted(id, title))) == [CompletedBanner]
  {
  }

  lemma ObjectiveListeners(e: Event)
    requires e.NpcDialogue? || e.MiniGameCompleted? || e.ItemCollected?
    ensures e.NpcDialogue? ==> ListenersOf(Wiring, Name(e)) == [DialogueCheck]
    ensures e.MiniGameCompleted? ==> ListenersOf(Wiring, Name(e)) == [MiniGameCheck]
    ensures e.ItemCollected? ==> ListenersOf(Wiring, Name(e)) == [ItemCheck]
  {
  }

  lemma PauseListeners()
    ensures ListenersOf(Wiring, Name(PauseGame)) == [PauseListener]
    ensures ListenersOf(Wiring, Name(ResumeGame)) == [ResumeListener]
  {
  }

  /** Nobody listens to `questStarted`, `toggleMap` or the countdown milestones. */
  lemma Unheard(e: Event)
    requires e.QuestStarted? || e.ToggleMap? || (e.Milestone? && e.milestone in ["nearMilestone", "quarterComplete", "halfwayPoint", "finalDay", "finalHour"])
    ensures ListenersOf(Wiring, Name(e)) == []
  {
  }
}
