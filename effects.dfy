/** The closed set of bus events the game emits, and the effects a subsystem operation returns to
    its caller in the order the JavaScript performs them: a notification for the UI sink
    (`Utils.showNotification`), an event emitted on the bus, or a callback deferred by
    `setTimeout`. */
module Effects {
  import opened Common
  import opened Utils

  datatype Event =
    | QuestStarted(questId: string, title: string, description: string)
    | QuestCompleted(questId: string, title: string)
    | NpcDialogue(npcType: string, line: string)
    | MiniGameCompleted(gameType: string, score: int)
    | ItemCollected(itemType: string)
    | Interact(target: Entity)
    | PauseGame
    | ResumeGame
    | ToggleMap(open: bool)
    | Ascension
    | TransformationStage(stage: nat)
    | Milestone(milestone: string)

  /** The event name the JavaScript passes to `Utils.events.emit`. */
  function Name(e: Event): string
  {
    match e
    case QuestStarted(_, _, _) => "questStarted"
    case QuestCompleted(_, _) => "questCompleted"
    case NpcDialogue(_, _) => "npcDialogue"
    case MiniGameCompleted(_, _) => "miniGameCompleted"
    case ItemCollected(_) => "itemCollected"
    case Interact(_) => "interact"
    case PauseGame => "pauseGame"
    case ResumeGame => "resumeGame"
    case ToggleMap(_) => "toggleMap"
    case Ascension => "ascension"
    case TransformationStage(i) => "transformationStage" + NatToString(i)
    case Milestone(m) => m
  }

  /** How deep the synchronous emits under an event can go: an `interact` handler emits
      `npcDialogue`, `pauseGame` or `itemCollected`; the quest handlers of those emit
      `questCompleted`; nothing a handler of `questCompleted` or of a rank-0 event does emits. */
  function Rank(e: Event): (k: nat)
    ensures k < 4
  {
    match e
    case Interact(_) => 3
    case NpcDialogue(_, _) => 2
    case MiniGameCompleted(_, _) => 2
    case ItemCollected(_) => 2
    case QuestCompleted(_, _) => 1
    case _ => 0
  }

  /** A `(title, message, duration)` call of `Utils.showNotification`. */
  datatype Notice = Notice(title: string, message: string, durationMs: nat)

  /** A callback deferred by `setTimeout` (or the next firing of a `setInterval`). */
  datatype Task =
    | EmitLater(event: Event)        // world.js:1016-1020
    | StartQuestLater(questId: string) // quests.js:333-335
    | FinishCloseGame                // the `onComplete` of the closing animation, minigames.js:205-211
    | CountdownTick                  // the one-second interval of ui.js:41-54
    | NoticeLater(notice: Notice)    // the welcome message, main.js:52-58

  datatype Effect =
    | Notify(notice: Notice)
    | Emit(event: Event)
    | Schedule(delayMs: nat, task: Task)

  /** Every event the effects emit is of rank below `k`. */
  predicate EmitsBelow(effects: seq<Effect>, k: nat)
  {
    forall i :: 0 <= i < |effects| && effects[i].Emit? ==> Rank(effects[i].event) < k
  }

  /** The events the effects emit, in order. */
  function Emitted(effects: seq<Effect>): (es: seq<Event>)
    ensures |es| <= |effects|
    decreases |effects|
  {
    if effects == [] then []
    else
      var rest := Emitted(effects[..|effects| - 1]);
      var last := effects[|effects| - 1];
      if last.Emit? then rest + [last.event] else rest
  }

  /** The notifications the effects show, in order. */
  function Notices(effects: seq<Effect>): (ns: seq<Notice>)
    ensures |ns| <= |effects|
    decreases |effects|
  {
    if effects == [] then []
    else
      var rest := Notices(effects[..|effects| - 1]);
      var last := effects[|effects| - 1];
      if last.Notify? then rest + [last.notice] else rest
  }

  lemma {:induction false} EmittedAppend(a: seq<Effect>, b: seq<Effect>)
    ensures Emitted(a + b) == Emitted(a) + Emitted(b)
    decreases |b|
  {
    if b == [] {
      assert a + b == a;
    } else {
      assert (a + b)[..|a + b| - 1] == a + b[..|b| - 1];
      assert (a + b)[|a + b| - 1] == b[|b| - 1];
      EmittedAppend(a, b[..|b| - 1]);
    }
  }

  lemma {:induction false} NoticesAppend(a: seq<Effect>, b: seq<Effect>)
    ensures Notices(a + b) == Notices(a) + Notices(b)
    decreases |b|
  {
    if b == [] {
      assert a + b == a;
    } else {
      assert (a + b)[..|a + b| - 1] == a + b[..|b| - 1];
      assert (a + b)[|a + b| - 1] == b[|b| - 1];
      NoticesAppend(a, b[..|b| - 1]);
    }
  }
}
