/** The quest state machine `Quests` (quests.js): the static quest table, the `active` and
    `completed` dictionaries, the single `activeMarker` slot, the four objective checks and the
    chaining of quests through `nextQuest`.

    An object's key order matters to the `for (const questId in this.active)` loops: quest ids are
    not array-index-like, so JavaScript visits them in insertion order, a re-assigned key keeps
    its place, and a key deleted before the loop reaches it is skipped. `order` holds that key
    order. Every loop here runs over a snapshot of it and skips keys no longer present; no loop
    adds a key, because the next quest only starts from a timer. */
module Quests {
  import opened Common
  import opened Utils
  import opened Effects

  // ---------------------------------------------------------------------------------------------
  // The quest table (quests.js:7-83)

  datatype Objective =
    | Location(target: string, distance: real)
    | Npc(target: string)
    | MiniGame(target: string)
    | Items(target: string, count: nat)

  datatype Rewards = Rewards(experience: nat, items: seq<string>)

  datatype Quest = Quest(
    id: string, title: string, description: string, kind: string,
    objective: Objective, rewards: Rewards, nextQuest: Option<string>)

  const Intro := Quest(
    "intro", "Welcome to New Horizon", "Find the Ascension Monument in the central plaza.",
    "story", Location("monument", 5.0), Rewards(50, []), Some("meetProphet"))
  const MeetProphet := Quest(
    "meetProphet", "The Prophet's Vision",
    "Speak with the Prophet to learn about the coming transformation.",
    "dialogue", Npc("prophet"), Rewards(100, []), Some("cryptoMining"))
  const CryptoMining := Quest(
    "cryptoMining", "Mining the Future",
    "Try your hand at the Crypto Mining mini-game to contribute to Solana's growth.",
    "miniGame", MiniGame("cryptoMining"), Rewards(150, ["Basic Mining Algorithm"]),
    Some("exploreDistrict"))
  const ExploreDistrict := Quest(
    "exploreDistrict", "Exploring New Horizon",
    "Explore the Tech District and find the Innovation Center.",
    "exploration", Location("innovationCenter", 5.0), Rewards(100, []), Some("collectResources"))
  const CollectResources := Quest(
    "collectResources", "Resource Collection", "Collect digital resources scattered around the city.",
    "collection", Items("digitalFragment", 5), Rewards(200, ["Data Compressor"]), None)

  /** `Quests.all`. */
  const All: map<string, Quest> := map[
    "intro" := Intro, "meetProphet" := MeetProphet, "cryptoMining" := CryptoMining,
    "exploreDistrict" := ExploreDistrict, "collectResources" := CollectResources]

  /** Every definition of `all` is stored under its own id. */
  predicate Keyed(all: map<string, Quest>)
  {
    forall k :: k in all ==> all[k].id == k
  }

  /** What `init` needs of the table: `intro` sends the player to the monument. */
  predicate Opens(all: map<string, Quest>)
  {
    "intro" in all && all["intro"].id == "intro" && all["intro"].objective == Location("monument", 5.0)
  }

  /** Every definition is stored under its own id, `intro` leads to the monument, and the
      `nextQuest` links form one chain
      intro → meetProphet → cryptoMining → exploreDistrict → collectResources → null. */
  lemma Chain()
    ensures Keyed(All) && Opens(All)
    ensures All["intro"].nextQuest == Some("meetProphet")
    ensures All["meetProphet"].nextQuest == Some("cryptoMining")
    ensures All["cryptoMining"].nextQuest == Some("exploreDistrict")
    ensures All["exploreDistrict"].nextQuest == Some("collectResources")
    ensures All["collectResources"].nextQuest == None
    ensures forall k :: k in All && All[k].nextQuest.Some? ==> All[k].nextQuest.value in All
  {
  }

  // ---------------------------------------------------------------------------------------------
  // The quest log as a value

  /** An active or completed quest: the definition spread into a fresh object, plus `progress`
      and `isComplete`. */
  datatype Entry = Entry(def: Quest, progress: nat, isComplete: bool)

  /** The marker mesh as far as the logic sees it: its position and `userData.quest`. */
  datatype Marker = Marker(position: Vec3, quest: string)

  /** `all` is the quest table the object holds; nothing changes it. */
  datatype Log = Log(
    all: map<string, Quest>, active: map<string, Entry>, order: seq<string>,
    completed: map<string, Entry>, marker: Option<Marker>)

  /** The state before `init`, with table `all`. */
  function Empty(all: map<string, Quest>): (log: Log)
    ensures log.all == all && log.active == map[] && log.order == [] && log.completed == map[]
    ensures log.marker.None?
  {
    Log(all, map[], [], map[], None)
  }

  /** What every reachable log satisfies: `order` lists each active key once, each active entry
      is a definition whose `id` is its key, and no active entry is complete. */
  ghost predicate WellFormed(log: Log)
  {
    && Keyed(log.all)
    && Distinct(log.order)
    && (forall k :: k in log.active <==> k in log.order)
    && (forall k :: k in log.active ==>
          log.active[k].def.id == k && !log.active[k].isComplete)
  }

  /** The result of an operation: the new log and what it did, in order. */
  datatype Step = Step(log: Log, effects: seq<Effect>)

  // ---------------------------------------------------------------------------------------------
  // startQuest and createQuestMarker (quests.js:130-206)

  /** Where `createQuestMarker` puts the marker: fixed spots for the two named targets, else
      random integer x and z in [-20, 20] drawn from rx and rz; always at height 1. */
  function MarkerAt(target: string, rx: real, rz: real): (p: Vec3)
    requires 0.0 <= rx < 1.0 && 0.0 <= rz < 1.0
    ensures p.y == 1.0
    ensures -20.0 <= p.x <= 20.0 && -20.0 <= p.z <= 20.0
    ensures target == "monument" ==> p == Vec3(0.0, 1.0, 0.0)
    ensures target == "innovationCenter" ==> p == Vec3(20.0, 1.0, 20.0)
  {
    if target == "monument" then Vec3(0.0, 1.0, 0.0)
    else if target == "innovationCenter" then Vec3(20.0, 1.0, 20.0)
    else Vec3(RandomInt(-20, 20, rx) as real, 1.0, RandomInt(-20, 20, rz) as real)
  }

  function Start(log: Log, id: string, rx: real, rz: real): (r: Step)
    requires 0.0 <= rx < 1.0 && 0.0 <= rz < 1.0
    ensures r.log.all == log.all
    ensures id !in log.all ==> r == Step(log, [])
    ensures id in log.all ==>
      var q := log.all[id];
      && r.log.active == log.active[id := Entry(q, 0, false)]
      && r.log.completed == log.completed
      && r.effects == [Notify(Notice("New Quest", q.description, 8000)),
                       Emit(QuestStarted(id, q.title, q.description))]
      && (q.objective.Location? ==> r.log.marker.Some? && r.log.marker.value.quest == q.id)
      && (!q.objective.Location? ==> r.log.marker == log.marker)
    ensures WellFormed(log) ==> WellFormed(r.log)
  {
    if id !in log.all then Step(log, [])
    else
      var q := log.all[id];
      var order := if id in log.active then log.order else log.order + [id];
      var marker :=
        if q.objective.Location? then Some(Marker(MarkerAt(q.objective.target, rx, rz), q.id))
        else log.marker;
      Step(Log(log.all, log.active[id := Entry(q, 0, false)], order, log.completed, marker),
           [Notify(Notice("New Quest", q.description, 8000)),
            Emit(QuestStarted(id, q.title, q.description))])
  }

  // ---------------------------------------------------------------------------------------------
  // completeQuest (quests.js:308-337) and getQuestMarkers (quests.js:342-344)

  /** The deferred `startQuest(quest.nextQuest)`, when there is a next quest. */
  function NextStart(next: Option<string>): (r: seq<Effect>)
    ensures next.None? ==> r == []
    ensures next.Some? ==> r == [Schedule(5000, StartQuestLater(next.value))]
  {
    if next.Some? then [Schedule(5000, StartQuestLater(next.value))] else []
  }

  function Complete(log: Log, id: string): (r: Step)
    ensures r.log.all == log.all
    ensures id !in log.active || log.active[id].isComplete ==> r == Step(log, [])
    ensures id in log.active && !log.active[id].isComplete ==>
      && r.log.active == log.active - {id}
      && r.log.completed == log.completed[id := log.active[id].(isComplete := true)]
      && (r.log.marker.None? <==> log.marker.None? || log.marker.value.quest == id)
      && (r.log.marker.Some? ==> r.log.marker == log.marker)
      && r.effects ==
           [Notify(Notice("Quest Completed", "You have completed: " + log.active[id].def.title, 5000)),
            Emit(QuestCompleted(id, log.active[id].def.title))] +
           NextStart(log.active[id].def.nextQuest)
    ensures WellFormed(log) ==> WellFormed(r.log)
  {
    if id !in log.active || log.active[id].isComplete then Step(log, [])
    else
      var e := log.active[id];
      var marker := if log.marker.Some? && log.marker.value.quest == id then None else log.marker;
      WithoutMembers(log.order, id);
      Step(Log(log.all, log.active - {id}, Without(log.order, id), log.completed[id := e.(isComplete := true)],
               marker),
           [Notify(Notice("Quest Completed", "You have completed: " + e.def.title, 5000)),
            Emit(QuestCompleted(id, e.def.title))] + NextStart(e.def.nextQuest))
  }

  /** A second completion of the same quest does nothing and emits nothing. */
  lemma CompleteTwice(log: Log, id: string)
    ensures var once := Complete(log, id).log; Complete(once, id) == Step(once, [])
  {
  }

  /** `getQuestMarkers`: the marker if there is one; never more than one. */
  function Markers(log: Log): (ms: seq<Marker>)
    ensures |ms| <= 1
    ensures ms == [] <==> log.marker.None?
    ensures log.marker.Some? ==> ms == [log.marker.value]
  {
    if log.marker.Some? then [log.marker.value] else []
  }

  // ---------------------------------------------------------------------------------------------
  // The objective checks (quests.js:211-303)

  /** What the loop is checking for: a dialogue, a finished mini-game, a collected item, or the
      player's position (the location check run every frame). */
  datatype Trigger = TalkedTo(npcType: string) | Played(gameType: string) | Collected(itemType: string) | Near(position: Vec3)

  /** Whether a loop with this trigger acts on a quest with this objective. */
  predicate Targets(o: Objective, t: Trigger)
  {
    match t
    case TalkedTo(n) => o.Npc? && o.target == n
    case Played(g) => o.MiniGame? && o.target == g
    case Collected(i) => o.Items? && o.target == i
    case Near(_) => o.Location?
  }

  /** One iteration of the for-in loop, for key `id`. */
  function Visit(log: Log, id: string, t: Trigger): Step
  {
    if id !in log.active then Step(log, [])
    else
      var e := log.active[id];
      if !Targets(e.def.objective, t) || e.isComplete then Step(log, [])
      else match t
        case TalkedTo(_) => Complete(log, id)
        case Played(_) => Complete(log, id)
        case Collected(item) =>
          var bumped := e.(progress := e.progress + 1);
          var log1 := log.(active := log.active[id := bumped]);
          if bumped.progress >= e.def.objective.count then Complete(log1, id)
          else Step(log1, [Notify(Notice(e.def.title, ProgressText(bumped.progress, e.def.objective.count, item), 3000))])
        case Near(p) => CheckLocation(log, e, p)
  }

  /** The template `Collected ${progress}/${count} ${itemType}s`. */
  function ProgressText(progress: nat, count: nat, item: string): string
  {
    "Collected " + NatToString(progress) + "/" + NatToString(count) + " " + item + "s"
  }

  /** `checkLocationObjective`: with no marker nothing happens; otherwise the quest completes when
      the player is within `objective.distance` of the marker (`distanceTo(...) <= distance`,
      compared on squares: the distances in the table are non-negative). */
  function CheckLocation(log: Log, e: Entry, p: Vec3): Step
    requires e.def.objective.Location?
  {
    if log.marker.None? then Step(log, [])
    else if WithinClosed(p, log.marker.value.position, e.def.objective.distance) then Complete(log, e.def.id)
    else Step(log, [])
  }

  /** The loop over the key snapshot `keys`, first to last; effects concatenate. */
  function Pass(log: Log, keys: seq<string>, t: Trigger): (r: Step)
    ensures WellFormed(log) ==> WellFormed(r.log)
    decreases |keys|
  {
    if keys == [] then Step(log, [])
    else
      var s := Pass(log, keys[..|keys| - 1], t);
      var v := Visit(s.log, keys[|keys| - 1], t);
      VisitWellFormed(s.log, keys[|keys| - 1], t);
      Step(v.log, s.effects + v.effects)
  }

  /** One more key visits it after the keys before it. */
  lemma PassPrefix(log: Log, keys: seq<string>, i: nat, t: Trigger)
    requires i < |keys|
    ensures var s := Pass(log, keys[..i], t); var v := Visit(s.log, keys[i], t);
      Pass(log, keys[..i + 1], t).log == v.log && Pass(log, keys[..i + 1], t).effects == s.effects + v.effects
  {
    assert keys[..i + 1][..i] == keys[..i];
  }

  lemma VisitWellFormed(log: Log, id: string, t: Trigger)
    ensures WellFormed(log) ==> WellFormed(Visit(log, id, t).log)
  {
    if WellFormed(log) && id in log.active && t.Collected? {
      var e := log.active[id];
      var log1 := log.(active := log.active[id := e.(progress := e.progress + 1)]);
      assert WellFormed(log1);
    }
  }

  /** `update(playerPosition)`: nothing at all with no active quest; otherwise the location pass,
      then the marker's bobbing, where `bob` is `Math.sin(performance.now() * 0.002) * 0.3` added
      to the marker's original height 1. */
  function UpdateLog(log: Log, player: Vec3, bob: real): (r: Step)
    requires -0.3 <= bob <= 0.3
    ensures WellFormed(log) ==> WellFormed(r.log)
  {
    if |log.active| == 0 then Step(log, [])
    else
      var s := Pass(log, log.order, Near(player));
      var marker :=
        if s.log.marker.Some? then Some(s.log.marker.value.(position := s.log.marker.value.position.(y := 1.0 + bob)))
        else None;
      Step(s.log.(marker := marker), s.effects)
  }

  // ---------------------------------------------------------------------------------------------
  // What the objective checks emit

  /** Every event the effects emit is a `questCompleted`: the objective checks emit nothing else,
      so a handler that runs them emits only events with no further quest consequences. */
  predicate CompletionsOnly(effects: seq<Effect>)
  {
    forall i :: 0 <= i < |effects| && effects[i].Emit? ==> effects[i].event.QuestCompleted?
  }

  lemma CompletionsOnlyAppend(a: seq<Effect>, b: seq<Effect>)
    requires CompletionsOnly(a) && CompletionsOnly(b)
    ensures CompletionsOnly(a + b)
  {
    forall i | 0 <= i < |a + b| && (a + b)[i].Emit?
      ensures (a + b)[i].event.QuestCompleted?
    {
      if i >= |a| {
        assert (a + b)[i] == b[i - |a|];
      }
    }
  }

  /** One iteration of an objective loop emits at most the completion of its own quest. */
  lemma VisitEmitsCompletions(log: Log, id: string, t: Trigger)
    ensures CompletionsOnly(Visit(log, id, t).effects)
  {
  }

  lemma {:induction false} PassEmitsCompletions(log: Log, keys: seq<string>, t: Trigger)
    ensures CompletionsOnly(Pass(log, keys, t).effects)
    decreases |keys|
  {
    if keys != [] {
      var s := Pass(log, keys[..|keys| - 1], t);
      PassEmitsCompletions(log, keys[..|keys| - 1], t);
      VisitEmitsCompletions(s.log, keys[|keys| - 1], t);
      CompletionsOnlyAppend(s.effects, Visit(s.log, keys[|keys| - 1], t).effects);
    }
  }

  /** The per-frame location pass likewise emits only completions. */
  lemma UpdateEmitsCompletions(log: Log, player: Vec3, bob: real)
    requires -0.3 <= bob <= 0.3
    ensures CompletionsOnly(UpdateLog(log, player, bob).effects)
  {
    PassEmitsCompletions(log, log.order, Near(player));
  }

  // ---------------------------------------------------------------------------------------------
  // Properties of the loops

  /** One iteration touches only its own key's entry. */
  lemma VisitFrame(log: Log, id: string, t: Trigger, k: string)
    requires WellFormed(log) && k != id
    ensures var r := Visit(log, id, t).log;
      && (k in r.active <==> k in log.active)
      && (k in log.active ==> r.active[k] == log.active[k])
      && (k in log.completed ==> k in r.completed && r.completed[k] == log.completed[k])
  {
  }

  /** Keys outside the snapshot keep their entries. */
  lemma {:induction false} PassFrame(log: Log, keys: seq<string>, t: Trigger, k: string)
    requires WellFormed(log) && k !in keys
    ensures var r := Pass(log, keys, t).log;
      && (k in r.active <==> k in log.active)
      && (k in log.active ==> r.active[k] == log.active[k])
      && (k in log.completed ==> k in r.completed && r.completed[k] == log.completed[k])
    decreases |keys|
  {
    if keys != [] {
      var prefix := keys[..|keys| - 1];
      PassFrame(log, prefix, t, k);
      VisitFrame(Pass(log, prefix, t).log, keys[|keys| - 1], t, k);
    }
  }

  /** A quest whose objective the trigger does not target is left exactly as it was: a
      dialogue never completes a mini-game quest, an item of another type never counts. */
  lemma {:induction false} PassUntargeted(log: Log, keys: seq<string>, t: Trigger, k: string)
    requires WellFormed(log) && k in log.active && !Targets(log.active[k].def.objective, t)
    ensures var r := Pass(log, keys, t).log; k in r.active && r.active[k] == log.active[k]
    decreases |keys|
  {
    if keys != [] {
      var prefix := keys[..|keys| - 1];
      PassUntargeted(log, prefix, t, k);
      var s := Pass(log, prefix, t).log;
      if keys[|keys| - 1] != k {
        VisitFrame(s, keys[|keys| - 1], t, k);
      }
    }
  }

  /** A dialogue with the target NPC, or a finished mini-game of the target type, completes the
      quest: it leaves `active` and is stored, marked complete, in `completed`. */
  lemma {:induction false} PassCompletes(log: Log, keys: seq<string>, t: Trigger, k: string)
    requires WellFormed(log) && (t.TalkedTo? || t.Played?)
    requires k in log.active && Targets(log.active[k].def.objective, t) && k in keys
    ensures var r := Pass(log, keys, t).log;
      && k !in r.active
      && k in r.completed && r.completed[k] == log.active[k].(isComplete := true)
    decreases |keys|
  {
    var prefix, last := keys[..|keys| - 1], keys[|keys| - 1];
    var s := Pass(log, prefix, t).log;
    if k in prefix {
      PassCompletes(log, prefix, t, k);
      if last != k {
        VisitFrame(s, last, t, k);
      }
    } else {
      assert last == k;
      PassFrame(log, prefix, t, k);
    }
  }

  /** A collected item of the target type adds exactly one to the quest's progress; the quest
      completes on the event that brings progress to `count`, and stays active before that. */
  lemma {:induction false} PassCollects(log: Log, keys: seq<string>, item: string, k: string)
    requires WellFormed(log) && Distinct(keys)
    requires k in log.active && Targets(log.active[k].def.objective, Collected(item)) && k in keys
    ensures var r := Pass(log, keys, Collected(item)).log;
      var e := log.active[k]; var bumped := e.(progress := e.progress + 1);
      && (bumped.progress < e.def.objective.count ==> k in r.active && r.active[k] == bumped)
      && (bumped.progress >= e.def.objective.count ==>
            k !in r.active && k in r.completed && r.completed[k] == bumped.(isComplete := true))
    decreases |keys|
  {
    var t := Collected(item);
    var prefix, last := keys[..|keys| - 1], keys[|keys| - 1];
    var s := Pass(log, prefix, t).log;
    if k in prefix {
      assert forall i :: 0 <= i < |prefix| ==> prefix[i] == keys[i];
      assert last != k;
      PassCollects(log, prefix, item, k);
      VisitFrame(s, last, t, k);
    } else {
      assert last == k;
      PassFrame(log, prefix, t, k);
    }
  }

  /** Without a marker, the location pass changes nothing and does nothing. */
  lemma {:induction false} NoMarkerNoProgress(log: Log, keys: seq<string>, p: Vec3)
    requires log.marker.None?
    ensures Pass(log, keys, Near(p)) == Step(log, [])
    decreases |keys|
  {
    if keys != [] {
      NoMarkerNoProgress(log, keys[..|keys| - 1], p);
    }
  }

  /** A location quest that owns the marker completes on any frame on which the player is within
      its distance of the marker. */
  lemma {:induction false} PassReachesMarker(log: Log, keys: seq<string>, p: Vec3, k: string)
    requires WellFormed(log) && Distinct(keys)
    requires k in log.active && log.active[k].def.objective.Location? && k in keys
    requires log.marker.Some? && log.marker.value.quest == k
    requires WithinClosed(p, log.marker.value.position, log.active[k].def.objective.distance)
    ensures var r := Pass(log, keys, Near(p)).log;
      && k !in r.active && k in r.completed && r.marker.None?
    decreases |keys|
  {
    var t := Near(p);
    var prefix, last := keys[..|keys| - 1], keys[|keys| - 1];
    var s := Pass(log, prefix, t).log;
    if k in prefix {
      assert forall i :: 0 <= i < |prefix| ==> prefix[i] == keys[i];
      assert last != k;
      PassReachesMarker(log, prefix, p, k);
      VisitFrame(s, last, t, k);
      VisitKeepsNoMarker(s, last, p);
    } else {
      assert last == k;
      PassFrame(log, prefix, t, k);
      PassKeepsMarker(log, prefix, p, k);
      VisitReachesMarker(s, k, p);
    }
  }

  lemma VisitReachesMarker(log: Log, k: string, p: Vec3)
    requires WellFormed(log) && k in log.active && log.active[k].def.objective.Location?
    requires log.marker.Some? && log.marker.value.quest == k
    requires WithinClosed(p, log.marker.value.position, log.active[k].def.objective.distance)
    ensures var r := Visit(log, k, Near(p)).log;
      && k !in r.active && k in r.completed && r.marker.None?
  {
  }

  /** Once the marker is gone, no location visit brings one back. */
  lemma VisitKeepsNoMarker(log: Log, id: string, p: Vec3)
    requires log.marker.None?
    ensures Visit(log, id, Near(p)).log.marker.None?
  {
  }

  /** The marker of quest `k` survives a location pass over keys other than `k`. */
  lemma {:induction false} PassKeepsMarker(log: Log, keys: seq<string>, p: Vec3, k: string)
    requires WellFormed(log) && k !in keys && log.marker.Some? && log.marker.value.quest == k
    ensures Pass(log, keys, Near(p)).log.marker == log.marker
    decreases |keys|
  {
    if keys != [] {
      PassKeepsMarker(log, keys[..|keys| - 1], p, k);
    }
  }

  /** The opening of the story: after `init` starts the intro quest, a frame with the player
      standing at the origin (one unit below the monument's marker) completes it, removes the
      marker, and defers the start of `meetProphet` by 5000 ms. */
  lemma IntroByTheMonument(rx: real, rz: real, bob: real)
    requires 0.0 <= rx < 1.0 && 0.0 <= rz < 1.0 && -0.3 <= bob <= 0.3
    ensures var started := Start(Empty(All), "intro", rx, rz);
      var frame := UpdateLog(started.log, Origin, bob);
      && started.effects[1] == Emit(QuestStarted("intro", "Welcome to New Horizon", "Find the Ascension Monument in the central plaza."))
      && frame.log.active == map[] && "intro" in frame.log.completed && frame.log.marker.None?
      && Emitted(frame.effects) == [QuestCompleted("intro", "Welcome to New Horizon")]
      && frame.effects[|frame.effects| - 1] == Schedule(5000, StartQuestLater("meetProphet"))
  {
    Chain();
    assert All["intro"] == Intro;
    IntroStarted(All, rx, rz);
    IntroFrame(All, bob);
  }

  /** The log right after `startQuest('intro')` on a fresh log with table `all`. */
  function IntroLog(all: map<string, Quest>): Log
    requires "intro" in all
  {
    Log(all, map["intro" := Entry(all["intro"], 0, false)], ["intro"], map[], Some(Marker(Vec3(0.0, 1.0, 0.0), "intro")))
  }

  /** Starting `intro` on a fresh log activates it alone, puts the marker on the monument and
      announces the quest. */
  lemma IntroStarted(all: map<string, Quest>, rx: real, rz: real)
    requires Opens(all) && 0.0 <= rx < 1.0 && 0.0 <= rz < 1.0
    ensures Start(Empty(all), "intro", rx, rz).log == IntroLog(all)
    ensures Start(Empty(all), "intro", rx, rz).effects[1] ==
      Emit(QuestStarted("intro", all["intro"].title, all["intro"].description))
  {
  }

  lemma IntroFrame(all: map<string, Quest>, bob: real)
    requires "intro" in all && all["intro"] == Intro && -0.3 <= bob <= 0.3
    ensures var frame := UpdateLog(IntroLog(all), Origin, bob);
      && frame.log.active == map[] && "intro" in frame.log.completed && frame.log.marker.None?
      && Emitted(frame.effects) == [QuestCompleted("intro", "Welcome to New Horizon")]
      && frame.effects[|frame.effects| - 1] == Schedule(5000, StartQuestLater("meetProphet"))
  {
    var log := IntroLog(all);
    var c := Complete(log, "intro");
    var n := Notify(Notice("Quest Completed", "You have completed: " + Intro.title, 5000));
    var em := Emit(QuestCompleted("intro", Intro.title));
    var sc := Schedule(5000, StartQuestLater("meetProphet"));
    assert c.effects == [n, em, sc] && c.log.active == map[] && "intro" in c.log.completed && c.log.marker.None? by {
      assert log.active["intro"] == Entry(Intro, 0, false);
      assert log.active - {"intro"} == map[];
    }
    assert Pass(log, ["intro"], Near(Origin)) == c by {
      assert ["intro"][..0] == [];
      assert WithinClosed(Origin, Vec3(0.0, 1.0, 0.0), 5.0);
      assert Visit(log, "intro", Near(Origin)) == c;
    }
    assert Emitted([n, em, sc]) == [em.event] by {
      assert [n, em, sc][..2] == [n, em] && [n, em][..1] == [n] && [n][..0] == [];
      assert Emitted([n]) == [];
      assert Emitted([n, em]) == [em.event];
    }
    assert UpdateLog(log, Origin, bob) == c by {
      assert |log.active| != 0;
    }
  }


  /** `n` successive `itemCollected(item)` events. */
  function CollectMany(log: Log, item: string, n: nat): (r: Log)
    ensures WellFormed(log) ==> WellFormed(r)
  {
    if n == 0 then log
    else
      var prev := CollectMany(log, item, n - 1);
      Pass(prev, prev.order, Collected(item)).log
  }

  /** Before the count is reached, each matching event adds one and the quest stays active. */
  lemma {:induction false} CollectManyProgress(log: Log, item: string, k: string, n: nat)
    requires WellFormed(log) && k in log.active && Targets(log.active[k].def.objective, Collected(item))
    requires log.active[k].progress + n < log.active[k].def.objective.count
    ensures var r := CollectMany(log, item, n);
      k in r.active && r.active[k] == log.active[k].(progress := log.active[k].progress + n)
  {
    if n > 0 {
      CollectManyProgress(log, item, k, n - 1);
      var prev := CollectMany(log, item, n - 1);
      var e, ep := log.active[k], prev.active[k];
      assert ep == e.(progress := e.progress + n - 1);
      assert ep.progress + 1 < ep.def.objective.count;
      assert WellFormed(prev) && k in prev.order && Distinct(prev.order);
      PassCollects(prev, prev.order, item, k);
      var r := Pass(prev, prev.order, Collected(item)).log;
      assert r.active[k] == ep.(progress := ep.progress + 1);
      assert ep.(progress := ep.progress + 1) == e.(progress := e.progress + n);
      assert CollectMany(log, item, n) == r;
    }
  }

  /** The event that brings progress to the count completes the quest. */
  lemma CollectManyCompletes(log: Log, item: string, k: string, n: nat)
    requires WellFormed(log) && k in log.active && Targets(log.active[k].def.objective, Collected(item))
    requires 1 <= n && log.active[k].progress + n == log.active[k].def.objective.count
    ensures var r := CollectMany(log, item, n);
      && k !in r.active && k in r.completed
      && r.completed[k] == log.active[k].(progress := log.active[k].def.objective.count, isComplete := true)
  {
    CollectManyProgress(log, item, k, n - 1);
    var prev := CollectMany(log, item, n - 1);
    assert WellFormed(prev) && k in prev.order && Distinct(prev.order);
    PassCollects(prev, prev.order, item, k);
    assert CollectMany(log, item, n) == Pass(prev, prev.order, Collected(item)).log;
  }

  /** `collectResources` needs five digital fragments: after four it is active with progress 4,
      the fifth completes it. */
  lemma FiveFragments(log: Log, rx: real, rz: real)
    requires WellFormed(log) && log.all == All && 0.0 <= rx < 1.0 && 0.0 <= rz < 1.0
    ensures var started := Start(log, "collectResources", rx, rz).log;
      && "collectResources" in CollectMany(started, "digitalFragment", 4).active
      && CollectMany(started, "digitalFragment", 4).active["collectResources"].progress == 4
      && "collectResources" !in CollectMany(started, "digitalFragment", 5).active
      && "collectResources" in CollectMany(started, "digitalFragment", 5).completed
  {
    var started := Start(log, "collectResources", rx, rz).log;
    assert All["collectResources"] == CollectResources;
    assert started.active["collectResources"] == Entry(CollectResources, 0, false);
    CollectManyProgress(started, "digitalFragment", "collectResources", 4);
    CollectManyCompletes(started, "digitalFragment", "collectResources", 5);
  }

  // ---------------------------------------------------------------------------------------------
  // The `Quests` object

  class QuestLog {
    /** `this.all`. */
    const all: map<string, Quest>
    var active: map<string, Entry>
    var order: seq<string>
    var completed: map<string, Entry>
    var activeMarker: Option<Marker>

    function State(): Log
      reads this
    {
      Log(all, active, order, completed, activeMarker)
    }

    constructor ()
      ensures State() == Empty(All) && Keyed(all)
    {
      all := All;
      active, order, completed, activeMarker := map[], [], map[], None;
      Chain();
    }

    /** `startQuest(questId)` (quests.js:130-151). */
    method StartQuest(id: string, rx: real, rz: real) returns (effects: seq<Effect>)
      requires 0.0 <= rx < 1.0 && 0.0 <= rz < 1.0
      modifies this
      ensures State() == Start(old(State()), id, rx, rz).log
      ensures effects == Start(old(State()), id, rx, rz).effects
    {
      if id !in all {
        return [];
      }
      var quest := all[id];
      if id !in active {
        order := order + [id];
      }
      active := active[id := Entry(quest, 0, false)];
      effects := [Notify(Notice("New Quest", quest.description, 8000))];
      if quest.objective.Location? {
        CreateQuestMarker(quest, rx, rz);
      }
      effects := effects + [Emit(QuestStarted(id, quest.title, quest.description))];
    }

    /** `createQuestMarker(quest)` (quests.js:156-206): the new marker replaces the old one. */
    method CreateQuestMarker(quest: Quest, rx: real, rz: real)
      requires 0.0 <= rx < 1.0 && 0.0 <= rz < 1.0
      modifies this
      ensures activeMarker == Some(Marker(MarkerAt(quest.objective.target, rx, rz), quest.id))
      ensures active == old(active) && order == old(order) && completed == old(completed)
    {
      activeMarker := Some(Marker(MarkerAt(quest.objective.target, rx, rz), quest.id));
    }

    /** `completeQuest(questId)` (quests.js:308-337). */
    method CompleteQuest(id: string) returns (effects: seq<Effect>)
      modifies this
      ensures State() == Complete(old(State()), id).log
      ensures effects == Complete(old(State()), id).effects
    {
      if id !in active || active[id].isComplete {
        return [];
      }
      var quest := active[id].(isComplete := true);
      completed := completed[id := quest];
      active := active - {id};
      order := Without(order, id);
      if activeMarker.Some? && activeMarker.value.quest == id {
        activeMarker := None;
      }
      effects := [Notify(Notice("Quest Completed", "You have completed: " + quest.def.title, 5000)),
                  Emit(QuestCompleted(id, quest.def.title))];
      if quest.def.nextQuest.Some? {
        effects := effects + [Schedule(5000, StartQuestLater(quest.def.nextQuest.value))];
      }
    }

    /** `getQuestMarkers()`. */
    function GetQuestMarkers(): (ms: seq<Marker>)
      reads this
      ensures ms == Markers(State())
    {
      if activeMarker.Some? then [activeMarker.value] else []
    }

    /** `checkLocationObjective(quest, playerPosition)` (quests.js:234-244). */
    method CheckLocationObjective(e: Entry, p: Vec3) returns (effects: seq<Effect>)
      requires e.def.objective.Location?
      modifies this
      ensures State() == CheckLocation(old(State()), e, p).log
      ensures effects == CheckLocation(old(State()), e, p).effects
    {
      if activeMarker.None? {
        return [];
      }
      if DistSq(p, activeMarker.value.position) <= e.def.objective.distance * e.def.objective.distance {
        effects := CompleteQuest(e.def.id);
      } else {
        effects := [];
      }
    }

    /** The body of the for-in loops, for one key. */
    method VisitKey(id: string, t: Trigger) returns (effects: seq<Effect>)
      modifies this
      ensures State() == Visit(old(State()), id, t).log
      ensures effects == Visit(old(State()), id, t).effects
    {
      if id !in active {
        return [];
      }
      var e := active[id];
      if !Targets(e.def.objective, t) || e.isComplete {
        return [];
      }
      match t {
        case TalkedTo(_) =>
          effects := CompleteQuest(id);
        case Played(_) =>
          effects := CompleteQuest(id);
        case Collected(item) =>
          var bumped := e.(progress := e.progress + 1);
          active := active[id := bumped];
          if bumped.progress >= e.def.objective.count {
            effects := CompleteQuest(id);
          } else {
            effects := [Notify(Notice(e.def.title, ProgressText(bumped.progress, e.def.objective.count, item), 3000))];
          }
        case Near(p) =>
          effects := CheckLocationObjective(e, p);
      }
    }

    /** `for (const questId in this.active)`: the keys present when the loop starts, in order,
        each skipped if it has been deleted by the time the loop reaches it. */
    method Sweep(t: Trigger) returns (effects: seq<Effect>)
      modifies this
      ensures State() == Pass(old(State()), old(order), t).log
      ensures effects == Pass(old(State()), old(order), t).effects
    {
      var keys := order;
      effects := [];
      var i := 0;
      while i < |keys|
        invariant 0 <= i <= |keys|
        invariant State() == Pass(old(State()), keys[..i], t).log
        invariant effects == Pass(old(State()), keys[..i], t).effects
      {
        PassPrefix(old(State()), keys, i, t);
        var more := VisitKey(keys[i], t);
        effects := effects + more;
        i := i + 1;
      }
      assert keys[..i] == keys;
    }

    /** `checkDialogueObjectives(npcType)` (quests.js:249-259). */
    method CheckDialogueObjectives(npcType: string) returns (effects: seq<Effect>)
      modifies this
      ensures State() == Pass(old(State()), old(order), TalkedTo(npcType)).log
      ensures effects == Pass(old(State()), old(order), TalkedTo(npcType)).effects
    {
      effects := Sweep(TalkedTo(npcType));
    }

    /** `checkMiniGameObjectives(gameType)` (quests.js:264-274). */
    method CheckMiniGameObjectives(gameType: string) returns (effects: seq<Effect>)
      modifies this
      ensures State() == Pass(old(State()), old(order), Played(gameType)).log
      ensures effects == Pass(old(State()), old(order), Played(gameType)).effects
    {
      effects := Sweep(Played(gameType));
    }

    /** `checkItemObjectives(itemType)` (quests.js:279-303). */
    method CheckItemObjectives(itemType: string) returns (effects: seq<Effect>)
      modifies this
      ensures State() == Pass(old(State()), old(order), Collected(itemType)).log
      ensures effects == Pass(old(State()), old(order), Collected(itemType)).effects
    {
      effects := Sweep(Collected(itemType));
    }

    /** `update(playerPosition)` (quests.js:211-229); `bob` is the marker's sine offset. */
    method Update(player: Vec3, bob: real) returns (effects: seq<Effect>)
      requires -0.3 <= bob <= 0.3
      modifies this
      ensures State() == UpdateLog(old(State()), player, bob).log
      ensures effects == UpdateLog(old(State()), player, bob).effects
    {
      if |active| == 0 {
        return [];
      }
      effects := Sweep(Near(player));
      if activeMarker.Some? {
        activeMarker := Some(activeMarker.value.(position := activeMarker.value.position.(y := 1.0 + bob)));
      }
    }
  }
}
