/** The countdown of `UI` (ui.js): a whole number of seconds shown as "DD:HH:MM:SS", ticked down
    once a second by an interval, with five milestone events on the way and `ascension` at the
    end. The DOM text and the two colour styles (border and text, always set together) are
    fields of the state; the countdown interval is the `running` flag plus a `CountdownTick`
    timer that each tick sets again while the interval lives. */
module UI {
  import opened Common
  import opened Utils
  import opened Effects

  datatype Countdown = Countdown(current: int, display: string, colour: Option<string>, running: bool)

  /** `currentCountdown: 864000`, ten days; nothing displayed or coloured before `init`. */
  const Initial := Countdown(864000, "", None, false)

  /** The milestone table of `checkCountdownMilestones` (ui.js:78-84), in its order. */
  const Milestones: seq<(nat, string)> := [
    (864000 - 3600, "nearMilestone"), (691200, "quarterComplete"), (432000, "halfwayPoint"),
    (86400, "finalDay"), (3600, "finalHour")]

  /** The notification each milestone shows (ui.js:91-107); the first three use the default
      duration of `showNotification`, 5000 ms. */
  function MilestoneNotice(name: string): Option<Notice>
  {
    if name == "nearMilestone" then
      Some(Notice("World Shifting", "You feel a subtle change in the atmosphere as Solana begins its ascent.", 5000))
    else if name == "quarterComplete" then
      Some(Notice("Power Surge", "Technological systems throughout the city experience a sudden boost in efficiency.", 5000))
    else if name == "halfwayPoint" then
      Some(Notice("Harmony Rising", "The halfway point approaches! New areas of the city have begun to transform.", 5000))
    else if name == "finalDay" then
      Some(Notice("Final Countdown", "Only 24 hours remain until Solana reaches $1000!", 10000))
    else if name == "finalHour" then
      Some(Notice("Imminent Ascension", "The final hour is upon us. Complete your preparations for utopia!", 10000))
    else None
  }

  /** What one entry of the `forEach` does: on an exact match, emit the event, then notify. */
  function MilestoneStep(current: int, m: (nat, string)): seq<Effect>
  {
    if current != m.0 then []
    else
      var n := MilestoneNotice(m.1);
      [Emit(Milestone(m.1))] + (if n.Some? then [Notify(n.value)] else [])
  }

  /** The `forEach` over the first `|ms|` table entries. */
  function MilestoneEffects(current: int, ms: seq<(nat, string)>): seq<Effect>
    decreases |ms|
  {
    if ms == [] then [] else MilestoneEffects(current, ms[..|ms| - 1]) + MilestoneStep(current, ms[|ms| - 1])
  }

  /** One more table entry adds its own step. */
  lemma EffectsPrefix(current: int, ms: seq<(nat, string)>, i: nat)
    requires i < |ms|
    ensures MilestoneEffects(current, ms[..i + 1]) == MilestoneEffects(current, ms[..i]) + MilestoneStep(current, ms[i])
  {
    assert ms[..i + 1][..i] == ms[..i];
  }

  /** The events of the table entries whose time is exactly `t`, in table order. */
  function Matching(t: int, ms: seq<(nat, string)>): seq<Event>
    decreases |ms|
  {
    if ms == [] then []
    else Matching(t, ms[..|ms| - 1]) + (if t == ms[|ms| - 1].0 then [Milestone(ms[|ms| - 1].1)] else [])
  }

  /** The `forEach` emits exactly the matching entries' events, in table order. */
  lemma {:induction false} MilestoneEmits(t: int, ms: seq<(nat, string)>)
    ensures Emitted(MilestoneEffects(t, ms)) == Matching(t, ms)
    decreases |ms|
  {
    if ms != [] {
      MilestoneEmits(t, ms[..|ms| - 1]);
      StepEmits(t, ms[|ms| - 1]);
      EmittedAppend(MilestoneEffects(t, ms[..|ms| - 1]), MilestoneStep(t, ms[|ms| - 1]));
    }
  }

  /** A milestone fires exactly on its own second, and on no other: the times are distinct. */
  lemma MilestoneMatch(t: int)
    ensures t == 860400 ==> Emitted(MilestoneEffects(t, Milestones)) == [Milestone("nearMilestone")]
    ensures t == 691200 ==> Emitted(MilestoneEffects(t, Milestones)) == [Milestone("quarterComplete")]
    ensures t == 432000 ==> Emitted(MilestoneEffects(t, Milestones)) == [Milestone("halfwayPoint")]
    ensures t == 86400 ==> Emitted(MilestoneEffects(t, Milestones)) == [Milestone("finalDay")]
    ensures t == 3600 ==> Emitted(MilestoneEffects(t, Milestones)) == [Milestone("finalHour")]
    ensures t !in {860400, 691200, 432000, 86400, 3600} ==> Emitted(MilestoneEffects(t, Milestones)) == []
  {
    MilestoneEmits(t, Milestones);
    MatchingTable(t);
  }

  lemma MatchingTable(t: int)
    ensures Matching(t, Milestones) ==
      (if t == 860400 then [Milestone("nearMilestone")] else []) +
      (if t == 691200 then [Milestone("quarterComplete")] else []) +
      (if t == 432000 then [Milestone("halfwayPoint")] else []) +
      (if t == 86400 then [Milestone("finalDay")] else []) +
      (if t == 3600 then [Milestone("finalHour")] else [])
  {
    var ms: seq<(nat, string)> := Milestones;
    var m0: seq<Event> := if t == 860400 then [Milestone("nearMilestone")] else [];
    var m1: seq<Event> := if t == 691200 then [Milestone("quarterComplete")] else [];
    var m2: seq<Event> := if t == 432000 then [Milestone("halfwayPoint")] else [];
    var m3: seq<Event> := if t == 86400 then [Milestone("finalDay")] else [];
    var m4: seq<Event> := if t == 3600 then [Milestone("finalHour")] else [];
    var none: seq<(nat, string)> := [];
    assert ms[..1][..0] == none;
    assert Matching(t, ms[..1]) == m0;
    assert ms[..2][..1] == ms[..1];
    assert Matching(t, ms[..2]) == m0 + m1;
    assert ms[..3][..2] == ms[..2];
    assert Matching(t, ms[..3]) == m0 + m1 + m2;
    assert ms[..4][..3] == ms[..3];
    assert Matching(t, ms[..4]) == m0 + m1 + m2 + m3;
    assert ms[..4] == ms[..|ms| - 1];
  }

  /** One table entry emits its own event on a match and nothing otherwise. */
  lemma StepEmits(t: int, m: (nat, string))
    ensures Emitted(MilestoneStep(t, m)) == if t == m.0 then [Milestone(m.1)] else []
  {
    if t == m.0 {
      var n := MilestoneNotice(m.1);
      var tail: seq<Effect> := if n.Some? then [Notify(n.value)] else [];
      EmittedAppend([Emit(Milestone(m.1))], tail);
      assert [Emit(Milestone(m.1))][..0] == [];
      if n.Some? {
        assert [Notify(n.value)][..0] == [];
      }
    }
  }

  /** `updateCountdown` colour rule (ui.js:64-70): below one day orange-red, below three days
      orange, otherwise the styles stay as they were. */
  function Colour(current: int, before: Option<string>): (c: Option<string>)
    ensures current < 86400 ==> c == Some("#FF4500")
    ensures 86400 <= current < 259200 ==> c == Some("#FFA500")
    ensures 259200 <= current ==> c == before
  {
    if current < 86400 then Some("#FF4500")
    else if current < 259200 then Some("#FFA500")
    else before
  }

  /** `updateCountdown` (ui.js:60-71). */
  function Refresh(c: Countdown): (r: Countdown)
    requires c.current >= 0
  {
    c.(display := FormatTime(c.current), colour := Colour(c.current, c.colour))
  }

  /** The result of a countdown operation. */
  datatype CStep = CStep(state: Countdown, effects: seq<Effect>)

  /** `handleCountdownEnd` (ui.js:115-135): the final display, the green styles, `ascension`,
      then the notification. */
  function End(c: Countdown): (r: CStep)
    ensures r.state.display == "00:00:00:00" && r.state.colour == Some("#14F195")
    ensures r.state.current == c.current && r.state.running == c.running
    ensures Emitted(r.effects) == [Ascension]
  {
    var effects := [Emit(Ascension),
      Notify(Notice("ASCENSION ACHIEVED", "Solana has reached $1000! The world is transforming into utopia!", 15000))];
    assert effects[..1] == [Emit(Ascension)] && effects[..1][..0] == [];
    CStep(c.(display := "00:00:00:00", colour := Some("#14F195")), effects)
  }

  /** `startCountdown` (ui.js:36-55): show the time at once, then start the interval. */
  function Begin(c: Countdown): (r: CStep)
    requires c.current >= 0
    ensures r.state.running && r.state.current == c.current && r.state.display == FormatTime(c.current)
    ensures r.effects == [Schedule(1000, CountdownTick)]
  {
    CStep(Refresh(c).(running := true), [Schedule(1000, CountdownTick)])
  }

  /** One firing of the interval (ui.js:41-54). The interval's next firing is already due a
      second later when the callback runs, so it comes first; clearing the interval at the end
      cancels it, and then it is not there. */
  function NextSecond(c: Countdown): (r: CStep)
    requires c.running
    ensures r.state.current == c.current - 1
    ensures r.state.running <==> c.current - 1 > 0
    ensures r.state.running ==>
      && r.state.display == FormatTime(c.current - 1)
      && r.state.colour == Colour(c.current - 1, c.colour)
      && Emitted(r.effects) == Emitted(MilestoneEffects(c.current - 1, Milestones))
      && |r.effects| > 0 && r.effects[0] == Schedule(1000, CountdownTick)
    ensures !r.state.running ==>
      && r.state.display == "00:00:00:00"
      && Emitted(r.effects) == [Ascension]
      && forall i :: 0 <= i < |r.effects| ==> !r.effects[i].Schedule?
  {
    var d := c.(current := c.current - 1);
    if d.current <= 0 then End(d.(running := false))
    else
      var m := MilestoneEffects(d.current, Milestones);
      EmittedAppend([Schedule(1000, CountdownTick)], m);
      assert [Schedule(1000, CountdownTick)][..0] == [];
      CStep(Refresh(d), [Schedule(1000, CountdownTick)] + m)
  }

  /** Every tick from `c` until the interval is cleared, effects in order. */
  function Run(c: Countdown): seq<Effect>
    decreases if c.running && c.current > 0 then c.current + 1 else if c.running then 1 else 0
  {
    if !c.running then [] else var r := NextSecond(c); r.effects + Run(r.state)
  }

  /** The events of the table entries whose time lies below `t`, in table order. */
  function Ahead(t: int, ms: seq<(nat, string)>): seq<Event>
    decreases |ms|
  {
    if ms == [] then []
    else Ahead(t, ms[..|ms| - 1]) + (if ms[|ms| - 1].0 < t then [Milestone(ms[|ms| - 1].1)] else [])
  }

  lemma AheadTable(t: int)
    ensures Ahead(t, Milestones) ==
      (if 860400 < t then [Milestone("nearMilestone")] else []) +
      (if 691200 < t then [Milestone("quarterComplete")] else []) +
      (if 432000 < t then [Milestone("halfwayPoint")] else []) +
      (if 86400 < t then [Milestone("finalDay")] else []) +
      (if 3600 < t then [Milestone("finalHour")] else [])
  {
    var ms: seq<(nat, string)> := Milestones;
    var m0: seq<Event> := if 860400 < t then [Milestone("nearMilestone")] else [];
    var m1: seq<Event> := if 691200 < t then [Milestone("quarterComplete")] else [];
    var m2: seq<Event> := if 432000 < t then [Milestone("halfwayPoint")] else [];
    var m3: seq<Event> := if 86400 < t then [Milestone("finalDay")] else [];
    var none: seq<(nat, string)> := [];
    assert ms[..1][..0] == none;
    assert Ahead(t, ms[..1]) == m0;
    assert ms[..2][..1] == ms[..1];
    assert Ahead(t, ms[..2]) == m0 + m1;
    assert ms[..3][..2] == ms[..2];
    assert Ahead(t, ms[..3]) == m0 + m1 + m2;
    assert ms[..4][..3] == ms[..3];
    assert Ahead(t, ms[..4]) == m0 + m1 + m2 + m3;
    assert ms[..4] == ms[..|ms| - 1];
  }

  /** The times of a table strictly decrease. */
  predicate Decreasing(ms: seq<(nat, string)>)
  {
    forall i, j :: 0 <= i < j < |ms| ==> ms[i].0 > ms[j].0
  }

  /** No entry of a table lies below `t` when all of them are at `t` or later. */
  lemma {:induction false} NoneAhead(t: int, ms: seq<(nat, string)>)
    requires forall i :: 0 <= i < |ms| ==> ms[i].0 >= t
    ensures Ahead(t, ms) == []
    decreases |ms|
  {
    if ms != [] {
      NoneAhead(t, ms[..|ms| - 1]);
    }
  }

  /** In a table in decreasing time order, the entries below `t` are those at exactly `t - 1`
      followed by those below `t - 1`. */
  lemma {:induction false} AheadSplit(t: int, ms: seq<(nat, string)>)
    requires Decreasing(ms)
    ensures Ahead(t, ms) == Matching(t - 1, ms) + Ahead(t - 1, ms)
    decreases |ms|
  {
    if ms != [] {
      var init, last := ms[..|ms| - 1], ms[|ms| - 1];
      AheadSplit(t, init);
      if last.0 == t - 1 {
        NoneAhead(t - 1, init);
      }
    }
  }

  /** The entries below `t` are the milestone at `t - 1` (if any) followed by those below `t - 1`. */
  lemma AheadStep(t: int)
    ensures Ahead(t, Milestones) == Emitted(MilestoneEffects(t - 1, Milestones)) + Ahead(t - 1, Milestones)
  {
    MilestoneEmits(t - 1, Milestones);
    AheadSplit(t, Milestones);
  }

  /** A running countdown at `c.current` seconds emits, over the rest of its life, every milestone
      still ahead of it, once each and in table order, and then `ascension` exactly once. */
  lemma {:induction false} RunEmits(c: Countdown)
    requires c.running && c.current >= 1
    ensures Emitted(Run(c)) == Ahead(c.current, Milestones) + [Ascension]
    decreases c.current
  {
    var r := NextSecond(c);
    var rest := Run(r.state);
    assert Run(c) == r.effects + rest;
    EmittedAppend(r.effects, rest);
    AheadStep(c.current);
    var now := Emitted(MilestoneEffects(c.current - 1, Milestones));
    if r.state.running {
      RunEmits(r.state);
      assert Emitted(r.effects) == now;
      assert Emitted(rest) == Ahead(c.current - 1, Milestones) + [Ascension];
      assert Emitted(Run(c)) == now + (Ahead(c.current - 1, Milestones) + [Ascension]);
      var later := Ahead(c.current - 1, Milestones);
      assert Ahead(c.current, Milestones) == now + later;
      AppendAssoc(now, later, [Ascension]);
    } else {
      assert rest == [];
      assert Emitted(r.effects) == [Ascension];
      assert Emitted(rest) == [];
      assert c.current == 1;
      AheadTable(1);
      assert Ahead(1, Milestones) == [];
    }
  }

  lemma AppendAssoc(a: seq<Event>, b: seq<Event>, c: seq<Event>)
    ensures a + (b + c) == (a + b) + c
  {
  }

  /** The countdown starts by showing ten days. */
  lemma StartShowsTenDays()
    ensures Begin(Initial).state.display == "10:00:00:00"
  {
    FormatTenDays();
  }

  /** From the start of the game: nearMilestone, quarterComplete, halfwayPoint, finalDay,
      finalHour, then ascension, and nothing else is emitted by the countdown. */
  lemma WholeCountdown()
    ensures Emitted(Run(Begin(Initial).state)) ==
      [Milestone("nearMilestone"), Milestone("quarterComplete"), Milestone("halfwayPoint"),
       Milestone("finalDay"), Milestone("finalHour")] + [Ascension]
  {
    RunEmits(Begin(Initial).state);
    AheadFromStart();
  }

  lemma AheadFromStart()
    ensures Ahead(864000, Milestones) ==
      [Milestone("nearMilestone"), Milestone("quarterComplete"), Milestone("halfwayPoint"),
       Milestone("finalDay"), Milestone("finalHour")]
  {
    AheadTable(864000);
  }

  // ---------------------------------------------------------------------------------------------
  // The `UI` object

  class CountdownPanel {
    var currentCountdown: int
    var timerText: string
    var colour: Option<string>
    var intervalActive: bool

    function State(): Countdown
      reads this
    {
      Countdown(currentCountdown, timerText, colour, intervalActive)
    }

    constructor ()
      ensures State() == Initial
    {
      currentCountdown, timerText, colour, intervalActive := 864000, "", None, false;
    }

    /** `startCountdown` (ui.js:36-55). */
    method StartCountdown() returns (effects: seq<Effect>)
      requires currentCountdown >= 0
      modifies this
      ensures State() == Begin(old(State())).state && effects == Begin(old(State())).effects
    {
      UpdateCountdown();
      intervalActive := true;
      effects := [Schedule(1000, CountdownTick)];
    }

    /** `updateCountdown` (ui.js:60-71). */
    method UpdateCountdown()
      requires currentCountdown >= 0
      modifies this
      ensures State() == Refresh(old(State()))
    {
      var text := FormatTime(currentCountdown);
      timerText := text;
      if currentCountdown < 86400 {
        colour := Some("#FF4500");
      } else if currentCountdown < 259200 {
        colour := Some("#FFA500");
      }
      assert State() == old(State()).(display := text, colour := colour);
    }

    /** The interval callback (ui.js:41-54). */
    method Tick() returns (effects: seq<Effect>)
      requires intervalActive
      modifies this
      ensures State() == NextSecond(old(State())).state && effects == NextSecond(old(State())).effects
    {
      currentCountdown := currentCountdown - 1;
      if currentCountdown <= 0 {
        intervalActive := false;
        effects := HandleCountdownEnd();
      } else {
        UpdateCountdown();
        var m := CheckCountdownMilestones();
        effects := [Schedule(1000, CountdownTick)] + m;
      }
    }

    /** `checkCountdownMilestones` (ui.js:76-110). */
    method CheckCountdownMilestones() returns (effects: seq<Effect>)
      ensures effects == MilestoneEffects(currentCountdown, Milestones)
    {
      effects := [];
      var i := 0;
      while i < |Milestones|
        invariant 0 <= i <= |Milestones|
        invariant effects == MilestoneEffects(currentCountdown, Milestones[..i])
      {
        EffectsPrefix(currentCountdown, Milestones, i);
        var m := Milestones[i];
        if currentCountdown == m.0 {
          effects := effects + [Emit(Milestone(m.1))];
          var n := MilestoneNotice(m.1);
          if n.Some? {
            effects := effects + [Notify(n.value)];
          }
        }
        i := i + 1;
      }
      assert Milestones[..i] == Milestones;
    }

    /** `handleCountdownEnd` (ui.js:115-135). */
    method HandleCountdownEnd() returns (effects: seq<Effect>)
      modifies this
      ensures State() == End(old(State())).state && effects == End(old(State())).effects
    {
      timerText := "00:00:00:00";
      colour := Some("#14F195");
      effects := [Emit(Ascension),
        Notify(Notice("ASCENSION ACHIEVED", "Solana has reached $1000! The world is transforming into utopia!", 15000))];
    }
  }
}
