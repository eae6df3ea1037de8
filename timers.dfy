/** An explicit wall-clock scheduler standing in for the browser's `setTimeout` and `setInterval`
    queue: a list of pending (due time, task) pairs in the order they were set. The earliest due
    timer fires first; among timers due at the same time the one set first fires first. The
    clock only moves forward. */
module Timers {
  import opened Common
  import opened Effects

  datatype Timer = Timer(due: int, task: Task)

  /** `k` is the timer that fires next: none is due earlier, none set before it is due as early. */
  predicate FiresNext(timers: seq<Timer>, k: nat)
  {
    && k < |timers|
    && (forall j :: 0 <= j < |timers| ==> timers[k].due <= timers[j].due)
    && (forall j :: 0 <= j < k ==> timers[k].due < timers[j].due)
  }

  /** At most one timer can be the next to fire. */
  lemma FiresNextUnique(timers: seq<Timer>, k1: nat, k2: nat)
    requires FiresNext(timers, k1) && FiresNext(timers, k2)
    ensures k1 == k2
  {
    assert timers[k1].due <= timers[k2].due && timers[k2].due <= timers[k1].due;
  }

  class Scheduler {
    var now: int
    var timers: seq<Timer>

    constructor (start: int)
      ensures now == start && timers == []
    {
      now := start;
      timers := [];
    }

    /** `setTimeout(task, delay)`: due `delay` milliseconds from now, queued behind the others. */
    method SetTimeout(delayMs: nat, task: Task)
      modifies this
      ensures timers == old(timers) + [Timer(old(now) + delayMs, task)]
      ensures now == old(now)
    {
      timers := timers + [Timer(now + delayMs, task)];
    }

    /** The position of the timer that fires next, if any is pending. */
    method NextIndex() returns (k: Option<nat>)
      ensures timers == [] <==> k.None?
      ensures k.Some? ==> FiresNext(timers, k.value)
    {
      if timers == [] {
        return None;
      }
      var best := 0;
      var i := 1;
      while i < |timers|
        invariant 1 <= i <= |timers|
        invariant best < i
        invariant forall j :: 0 <= j < i ==> timers[best].due <= timers[j].due
        invariant forall j :: 0 <= j < best ==> timers[best].due < timers[j].due
      {
        if timers[i].due < timers[best].due {
          best := i;
        }
        i := i + 1;
      }
      return Some(best);
    }

    /** Lets the clock run until the next timer is due and removes that timer, returning its
        task; with nothing pending, nothing happens. */
    method Fire() returns (task: Option<Task>)
      modifies this
      ensures old(timers) == [] ==> task.None? && timers == [] && now == old(now)
      ensures old(timers) != [] ==>
        exists k: nat ::
          && FiresNext(old(timers), k)
          && task == Some(old(timers)[k].task)
          && timers == old(timers)[..k] + old(timers)[k + 1..]
          && now == if old(timers)[k].due > old(now) then old(timers)[k].due else old(now)
    {
      var k := NextIndex();
      if k.None? {
        return None;
      }
      var t := timers[k.value];
      timers := timers[..k.value] + timers[k.value + 1..];
      if t.due > now {
        now := t.due;
      }
      return Some(t.task);
    }
  }
}
