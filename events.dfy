/** The publish/subscribe bus `Utils.events` (utils.js:115-142): a table from event name to the
    callbacks registered for it, in registration order.

    Callbacks are values of a type parameter `C`; JavaScript compares callbacks by identity
    (`cb !== callback`), which is `==` on `C` here. */
module EventBus {
  import opened Common
  import opened Utils

  type Table<C> = map<string, seq<C>>

  /** The callbacks registered for `e`; an event without a list has none. */
  function ListenersOf<C>(t: Table<C>, e: string): seq<C>
  {
    if e in t then t[e] else []
  }

  /** `on(e, cb)`: create the list on first use, then push `cb` at its end. */
  function AddListener<C>(t: Table<C>, e: string, cb: C): (r: Table<C>)
    ensures r.Keys == t.Keys + {e}
    ensures ListenersOf(r, e) == ListenersOf(t, e) + [cb]
    ensures forall x :: x != e ==> ListenersOf(r, x) == ListenersOf(t, x)
  {
    t[e := ListenersOf(t, e) + [cb]]
  }

  /** `off(e, cb)` with `cb` = `Some(c)` filters `c` out of the list; `off(e)` (no callback, `None`)
      deletes the list; `off` on an event without a list changes nothing. */
  function RemoveListener<C(==,!new)>(t: Table<C>, e: string, cb: Option<C>): (r: Table<C>)
    ensures e !in t ==> r == t
    ensures e in t && cb.Some? ==> e in r && ListenersOf(r, e) == Without(ListenersOf(t, e), cb.value)
    ensures e in t && cb.None? ==> e !in r && ListenersOf(r, e) == []
    ensures forall x :: x != e ==> (x in r <==> x in t) && ListenersOf(r, x) == ListenersOf(t, x)
  {
    if e !in t then t
    else if cb.Some? then t[e := Without(t[e], cb.value)]
    else t - {e}
  }

  /** Registering the same callback twice gives two entries, and `emit` would call it twice. */
  lemma DoubleRegistration<C>(t: Table<C>, e: string, cb: C)
    ensures var r := AddListener(AddListener(t, e, cb), e, cb);
      ListenersOf(r, e) == ListenersOf(t, e) + [cb, cb]
  {
    var r1 := AddListener(t, e, cb);
    assert ListenersOf(r1, e) + [cb] == ListenersOf(t, e) + [cb, cb];
  }

  /** A subscription followed by the matching `off(e, cb)` leaves no copy of `cb`, while every
      other callback keeps its place. */
  lemma {:induction false} OnThenOff<C(!new)>(t: Table<C>, e: string, cb: C)
    ensures var r := RemoveListener(AddListener(t, e, cb), e, Some(cb));
      ListenersOf(r, e) == Without(ListenersOf(t, e), cb)
  {
    var l := ListenersOf(t, e);
    WithoutConcat(l, [cb], cb);
    assert Without([cb], cb) == [];
  }

  /** A change of the table made by a callback while an `emit` is in progress. */
  datatype Op<C> = Subscribe(event: string, cb: C) | Unsubscribe(event: string, which: Option<C>)

  function Apply<C(==,!new)>(t: Table<C>, op: Op<C>): Table<C>
  {
    match op
    case Subscribe(e, c) => AddListener(t, e, c)
    case Unsubscribe(e, c) => RemoveListener(t, e, c)
  }

  /** The table after the operations, applied first to last. */
  function ApplyAll<C(==,!new)>(t: Table<C>, ops: seq<Op<C>>): Table<C>
    decreases |ops|
  {
    if ops == [] then t else Apply(ApplyAll(t, ops[..|ops| - 1]), ops[|ops| - 1])
  }

  lemma {:induction false} ApplyAllAppend<C(!new)>(t: Table<C>, a: seq<Op<C>>, b: seq<Op<C>>)
    ensures ApplyAll(t, a + b) == ApplyAll(ApplyAll(t, a), b)
    decreases |b|
  {
    if b != [] {
      assert (a + b)[..|a + b| - 1] == a + b[..|b| - 1];
      assert (a + b)[|a + b| - 1] == b[|b| - 1];
      ApplyAllAppend(t, a, b[..|b| - 1]);
    } else {
      assert a + b == a;
    }
  }

  /** The operations the callbacks `calls` perform, in the order they are called. */
  function Reactions<C>(calls: seq<C>, react: C -> seq<Op<C>>): seq<Op<C>>
    decreases |calls|
  {
    if calls == [] then [] else Reactions(calls[..|calls| - 1], react) + react(calls[|calls| - 1])
  }

  /** The bus object with its mutable listener table. */
  class Bus<C(==,!new)> {
    var listeners: Table<C>

    constructor ()
      ensures listeners == map[]
    {
      listeners := map[];
    }

    /** `events.on` (utils.js:118-123). */
    method On(e: string, cb: C)
      modifies this
      ensures listeners == AddListener(old(listeners), e, cb)
    {
      if e !in listeners {
        listeners := listeners[e := []];
      }
      listeners := listeners[e := listeners[e] + [cb]];
    }

    /** `events.off` (utils.js:125-133); `None` is a call without a callback. */
    method Off(e: string, cb: Option<C>)
      modifies this
      ensures listeners == RemoveListener(old(listeners), e, cb)
    {
      if e !in listeners {
        return;
      }
      if cb.Some? {
        listeners := listeners[e := Without(listeners[e], cb.value)];
      } else {
        listeners := listeners - {e};
      }
    }

    /** `events.emit` (utils.js:135-141) when no callback touches the table: the callbacks called,
        in the order they are called (each with the same arguments). */
    method Emit(e: string) returns (calls: seq<C>)
      ensures calls == ListenersOf(listeners, e)
    {
      calls := [];
      if e !in listeners {
        return;
      }
      var list := listeners[e];
      var i := 0;
      while i < |list|
        invariant 0 <= i <= |list|
        invariant calls == list[..i]
      {
        calls := calls + [list[i]];
        i := i + 1;
      }
    }

    /** `events.emit` when each callback, as it runs, may subscribe and unsubscribe (`react(c)` is
        what callback `c` does to the table). `forEach` walks the array that was current when the
        emit began: `off` assigns a fresh filtered array and `on` pushes past the length `forEach`
        fixed at the start, so exactly the callbacks registered at the start are called, once each,
        in order, whatever they do to the table. */
    method EmitWith(e: string, react: C -> seq<Op<C>>) returns (calls: seq<C>)
      modifies this
      ensures calls == ListenersOf(old(listeners), e)
      ensures listeners == ApplyAll(old(listeners), Reactions(calls, react))
    {
      calls := [];
      if e !in listeners {
        return;
      }
      var list := listeners[e];
      var i := 0;
      while i < |list|
        invariant 0 <= i <= |list|
        invariant calls == list[..i]
        invariant listeners == ApplyAll(old(listeners), Reactions(calls, react))
      {
        var c := list[i];
        ghost var before := Reactions(calls, react);
        ApplyOps(react(c));
        ApplyAllAppend(old(listeners), before, react(c));
        calls := calls + [c];
        assert calls[..|calls| - 1] == list[..i];
        i := i + 1;
      }
    }

    /** Performs the table operations a callback makes, first to last. */
    method ApplyOps(ops: seq<Op<C>>)
      modifies this
      ensures listeners == ApplyAll(old(listeners), ops)
    {
      var i := 0;
      while i < |ops|
        invariant 0 <= i <= |ops|
        invariant listeners == ApplyAll(old(listeners), ops[..i])
        decreases |ops| - i
      {
        assert ops[..i + 1][..i] == ops[..i];
        match ops[i] {
          case Subscribe(e, c) => On(e, c);
          case Unsubscribe(e, c) => Off(e, c);
        }
        i := i + 1;
      }
      assert ops[..i] == ops;
    }
  }
}
