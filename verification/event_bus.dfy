/** The game's event bus: a registry from event names to the listeners
    registered for them, in registration order. Listeners are compared by
    identity, so a listener is modelled by its identity. */
module EventBuses {
  import opened Common

  datatype Callback = Callback(id: nat)

  type Registry = map<string, seq<Callback>>

  /** The list `emit(event)` runs: none for an event never registered. */
  function Listeners(m: Registry, event: string): seq<Callback>
  {
    if event in m then m[event] else []
  }

  /** `cbs.filter(cb => cb !== callback)`. */
  function Without(cbs: seq<Callback>, callback: Callback): (r: seq<Callback>)
    ensures |r| <= |cbs|
  {
    FilterMap(cbs, Keep((cb: Callback) => cb != callback))
  }

  /** Removing a listener removes every registration of it and keeps the
      others, in their order. */
  lemma WithoutExactly(cbs: seq<Callback>, callback: Callback, other: Callback)
    ensures callback !in Without(cbs, callback)
    ensures other in Without(cbs, callback) <==> other in cbs && other != callback
    ensures IsSubsequence(Without(cbs, callback), cbs)
  {
    KeepExactly(cbs, (cb: Callback) => cb != callback, callback);
    KeepExactly(cbs, (cb: Callback) => cb != callback, other);
    KeepIsSubsequence(cbs, (cb: Callback) => cb != callback);
  }

  /** Removing a listener that is not registered changes nothing. */
  lemma {:induction false} WithoutAbsent(cbs: seq<Callback>, callback: Callback)
    requires callback !in cbs
    ensures Without(cbs, callback) == cbs
  {
    if cbs != [] {
      WithoutAbsent(cbs[1..], callback);
      assert cbs == [cbs[0]] + cbs[1..];
    }
  }

  /** The registry after `on(event, callback)`. */
  function Added(m: Registry, event: string, callback: Callback): (r: Registry)
    ensures event in r && r[event] == Listeners(m, event) + [callback]
    ensures forall e :: e != event ==> Listeners(r, e) == Listeners(m, e)
  {
    m[event := Listeners(m, event) + [callback]]
  }

  /** The registry after `off(event, callback)`: an unknown event is left
      alone; a known one keeps its key, possibly with an empty list. */
  function Removed(m: Registry, event: string, callback: Callback): (r: Registry)
    ensures r.Keys == m.Keys
    ensures Listeners(r, event) == Without(Listeners(m, event), callback)
    ensures forall e :: e != event ==> Listeners(r, e) == Listeners(m, e)
  {
    if event in m then m[event := Without(m[event], callback)] else m
  }

  /** `off` undoes `on`: registering a listener the event did not have and
      removing it again leaves every event's list as it was. */
  lemma OffUndoesOn(m: Registry, event: string, callback: Callback, e: string)
    requires callback !in Listeners(m, event)
    ensures Listeners(Removed(Added(m, event, callback), event, callback), e) == Listeners(m, e)
  {
    if e == event {
      var cbs := Listeners(m, event);
      FilterMapAppend(cbs, [callback], Keep((cb: Callback) => cb != callback));
      WithoutAbsent(cbs, callback);
      assert FilterMap([callback], Keep((cb: Callback) => cb != callback)) == [];
    }
  }

  /** The registry after `removeAllListeners(event)`. The source tests the
      argument for truthiness, so the empty name clears every event just
      as a missing argument does. */
  function RemoveAll(m: Registry, event: Option<string>): (r: Registry)
    ensures event.Some? && event.value != "" ==> r.Keys == m.Keys - {event.value} &&
                                                  forall e :: e != event.value ==> Listeners(r, e) == Listeners(m, e)
    ensures event.None? || event.value == "" ==> r == map[]
  {
    if event.Some? && event.value != "" then m - {event.value} else map[]
  }

  class GameEventBus {
    var listeners: Registry

    constructor ()
      ensures listeners == map[]
    {
      listeners := map[];
    }

    /** `on(event, callback)`: appended at the end; duplicates are kept. */
    method On(event: string, callback: Callback)
      modifies this
      ensures listeners == Added(old(listeners), event, callback)
    {
      if event !in listeners {
        listeners := listeners[event := []];
      }
      listeners := listeners[event := listeners[event] + [callback]];
    }

    /** `off(event, callback)`. */
    method Off(event: string, callback: Callback)
      modifies this
      ensures listeners == Removed(old(listeners), event, callback)
    {
      if event in listeners {
        listeners := listeners[event := Without(listeners[event], callback)];
      }
    }

    /** `emit(event, ...args)`: the callbacks it invokes, in order. */
    method Emit(event: string) returns (called: seq<Callback>)
      ensures called == Listeners(listeners, event)
    {
      called := [];
      if event in listeners {
        var cbs := listeners[event];
        var i := 0;
        while i < |cbs|
          invariant 0 <= i <= |cbs|
          invariant called == cbs[..i]
        {
          called := called + [cbs[i]];
          i := i + 1;
        }
        assert cbs[..|cbs|] == cbs;
      }
    }

    /** `removeAllListeners(event?)`. */
    method RemoveAllListeners(event: Option<string>)
      modifies this
      ensures listeners == RemoveAll(old(listeners), event)
    {
      if event.Some? && event.value != "" {
        listeners := listeners - {event.value};
      } else {
        listeners := map[];
      }
    }
  }
}
