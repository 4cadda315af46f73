/**
 * The listener manager of src/lib.rs: `add_listener` and `remove_listener`,
 * over a model of the platform element they call into. An element keeps,
 * per event kind, the set of registered handler functions (the platform
 * ignores a second registration of the same function) and a log of every
 * registration call made on it.
 */
module Listeners {
  import opened Options

  datatype EventKind = PointerDown | PointerMove | PointerUp

  /**
   * A `Closure<dyn FnMut(PointerEvent)>`: a platform function object that
   * runs one of the three handler bodies. Each `Closure::new` is a fresh one.
   */
  class Closure {
    const body: EventKind

    constructor (body: EventKind)
      ensures this.body == body
    {
      this.body := body;
    }
  }

  /** A call into the platform's listener API. */
  datatype PlatformCall =
    | Add(kind: EventKind, handler: Closure)
    | Remove(kind: EventKind, handler: Closure)

  /** The handlers registered on an element for each of the three kinds. */
  datatype Registry = Registry(down: set<Closure>, move: set<Closure>, up: set<Closure>)

  const NoListeners := Registry({}, {}, {})

  function Registered(reg: Registry, k: EventKind): set<Closure>
  {
    match k
    case PointerDown => reg.down
    case PointerMove => reg.move
    case PointerUp => reg.up
  }

  /** `reg` with the handlers of kind `k` replaced by `hs`. */
  function WithRegistered(reg: Registry, k: EventKind, hs: set<Closure>): Registry
  {
    match k
    case PointerDown => reg.(down := hs)
    case PointerMove => reg.(move := hs)
    case PointerUp => reg.(up := hs)
  }

  function Register(reg: Registry, k: EventKind, h: Closure): Registry
  {
    WithRegistered(reg, k, Registered(reg, k) + {h})
  }

  function Unregister(reg: Registry, k: EventKind, h: Closure): Registry
  {
    WithRegistered(reg, k, Registered(reg, k) - {h})
  }

  /** Registering adds `h` under `k` and touches no other kind. */
  lemma RegisterAdds(reg: Registry, k: EventKind, h: Closure)
    ensures Registered(Register(reg, k, h), k) == Registered(reg, k) + {h}
    ensures forall k' :: k' != k ==> Registered(Register(reg, k, h), k') == Registered(reg, k')
  {
  }

  /** Unregistering a handler that was just registered restores every kind. */
  lemma UnregisterUndoesRegister(reg: Registry, k: EventKind, h: Closure)
    requires h !in Registered(reg, k)
    ensures Unregister(Register(reg, k, h), k, h) == reg
  {
    assert Registered(reg, k) + {h} - {h} == Registered(reg, k);
  }

  /** The platform element the hook's handlers are attached to. */
  class Element {
    var listeners: Registry
    var calls: seq<PlatformCall>

    constructor ()
      ensures listeners == NoListeners && calls == []
    {
      listeners, calls := NoListeners, [];
    }

    /** `addEventListener(kind, handler)`; registration is assumed to succeed. */
    method AddEventListener(k: EventKind, h: Closure)
      modifies this
      ensures listeners == Register(old(listeners), k, h)
      ensures calls == old(calls) + [Add(k, h)]
    {
      listeners := Register(listeners, k, h);
      calls := calls + [Add(k, h)];
    }

    /** `removeEventListener(kind, handler)`; removing an absent handler is harmless. */
    method RemoveEventListener(k: EventKind, h: Closure)
      modifies this
      ensures listeners == Unregister(old(listeners), k, h)
      ensures calls == old(calls) + [Remove(k, h)]
    {
      listeners := Unregister(listeners, k, h);
      calls := calls + [Remove(k, h)];
    }
  }

  /**
   * `add_listener`: registers the handler in `cell`. The source unwraps the
   * slot, so it must be filled.
   */
  method AddListener(element: Element, k: EventKind, cell: Option<Closure>)
    requires cell.Some?
    modifies element
    ensures element.listeners == Register(old(element.listeners), k, cell.value)
    ensures element.calls == old(element.calls) + [Add(k, cell.value)]
  {
    element.AddEventListener(k, cell.value);
  }

  /**
   * `remove_listener`: takes the handler out of `cell` and, only if there was
   * one, unregisters it. The slot is empty afterwards, so a second call makes
   * no platform call.
   */
  method RemoveListener(element: Element, k: EventKind, cell: Option<Closure>) returns (rest: Option<Closure>)
    modifies element
    ensures rest == None
    ensures cell.None? ==> unchanged(element)
    ensures cell.Some? ==>
      element.listeners == Unregister(old(element.listeners), k, cell.value)
      && element.calls == old(element.calls) + [Remove(k, cell.value)]
  {
    rest := None;
    match cell {
      case None =>
      case Some(h) =>
        element.RemoveEventListener(k, h);
    }
  }
}
