/**
 * The `use_drag` hook of src/lib.rs as one object: the fields of its `State`
 * (reached through the `UseRef` shared by every closure), the `UseDrag::mount`
 * entry point, the attach effect, the destroy hook, and the bodies of the
 * three pointer closures.
 *
 * The user's `on_drag` callback is modelled by the log of its invocations,
 * and the `RuntimeGuard` taken by each closure by a ghost counter.
 */
module Drag {
  import opened Options
  import opened Gesture
  import opened Listeners

  /** The effect's one attachment: the element and the closure created per kind. */
  datatype Attachment = Attachment(element: Element, down: Closure, move: Closure, up: Closure)
  {
    function Created(k: EventKind): Closure
    {
      match k
      case PointerDown => down
      case PointerMove => move
      case PointerUp => up
    }

    function Closures(): set<Closure>
    {
      {down, move, up}
    }

    /**
     * In `reg`, kind `k` carries none of the three closures but its own, and
     * a filled slot for `k` holds that closure, registered.
     */
    ghost predicate KindWired(reg: Registry, slot: Option<Closure>, k: EventKind)
    {
      Created(k).body == k
      && Registered(reg, k) * Closures() <= {Created(k)}
      && (slot.Some? ==> slot == Some(Created(k)) && Created(k) in Registered(reg, k))
    }

    ghost predicate Wires(reg: Registry, down': Option<Closure>, move': Option<Closure>, up': Option<Closure>)
    {
      KindWired(reg, down', PointerDown) && KindWired(reg, move', PointerMove) && KindWired(reg, up', PointerUp)
    }
  }

  /** `h` is registered under no kind in `reg`. */
  ghost predicate NotIn(h: Closure, reg: Registry)
  {
    h !in Registered(reg, PointerDown) && h !in Registered(reg, PointerMove) && h !in Registered(reg, PointerUp)
  }

  /**
   * Registering three new closures, one per kind, in the effect's order
   * leaves each kind with exactly its own closure among the three.
   */
  lemma FreshRegistrations(before: Registry, a: Attachment)
    requires NotIn(a.down, before) && NotIn(a.move, before) && NotIn(a.up, before)
    requires a.down.body == PointerDown && a.move.body == PointerMove && a.up.body == PointerUp
    ensures var after := Register(Register(Register(before, PointerMove, a.move), PointerDown, a.down), PointerUp, a.up);
      && Registered(after, PointerMove) == Registered(before, PointerMove) + {a.move}
      && Registered(after, PointerDown) == Registered(before, PointerDown) + {a.down}
      && Registered(after, PointerUp) == Registered(before, PointerUp) + {a.up}
      && a.Wires(after, Some(a.down), Some(a.move), Some(a.up))
  {
    var one := Register(before, PointerMove, a.move);
    var two := Register(one, PointerDown, a.down);
    RegisterAdds(before, PointerMove, a.move);
    RegisterAdds(one, PointerDown, a.down);
    RegisterAdds(two, PointerUp, a.up);
  }

  class UseDrag {
    /** `State::mounted`: the element handed to `mount`, once it was called. */
    var mounted: Option<Element>
    /** `State::on_pointer_down`, `on_pointer_move`, `on_pointer_up`: the listener slots. */
    var onPointerDown: Option<Closure>
    var onPointerMove: Option<Closure>
    var onPointerUp: Option<Closure>
    /** `State::start`: the drag origin, relative to the element. */
    var start: Option<Point>
    /** Every invocation of the `on_drag` callback, oldest first. */
    var callbackLog: seq<DragEvent>
    /**
     * The effect's dependency `mounted.is_some()` as the effect last saw it;
     * `None` before the first render, when the effect always runs.
     */
    var effectKey: Option<bool>

    /** Runtime guards currently held, and how many were ever acquired. */
    ghost var guardDepth: nat
    ghost var guardEntries: nat
    /** The element the effect attached to, with the closures it created there. */
    ghost var attachment: Option<Attachment>

    function Slot(k: EventKind): Option<Closure>
      reads this
    {
      match k
      case PointerDown => onPointerDown
      case PointerMove => onPointerMove
      case PointerUp => onPointerUp
    }

    ghost function Mounted(): set<object>
      reads this
    {
      if mounted.Some? then {mounted.value} else {}
    }

    ghost function Attached(): set<object>
      reads this
    {
      if attachment.Some? then {attachment.value.element} else {}
    }

    /** The closures this hook created; none exist before the effect attached. */
    ghost function HookClosures(): set<Closure>
      reads this
    {
      if attachment.Some? then attachment.value.Closures() else {}
    }

    /** The gesture state machine's view of this hook. */
    function Progress(): Snapshot
      reads this
    {
      Snapshot(start, callbackLog)
    }

    /**
     * The listener slots are all filled or all empty; a filled slot holds
     * the closure registered for its kind on the attached element; and the
     * attached element carries at most one of this hook's closures per kind.
     */
    ghost predicate Wired()
      reads this, Attached()
    {
      (onPointerDown.Some? == onPointerMove.Some?)
      && (onPointerMove.Some? == onPointerUp.Some?)
      && (onPointerDown.Some? ==> attachment.Some?)
      && (attachment.Some? ==>
            attachment.value.Wires(attachment.value.element.listeners, onPointerDown, onPointerMove, onPointerUp))
    }

    /**
     * `Wired`, and the effect has attached exactly when its dependency last
     * read `true`, which it can only have done with an element mounted.
     */
    ghost predicate Valid()
      reads this, Attached()
    {
      Wired()
      && (attachment.Some? <==> effectKey == Some(true))
      && (effectKey == Some(true) ==> mounted.Some?)
    }

    /**
     * The effect's attach step has happened on `el`: three closures, one
     * per kind, each registered on `el` under its kind, in the source's order.
     */
    ghost predicate AttachedOn(el: Element, before: Registry, callsBefore: seq<PlatformCall>)
      reads this, el
    {
      attachment.Some? && attachment.value.element == el
      && onPointerDown.Some? && onPointerMove.Some? && onPointerUp.Some?
      && AddedOn(el, before, PointerDown) && AddedOn(el, before, PointerMove) && AddedOn(el, before, PointerUp)
      && el.calls == callsBefore + [Add(PointerMove, onPointerMove.value),
                                    Add(PointerDown, onPointerDown.value),
                                    Add(PointerUp, onPointerUp.value)]
    }

    /** The slot of kind `k` holds a closure for `k`, newly registered on `el`. */
    ghost predicate AddedOn(el: Element, before: Registry, k: EventKind)
      reads this, el
      requires Slot(k).Some?
    {
      Slot(k).value.body == k && Registered(el.listeners, k) == Registered(before, k) + {Slot(k).value}
    }

    /**
     * While attached, the element carries at most one of this hook's
     * closures per kind, and exactly the slot's closure while the slots are
     * filled.
     */
    lemma OneHandlerPerKind(k: EventKind)
      requires Valid() && attachment.Some?
      ensures |Registered(attachment.value.element.listeners, k) * HookClosures()| <= 1
      ensures Slot(k).Some? ==> Registered(attachment.value.element.listeners, k) * HookClosures() == {Slot(k).value}
    {
      var a := attachment.value;
      var mine := Registered(a.element.listeners, k) * HookClosures();
      assert a.KindWired(a.element.listeners, Slot(k), k) by {
        match k
        case PointerDown =>
        case PointerMove =>
        case PointerUp =>
      }
      if mine != {} {
        assert mine == {a.Created(k)};
      }
    }

    /** `use_ref(cx, || State::default())`: nothing mounted, attached or in progress. */
    constructor ()
      ensures Valid()
      ensures mounted == None && start == None && callbackLog == [] && effectKey == None
      ensures onPointerDown == None && onPointerMove == None && onPointerUp == None
      ensures guardDepth == 0 && guardEntries == 0
    {
      mounted := None;
      onPointerDown, onPointerMove, onPointerUp := None, None, None;
      start := None;
      callbackLog := [];
      effectKey := None;
      guardDepth, guardEntries := 0, 0;
      attachment := None;
    }

    /** `UseDrag::mount`: only `mounted` changes. */
    method Mount(data: Element)
      requires Valid()
      modifies this`mounted
      ensures Valid()
      ensures mounted == Some(data)
    {
      mounted := Some(data);
    }

    /**
     * The body of the effect: when an element is mounted, create the three
     * closures and register each on it (move, down, up).
     */
    method RunEffect()
      requires Wired() && attachment.None?
      modifies this`onPointerDown, this`onPointerMove, this`onPointerUp, this`attachment, Mounted()
      ensures Wired()
      ensures old(mounted).None? ==> attachment == None && onPointerDown == None
      ensures old(mounted).Some? ==>
        AttachedOn(mounted.value, old(mounted.value.listeners), old(mounted.value.calls))
        && fresh(onPointerDown.value) && fresh(onPointerMove.value) && fresh(onPointerUp.value)
    {
      match mounted {
        case None =>
        case Some(element) =>
          ghost var before := element.listeners;
          var m := NewListener(element, PointerMove);
          var d := NewListener(element, PointerDown);
          var u := NewListener(element, PointerUp);
          onPointerMove, onPointerDown, onPointerUp := Some(m), Some(d), Some(u);
          attachment := Some(Attachment(element, d, m, u));
          FreshRegistrations(before, attachment.value);
      }
    }

    /** `Closure::new` for one handler body, then `add_listener` with it. */
    static method NewListener(element: Element, k: EventKind) returns (c: Closure)
      modifies element
      ensures fresh(c) && c.body == k
      ensures element.listeners == Register(old(element.listeners), k, c)
      ensures element.calls == old(element.calls) + [Add(k, c)]
    {
      c := new Closure(k);
      AddListener(element, k, Some(c));
    }

    /**
     * A render of the component: `use_effect` keyed on `mounted.is_some()`
     * runs the effect on the first render and whenever the key changes.
     */
    method Render()
      requires Valid()
      modifies this`effectKey, this`onPointerDown, this`onPointerMove, this`onPointerUp, this`attachment, Mounted()
      ensures Valid()
      ensures effectKey == Some(mounted.Some?)
      ensures old(effectKey) == Some(mounted.Some?) || mounted.None? ==>
        onPointerDown == old(onPointerDown) && onPointerMove == old(onPointerMove)
        && onPointerUp == old(onPointerUp) && attachment == old(attachment) && unchanged(Mounted())
      ensures old(effectKey) != Some(mounted.Some?) && mounted.Some? ==>
        AttachedOn(mounted.value, old(mounted.value.listeners), old(mounted.value.calls))
        && fresh(onPointerDown.value) && fresh(onPointerMove.value) && fresh(onPointerUp.value)
    {
      var key := mounted.Some?;
      if effectKey != Some(key) {
        effectKey := Some(key);
        RunEffect();
      }
    }

    /**
     * The `use_on_destroy` hook: with an element mounted, unregister the
     * down, move and up slots from it; otherwise do nothing. The callback is
     * not invoked and the drag origin is kept.
     */
    method Destroy()
      requires Valid()
      modifies this`onPointerDown, this`onPointerMove, this`onPointerUp, Mounted()
      ensures Valid()
      ensures start == old(start) && callbackLog == old(callbackLog) && mounted == old(mounted)
      ensures old(mounted).None? || old(onPointerDown).None? ==>
        onPointerDown == old(onPointerDown) && onPointerMove == old(onPointerMove)
        && onPointerUp == old(onPointerUp) && unchanged(Mounted())
      ensures old(mounted).Some? ==> onPointerDown == None && onPointerMove == None && onPointerUp == None
      ensures old(mounted).Some? && old(onPointerDown).Some? ==>
        mounted.value.listeners
          == Unregister(Unregister(Unregister(old(mounted.value.listeners),
               PointerDown, old(onPointerDown.value)), PointerMove, old(onPointerMove.value)), PointerUp, old(onPointerUp.value))
        && mounted.value.calls
          == old(mounted.value.calls) + [Remove(PointerDown, old(onPointerDown.value)),
                                         Remove(PointerMove, old(onPointerMove.value)),
                                         Remove(PointerUp, old(onPointerUp.value))]
      ensures (old(mounted).Some? && attachment.Some? && mounted == Some(attachment.value.element)
               && old(onPointerDown).Some?) ==>
        Registered(mounted.value.listeners, PointerDown) * HookClosures() == {}
        && Registered(mounted.value.listeners, PointerMove) * HookClosures() == {}
        && Registered(mounted.value.listeners, PointerUp) * HookClosures() == {}
    {
      match mounted {
        case None =>
        case Some(element) =>
          onPointerDown := RemoveListener(element, PointerDown, onPointerDown);
          onPointerMove := RemoveListener(element, PointerMove, onPointerMove);
          onPointerUp := RemoveListener(element, PointerUp, onPointerUp);
      }
    }

    /** The pointerdown closure: record the pointer position relative to `rect`. */
    method OnPointerDown(clientX: int, clientY: int, rect: Rect)
      requires Valid()
      modifies this`start, this`guardDepth, this`guardEntries
      ensures Valid()
      ensures start == Some(Point(clientX as real - rect.left, clientY as real - rect.top))
      ensures callbackLog == old(callbackLog)
      ensures Progress() == Step(old(Progress()), DownAt(clientX, clientY, rect))
      ensures guardDepth == old(guardDepth) && guardEntries == old(guardEntries) + 1
    {
      guardDepth, guardEntries := guardDepth + 1, guardEntries + 1;
      start := Some(Origin(clientX, clientY, rect));
      guardDepth := guardDepth - 1;
    }

    /** The pointermove closure: report the motion since the origin, if there is one. */
    method OnPointerMove(clientX: int, clientY: int)
      requires Valid()
      modifies this`callbackLog, this`guardDepth, this`guardEntries
      ensures Valid()
      ensures start == old(start)
      ensures old(start).None? ==> callbackLog == old(callbackLog)
      ensures old(start).Some? ==>
        callbackLog == old(callbackLog)
          + [DragEvent(Move, clientX as real - start.value.x, clientY as real - start.value.y)]
      ensures Progress() == Step(old(Progress()), MoveTo(clientX, clientY))
      ensures guardDepth == old(guardDepth) && guardEntries == old(guardEntries) + 1
    {
      guardDepth, guardEntries := guardDepth + 1, guardEntries + 1;
      if start.Some? {
        var (startX, startY) := (start.value.x, start.value.y);
        callbackLog := callbackLog + [DragEvent(Move, clientX as real - startX, clientY as real - startY)];
      }
      guardDepth := guardDepth - 1;
    }

    /** The pointerup closure: report the absolute position, then drop the origin. */
    method OnPointerUp(clientX: int, clientY: int)
      requires Valid()
      modifies this`start, this`callbackLog, this`guardDepth, this`guardEntries
      ensures Valid()
      ensures start == None
      ensures callbackLog == old(callbackLog) + [DragEvent(End, clientX as real, clientY as real)]
      ensures Progress() == Step(old(Progress()), UpAt(clientX, clientY))
      ensures guardDepth == old(guardDepth) && guardEntries == old(guardEntries) + 1
    {
      guardDepth, guardEntries := guardDepth + 1, guardEntries + 1;
      callbackLog := callbackLog + [DragEvent(End, clientX as real, clientY as real)];
      start := None;
      guardDepth := guardDepth - 1;
    }
  }
}
