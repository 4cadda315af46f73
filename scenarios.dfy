/**
 * Worked runs of the hook, from construction to teardown, each returning
 * what an observer of the callback or of the element would see.
 */
module Scenarios {
  import opened Options
  import opened Gesture
  import opened Listeners
  import opened Drag

  /** A hook rendered once unmounted, then mounted on a new element and rendered again. */
  method AttachedHook() returns (hook: UseDrag, element: Element)
    ensures fresh(hook) && fresh(element) && hook.Valid()
    ensures hook.mounted == Some(element) && hook.start == None && hook.callbackLog == []
    ensures hook.AttachedOn(element, NoListeners, [])
  {
    element := new Element();
    hook := new UseDrag();
    hook.Render();
    hook.Mount(element);
    hook.Render();
  }

  /**
   * An element whose box starts at (10, 10): pointerdown at (50, 50), move
   * to (90, 80), pointerup at (200, 300).
   */
  method DragAcrossElement() returns (originAfterDown: Option<Point>, log: seq<DragEvent>, originAfterUp: Option<Point>)
    ensures originAfterDown == Some(Point(40.0, 40.0))
    ensures log == [DragEvent(Move, 50.0, 40.0), DragEvent(End, 200.0, 300.0)]
    ensures originAfterUp == None
  {
    var hook, element := AttachedHook();
    hook.OnPointerDown(50, 50, Rect(10.0, 10.0));
    originAfterDown := hook.start;
    hook.OnPointerMove(90, 80);
    hook.OnPointerUp(200, 300);
    log := hook.callbackLog;
    originAfterUp := hook.start;
  }

  /** A pointermove with no pointerdown before it reaches no callback. */
  method MoveWithoutDown() returns (log: seq<DragEvent>)
    ensures log == []
  {
    var hook, element := AttachedHook();
    hook.OnPointerMove(90, 80);
    log := hook.callbackLog;
  }

  /**
   * Teardown in the middle of a drag: all three listeners leave the element,
   * which is back to its state before the hook attached; no End is reported,
   * and the origin is left as it was.
   */
  method DestroyWhileDragging() returns (log: seq<DragEvent>, listeners: Registry, origin: Option<Point>)
    ensures log == []
    ensures listeners == NoListeners
    ensures Registered(listeners, PointerDown) == {}
    ensures Registered(listeners, PointerMove) == {}
    ensures Registered(listeners, PointerUp) == {}
    ensures origin == Some(Point(40.0, 40.0))
  {
    var hook, element := AttachedHook();
    hook.OnPointerDown(50, 50, Rect(10.0, 10.0));
    hook.Destroy();
    log, listeners, origin := hook.callbackLog, element.listeners, hook.start;
  }

  /**
   * Destroying twice: each kind is registered once and unregistered once,
   * the second teardown making no platform call.
   */
  method DestroyTwice() returns (calls: seq<PlatformCall>)
    ensures |calls| == 6
    ensures calls[..3] == [Add(PointerMove, calls[0].handler), Add(PointerDown, calls[1].handler), Add(PointerUp, calls[2].handler)]
    ensures calls[3..] == [Remove(PointerDown, calls[1].handler), Remove(PointerMove, calls[0].handler), Remove(PointerUp, calls[2].handler)]
  {
    var hook, element := AttachedHook();
    hook.Destroy();
    hook.Destroy();
    calls := element.calls;
  }

  /** Destroying a hook that was never mounted does nothing, however often. */
  method DestroyUnmounted() returns (slotFilled: bool, log: seq<DragEvent>)
    ensures !slotFilled && log == []
  {
    var hook := new UseDrag();
    hook.Render();
    hook.Destroy();
    hook.Destroy();
    slotFilled := hook.onPointerDown.Some? || hook.onPointerMove.Some? || hook.onPointerUp.Some?;
    log := hook.callbackLog;
  }

  /**
   * Mounting a second element while attached: the effect does not run
   * again, so the first element keeps exactly one listener per kind and the
   * second gets none.
   */
  method Remounted() returns (hook: UseDrag, first: Element, second: Element)
    ensures fresh(hook) && fresh(first) && fresh(second) && hook.Valid()
    ensures hook.mounted == Some(second) && hook.attachment.Some? && hook.attachment.value.element == first
    ensures hook.onPointerDown.Some? && hook.onPointerMove.Some? && hook.onPointerUp.Some?
    ensures |Registered(first.listeners, PointerDown)| == 1 && |Registered(first.listeners, PointerMove)| == 1
    ensures |Registered(first.listeners, PointerUp)| == 1
    ensures second.listeners == NoListeners && second.calls == []
  {
    hook, first := AttachedHook();
    second := new Element();
    hook.Mount(second);
    hook.Render();
  }

  /**
   * Teardown after a remount unregisters from the second element only; the
   * first element's listeners stay.
   */
  method RemountThenDestroy() returns (first: Registry, second: Registry, secondCalls: seq<PlatformCall>)
    ensures |Registered(first, PointerDown)| == 1 && |Registered(first, PointerMove)| == 1
    ensures |Registered(first, PointerUp)| == 1
    ensures second == NoListeners
    ensures |secondCalls| == 3 && secondCalls[0].Remove? && secondCalls[1].Remove? && secondCalls[2].Remove?
  {
    var hook, a, b := Remounted();
    hook.Destroy();
    first, second, secondCalls := a.listeners, b.listeners, b.calls;
  }
}
