# use_drag: a verified model of the drag-gesture hook

This project models the core of `dioxus-use-gesture`. That core is the `use_drag` hook in
`src/lib.rs`. The hook attaches `pointerdown`, `pointermove` and `pointerup` listeners to a
mounted element. It keeps a drag origin and reports drag progress to the caller's `on_drag`
callback. When the component is destroyed, it unregisters the listeners.

Files:

- `options.dfy`: the `Option` datatype used by every optional field of the hook's `State`.
- `gesture.dfy` (module `Gesture`): the gesture state machine on values. A `Snapshot` is the
  drag origin (`State::start`) plus the log of callback invocations. `OnDown`, `OnMove`,
  `OnUp` and `Step` are the three handler bodies. `Run` processes a sequence of pointer inputs
  in dispatch order. The lemmas about `Run` state what the hook promises over whole gestures.
- `listeners.dfy` (module `Listeners`): the listener manager. A `Closure` is a platform
  function object, and each `Closure::new` gives a fresh one. An `Element` keeps the set of
  handlers registered per event kind (the platform ignores a duplicate registration) and a log
  of every platform call made on it. `AddListener` and `RemoveListener` model `add_listener`
  and `remove_listener`.
- `drag.dfy` (module `Drag`): class `UseDrag`, which holds the fields of `State` and the
  hook's entry points. `Mount` is `UseDrag::mount`. `Render` is one render, where `use_effect`
  keyed on `mounted.is_some()` may run the effect. `RunEffect` is the effect body. `Destroy` is
  the `use_on_destroy` hook. `OnPointerDown`, `OnPointerMove` and `OnPointerUp` are the
  closure bodies. Each handler method is tied to `Gesture.Step`. `Valid()` is the object
  invariant:
  - the three slots are all filled or all empty;
  - a filled slot holds the closure registered for its kind;
  - the attached element carries at most one of the hook's closures per kind;
  - the effect has attached exactly when its key last read `true`.
- `scenarios.dfy` (module `Scenarios`): complete runs of the hook, each returning what an
  observer sees:
  - the drag on a box at (10, 10): down at (50, 50), move to (90, 80), up at (200, 300);
  - a move with no drag in progress;
  - teardown during a drag;
  - teardown twice;
  - teardown when nothing was mounted;
  - a second mount on another element.

Coordinates: client coordinates are integers, as `client_x()` is in `web_sys`. The bounding
rectangle's `left` and `top` are reals, because `DomRect` reports `f64` values that may be
fractional. The drag origin and the reported values are therefore reals, and only subtraction
is performed on them.

Behaviour as the code has it:

- The `Move` values are relative to the origin. The `End` values are absolute client
  coordinates.
- A second pointerdown overwrites the origin and tells the caller nothing.
- `Destroy` unregisters the listeners but keeps `start` and `mounted`. It emits no `End`.
- Because the effect is keyed on `mounted.is_some()`, mounting a second element does not
  re-attach. Teardown then unregisters from the second element, which never had the
  listeners, and the first element keeps all three (`Scenarios.RemountThenDestroy`).
- Pointerup clears the origin only after the callback has returned.

## Model

| member | source | states |
|---|---|---|
| Gesture.EmittedOnlyGrows | src/lib.rs:43-90 | the handlers never retract a callback invocation; each pointer input adds at most one |
| Gesture.EndsMatchUps | src/lib.rs:81-90 | the number of End invocations grows by exactly the number of pointerups, whether or not a drag was in progress |
| Gesture.IdleMovesEmitNothing | src/lib.rs:47-53 | with no origin, any sequence of pointermoves leaves origin and callback log unchanged |
| Gesture.MovesKeepOrigin | src/lib.rs:43-55 | pointermoves never change the drag origin |
| Gesture.MovesDuringDrag | src/lib.rs:47-53 | during a drag from origin o, each pointermove reports exactly its client position minus o, in order |
| Gesture.GestureTrace | src/lib.rs:43-90 | a full gesture (down, moves, up) reports the move deltas relative to the down's relative origin, then End with the absolute up position, and leaves no origin |
| Gesture.OriginIsLastDown | src/lib.rs:72-75 | after a pointerdown followed only by moves, the origin is that pointerdown's position minus the rectangle's left/top (a later down overwrites an earlier one) |
| Gesture.OriginPresentIff | src/lib.rs:72-88 | an origin is present after a run exactly when some pointerdown has not been followed by a pointerup (or a drag was in progress and no pointerup came) |
| Gesture.RunAppend | src/lib.rs:43-90 | handling two batches of events in turn is handling their concatenation |
| Listeners.RegisterAdds | src/lib.rs:117-125 | registering adds the handler under its kind and leaves the other kinds alone |
| Listeners.UnregisterUndoesRegister | src/lib.rs:127-137 | unregistering a handler just registered restores the registry |
| Listeners.AddListener | src/lib.rs:117-125 | the slot must be filled (the source unwraps it); its handler is registered and one Add call is made |
| Listeners.RemoveListener | src/lib.rs:127-137 | the slot is empty afterwards; a filled slot's handler is unregistered with one Remove call; an empty slot leaves the element untouched |
| Drag.FreshRegistrations | src/lib.rs:43-91 | registering three new closures in the effect's order gives each kind exactly its own closure among them |
| Drag.UseDrag.constructor | src/lib.rs:11-21 | the default `State`: nothing mounted, no slots, no origin, nothing reported |
| Drag.UseDrag.Mount | src/lib.rs:144-146 | only `mounted` changes, to the given element |
| Drag.UseDrag.RunEffect | src/lib.rs:31-93 | with an element mounted, three fresh closures fill the slots and are registered on it, in the order move, down, up; with none, nothing happens |
| Drag.UseDrag.NewListener | src/lib.rs:43-56 | a fresh closure for the given body, registered with one Add call |
| Drag.UseDrag.Render | src/lib.rs:28-31 | the effect runs, and attaches, only when its key `mounted.is_some()` differs from the last one seen; otherwise slots, attachment and element are unchanged |
| Drag.UseDrag.Destroy | src/lib.rs:97-110 | with an element mounted: the slots end empty; filled slots are unregistered in the order down, move, up, with one Remove each; when the mounted element is still the one the effect attached to, none of the hook's closures remain on it; with none mounted, nothing changes; the callback log, `start` and `mounted` are never touched |
| Drag.UseDrag.OnPointerDown | src/lib.rs:61-77 | `start` becomes the client position minus the rectangle's left/top; nothing is reported; the guard is entered once and left once |
| Drag.UseDrag.OnPointerMove | src/lib.rs:43-55 | with an origin, exactly one Move with the client position minus the origin is reported; without one, nothing; `start` is unchanged; the guard depth returns to its entry value on both paths |
| Drag.UseDrag.OnPointerUp | src/lib.rs:81-90 | exactly one End with the absolute client position is reported, then `start` is None; the guard is entered once and left once |
| Drag.UseDrag.OneHandlerPerKind | src/lib.rs:43-91 | while attached, the element carries at most one of the hook's closures per kind, and exactly the slot's closure while the slots are filled |
| Scenarios.AttachedHook | src/lib.rs:28-93 | a fresh hook rendered, mounted and rendered again is attached to its element with no origin and nothing reported |
| Scenarios.DragAcrossElement | src/lib.rs:43-90 | box at (10,10), down (50,50), move (90,80), up (200,300): origin (40,40), callback sees Move(50,40) then End(200,300), origin gone |
| Scenarios.MoveWithoutDown | src/lib.rs:47-53 | a pointermove with no prior pointerdown reaches no callback |
| Scenarios.DestroyWhileDragging | src/lib.rs:97-110 | teardown mid-drag returns the element to no listeners at all, as before attaching; it emits no End and keeps the origin |
| Scenarios.DestroyTwice | src/lib.rs:127-137 | over mount and two teardowns the element sees exactly Add move/down/up, then Remove down/move/up, each handler once |
| Scenarios.DestroyUnmounted | src/lib.rs:97-110 | teardown of a never-mounted hook, twice, fills no slot and reports nothing |
| Scenarios.Remounted | src/lib.rs:28-33 | a second mount on another element does not re-run the effect: the first element keeps one listener per kind, the second gets none |
| Scenarios.RemountThenDestroy | src/lib.rs:97-110 | after a remount, teardown sends its three Remove calls to the second element and the first keeps its listeners |

## Left out

- Lookup of the raw element and its downcast (`get_raw_element().unwrap()`, `downcast_ref().unwrap()`): assumed to succeed, because their panics come from foreign calls.
- The `Result` of `add_event_listener_with_callback` and `remove_event_listener_with_callback`: both calls are assumed to succeed. `AddListener` models only the unwrap of the slot, as a precondition.
- `Runtime::current().unwrap()`, which runs on every render, and the internals of `RuntimeGuard`: the guard is a ghost depth counter and a ghost entry counter.
- Scheduling of `use_effect` and the re-render that `UseRef::write` requests: `Render` is an explicit call, and the effect runs synchronously inside it.
- The `on_drag` value of each render: every render wraps its own `on_drag` in a new cell, but only the cell captured by the effect's future is ever invoked. The model has one `callbackLog`, which stands for the `on_drag` of the render in which the effect ran; callbacks passed on later renders are never called, and the model does not tell them apart.
- `get_bounding_client_rect`: the rectangle is a parameter of `OnPointerDown`. The element that closure captured is therefore not read.
- `f32` and `f64` rounding: coordinates are exact integers and reals.
- A panicking `on_drag` callback, and the `RefCell` borrow panic when the callback re-enters the hook's state: the callback is a log that always accepts.
- Platform event dispatch: the handler methods are called directly. The model does not derive which handlers run from the element's registry.
- Invoking a closure after it has been dropped: not modelled.
- The element's listeners for event kinds other than the three the hook uses.
- `log::info!`, rendering, and the component that owns the hook.
