/**
 * The gesture state machine of `use_drag` (src/lib.rs), on values: the drag
 * origin and the sequence of callback invocations, and the three pointer
 * handler bodies as functions of them. The imperative hook in drag.dfy is
 * specified by these functions.
 */
module Gesture {
  import opened Options

  /** The phase passed to the user's `on_drag` callback. */
  datatype DragState = Move | End

  /** One invocation `on_drag(state, x, y)` of the user's callback. */
  datatype DragEvent = DragEvent(state: DragState, x: real, y: real)

  /** A point in client space; the drag origin is one, relative to the element. */
  datatype Point = Point(x: real, y: real)

  /** The part of the element's bounding client rectangle the handlers read. */
  datatype Rect = Rect(left: real, top: real)

  /**
   * A pointer event as the three handlers see it: integer client
   * coordinates, and for a pointerdown the element's bounding rectangle at
   * that moment.
   */
  datatype Input =
    | DownAt(clientX: int, clientY: int, rect: Rect)
    | MoveTo(clientX: int, clientY: int)
    | UpAt(clientX: int, clientY: int)

  /** The drag origin (`State::start`) and everything the callback has received. */
  datatype Snapshot = Snapshot(start: Option<Point>, emitted: seq<DragEvent>)

  /** The pointer position relative to the element's top-left corner. */
  function Origin(clientX: int, clientY: int, rect: Rect): Point
  {
    Point(clientX as real - rect.left, clientY as real - rect.top)
  }

  /** pointerdown: overwrite the origin, emit nothing. */
  function OnDown(s: Snapshot, clientX: int, clientY: int, rect: Rect): Snapshot
  {
    s.(start := Some(Origin(clientX, clientY, rect)))
  }

  /** pointermove: while an origin exists, emit the motion relative to it. */
  function OnMove(s: Snapshot, clientX: int, clientY: int): Snapshot
  {
    match s.start
    case None => s
    case Some(o) => s.(emitted := s.emitted + [DragEvent(Move, clientX as real - o.x, clientY as real - o.y)])
  }

  /** pointerup: emit the absolute client position, then drop the origin. */
  function OnUp(s: Snapshot, clientX: int, clientY: int): Snapshot
  {
    Snapshot(None, s.emitted + [DragEvent(End, clientX as real, clientY as real)])
  }

  function Step(s: Snapshot, i: Input): Snapshot
  {
    match i
    case DownAt(x, y, r) => OnDown(s, x, y, r)
    case MoveTo(x, y) => OnMove(s, x, y)
    case UpAt(x, y) => OnUp(s, x, y)
  }

  /** The state after the handlers process `inputs` in dispatch order. */
  function Run(s: Snapshot, inputs: seq<Input>): Snapshot
    decreases |inputs|
  {
    if inputs == [] then s else Step(Run(s, inputs[..|inputs| - 1]), inputs[|inputs| - 1])
  }

  /** The Move events a drag from origin `o` reports for the pointer positions `moves`. */
  function Deltas(o: Point, moves: seq<Input>): (r: seq<DragEvent>)
    requires AllMoves(moves)
    ensures |r| == |moves|
  {
    seq(|moves|, k requires 0 <= k < |moves| =>
      DragEvent(Move, moves[k].clientX as real - o.x, moves[k].clientY as real - o.y))
  }

  predicate AllMoves(inputs: seq<Input>)
  {
    forall k :: 0 <= k < |inputs| ==> inputs[k].MoveTo?
  }

  /** Number of pointerup inputs. */
  function CountUps(inputs: seq<Input>): nat
    decreases |inputs|
  {
    if inputs == [] then 0
    else CountUps(inputs[..|inputs| - 1]) + (if inputs[|inputs| - 1].UpAt? then 1 else 0)
  }

  /** Number of End invocations of the callback. */
  function CountEnds(trace: seq<DragEvent>): nat
    decreases |trace|
  {
    if trace == [] then 0
    else CountEnds(trace[..|trace| - 1]) + (if trace[|trace| - 1].state == End then 1 else 0)
  }

  /**
   * The drag-in-progress condition stated on the inputs alone: some
   * pointerdown is not followed by a pointerup, or the drag was already in
   * progress and no pointerup came at all.
   */
  ghost predicate DownSinceLastUp(wasDragging: bool, inputs: seq<Input>)
  {
    (exists i :: 0 <= i < |inputs| && inputs[i].DownAt? && NoUpFrom(inputs, i + 1))
    || (wasDragging && NoUpFrom(inputs, 0))
  }

  ghost predicate NoUpFrom(inputs: seq<Input>, from: nat)
  {
    forall j :: from <= j < |inputs| ==> !inputs[j].UpAt?
  }

  /** Processing two batches in turn is processing their concatenation. */
  lemma {:induction false} RunAppend(s: Snapshot, a: seq<Input>, b: seq<Input>)
    ensures Run(s, a + b) == Run(Run(s, a), b)
    decreases |b|
  {
    if b == [] {
      assert a + b == a;
    } else {
      assert (a + b)[..|a + b| - 1] == a + b[..|b| - 1];
      RunAppend(s, a, b[..|b| - 1]);
    }
  }

  /** The callback log only grows, by at most one invocation per input. */
  lemma {:induction false} EmittedOnlyGrows(s: Snapshot, inputs: seq<Input>)
    ensures |s.emitted| <= |Run(s, inputs).emitted| <= |s.emitted| + |inputs|
    ensures Run(s, inputs).emitted[..|s.emitted|] == s.emitted
    decreases |inputs|
  {
    if inputs != [] {
      EmittedOnlyGrows(s, inputs[..|inputs| - 1]);
    }
  }

  /** Every pointerup, and nothing else, produces an End invocation. */
  lemma {:induction false} EndsMatchUps(s: Snapshot, inputs: seq<Input>)
    ensures CountEnds(Run(s, inputs).emitted) == CountEnds(s.emitted) + CountUps(inputs)
    decreases |inputs|
  {
    if inputs != [] {
      var init, last := inputs[..|inputs| - 1], inputs[|inputs| - 1];
      EndsMatchUps(s, init);
      var t := Run(s, init);
      match last
      case DownAt(_, _, _) =>
      case MoveTo(x, y) =>
        if t.start.Some? {
          var e := DragEvent(Move, x as real - t.start.value.x, y as real - t.start.value.y);
          assert (t.emitted + [e])[..|t.emitted|] == t.emitted;
        }
      case UpAt(x, y) =>
        var e := DragEvent(End, x as real, y as real);
        assert (t.emitted + [e])[..|t.emitted|] == t.emitted;
    }
  }

  /** Pointer moves while no drag is in progress change nothing at all. */
  lemma {:induction false} IdleMovesEmitNothing(s: Snapshot, moves: seq<Input>)
    requires s.start == None
    requires AllMoves(moves)
    ensures Run(s, moves) == s
    decreases |moves|
  {
    if moves != [] {
      IdleMovesEmitNothing(s, moves[..|moves| - 1]);
    }
  }

  /** Pointer moves never change the origin. */
  lemma {:induction false} MovesKeepOrigin(s: Snapshot, moves: seq<Input>)
    requires AllMoves(moves)
    ensures Run(s, moves).start == s.start
    decreases |moves|
  {
    if moves != [] {
      MovesKeepOrigin(s, moves[..|moves| - 1]);
    }
  }

  /** During a drag from origin `o`, each move reports its position minus `o`. */
  lemma {:induction false} MovesDuringDrag(s: Snapshot, o: Point, moves: seq<Input>)
    requires s.start == Some(o)
    requires AllMoves(moves)
    ensures Run(s, moves) == Snapshot(Some(o), s.emitted + Deltas(o, moves))
    decreases |moves|
  {
    if moves != [] {
      var init := moves[..|moves| - 1];
      MovesDuringDrag(s, o, init);
      assert Deltas(o, moves) == Deltas(o, init) + [Deltas(o, moves)[|moves| - 1]];
    }
  }

  /**
   * A whole gesture: pointerdown, any number of moves, pointerup. The
   * callback receives the moves relative to the origin and then the End
   * position in absolute client coordinates; the origin is gone afterwards.
   */
  lemma GestureTrace(s: Snapshot, x0: int, y0: int, rect: Rect, moves: seq<Input>, x1: int, y1: int)
    requires AllMoves(moves)
    ensures Run(s, [DownAt(x0, y0, rect)] + moves + [UpAt(x1, y1)])
         == Snapshot(None, s.emitted + Deltas(Origin(x0, y0, rect), moves) + [DragEvent(End, x1 as real, y1 as real)])
  {
    var down := [DownAt(x0, y0, rect)];
    var afterDown := Run(s, down);
    assert down[..0] == [];
    RunAppend(s, down, moves);
    MovesDuringDrag(afterDown, Origin(x0, y0, rect), moves);
    RunAppend(s, down + moves, [UpAt(x1, y1)]);
  }

  /** After a pointerdown followed only by moves, the origin is that pointerdown's. */
  lemma OriginIsLastDown(s: Snapshot, inputs: seq<Input>, i: nat)
    requires i < |inputs| && inputs[i].DownAt?
    requires AllMoves(inputs[i + 1..])
    ensures Run(s, inputs).start == Some(Origin(inputs[i].clientX, inputs[i].clientY, inputs[i].rect))
  {
    assert inputs == inputs[..i + 1] + inputs[i + 1..];
    RunAppend(s, inputs[..i + 1], inputs[i + 1..]);
    assert inputs[..i + 1][..i] == inputs[..i];
    MovesKeepOrigin(Run(s, inputs[..i + 1]), inputs[i + 1..]);
  }

  /**
   * A drag is in progress (an origin is present) exactly when some
   * pointerdown has not yet been followed by a pointerup.
   */
  lemma {:induction false} OriginPresentIff(s: Snapshot, inputs: seq<Input>)
    ensures Run(s, inputs).start.Some? <==> DownSinceLastUp(s.start.Some?, inputs)
    decreases |inputs|
  {
    if inputs != [] {
      var n := |inputs| - 1;
      var init := inputs[..n];
      OriginPresentIff(s, init);
      match inputs[n]
      case DownAt(_, _, _) =>
        assert NoUpFrom(inputs, n + 1);
      case MoveTo(_, _) =>
        forall from: nat | from <= n ensures NoUpFrom(inputs, from) <==> NoUpFrom(init, from) {
          if NoUpFrom(init, from) {
            forall j | from <= j < |inputs| ensures !inputs[j].UpAt? {
              if j < n { assert inputs[j] == init[j]; }
            }
          }
          if NoUpFrom(inputs, from) {
            forall j | from <= j < |init| ensures !init[j].UpAt? {
              assert inputs[j] == init[j];
            }
          }
        }
        if DownSinceLastUp(s.start.Some?, inputs) {
          if i :| 0 <= i < |inputs| && inputs[i].DownAt? && NoUpFrom(inputs, i + 1) {
            assert i < n && init[i] == inputs[i];
          }
        }
        if DownSinceLastUp(s.start.Some?, init) {
          if i :| 0 <= i < |init| && init[i].DownAt? && NoUpFrom(init, i + 1) {
            assert inputs[i] == init[i];
          }
        }
      case UpAt(_, _) =>
        assert !NoUpFrom(inputs, 0);
        forall i | 0 <= i < |inputs| && inputs[i].DownAt? ensures !NoUpFrom(inputs, i + 1) {
          assert inputs[n].UpAt?;
        }
    }
  }
}
