/** The floating action button wired by `SpotPotesApp.setupFAB`: the
    `isPressed` flag shared by its mousedown, mouseup and mouseleave
    handlers, the button's `style.transform`, and whether the handler opens
    the upload modal. */
module Fab {

  datatype MouseEvent = MouseDown | MouseUp | MouseLeave

  const PressedTransform := "scale(0.9)"
  const ReleasedTransform := "scale(1)"

  /** The handlers' state: the closure's `isPressed` and the button's
      transform. */
  datatype FabState = FabState(isPressed: bool, transform: string)

  /** What one event leaves behind, and whether it opened the modal. */
  datatype StepResult = StepResult(state: FabState, opensModal: bool)

  /** The state `setupFAB` starts from; the transform is whatever the page
      had. */
  function Initial(transform: string): FabState {
    FabState(false, transform)
  }

  /** One event handler. The modal opens exactly on a mouseup while
      pressed; a mouseup or mouseleave always clears the flag and a
      mousedown always sets it. */
  function Step(s: FabState, e: MouseEvent): (r: StepResult)
    ensures r.opensModal <==> e == MouseUp && s.isPressed
    ensures r.state.isPressed <==> e == MouseDown
    ensures e == MouseDown ==> r.state.transform == PressedTransform
    ensures e != MouseDown ==> r.state.transform == if s.isPressed then ReleasedTransform else s.transform
  {
    match e
    case MouseDown => StepResult(FabState(true, PressedTransform), false)
    case MouseUp =>
      if s.isPressed then StepResult(FabState(false, ReleasedTransform), true)
      else StepResult(FabState(false, s.transform), false)
    case MouseLeave =>
      if s.isPressed then StepResult(FabState(false, ReleasedTransform), false)
      else StepResult(FabState(false, s.transform), false)
  }

  /** The state after a sequence of events, and how many times the modal
      was opened along the way. */
  function Run(s: FabState, events: seq<MouseEvent>): (FabState, nat)
    decreases |events|
  {
    if events == [] then (s, 0)
    else
      var step := Step(s, events[0]);
      var (last, opens) := Run(step.state, events[1..]);
      (last, opens + if step.opensModal then 1 else 0)
  }

  function CountDowns(events: seq<MouseEvent>): nat {
    if events == [] then 0 else CountDowns(events[1..]) + if events[0] == MouseDown then 1 else 0
  }

  /** Each opening of the modal is paid for by a distinct earlier press:
      the opens plus a press still held at the end never exceed the presses
      in the sequence plus a press held at the start. */
  lemma {:induction false} OpensBoundedByPresses(s: FabState, events: seq<MouseEvent>)
    ensures Run(s, events).1 + (if Run(s, events).0.isPressed then 1 else 0)
            <= CountDowns(events) + (if s.isPressed then 1 else 0)
    decreases |events|
  {
    if events != [] {
      OpensBoundedByPresses(Step(s, events[0]).state, events[1..]);
    }
  }

  /** A sequence without a mousedown, from a released button, never opens
      the modal: in particular a mouseup with no mousedown before it opens
      nothing. */
  lemma NoPressNoModal(transform: string, events: seq<MouseEvent>)
    requires MouseDown !in events
    ensures Run(Initial(transform), events).1 == 0
  {
    CountDownsZero(events);
    OpensBoundedByPresses(Initial(transform), events);
  }

  lemma {:induction false} CountDownsZero(events: seq<MouseEvent>)
    requires MouseDown !in events
    ensures CountDowns(events) == 0
    decreases |events|
  {
    if events != [] {
      assert events[0] != MouseDown;
      CountDownsZero(events[1..]);
    }
  }

  /** The flag only remembers the latest event: after a non-empty
      sequence the button is pressed exactly when the last event was a
      mousedown, and the events before it do not matter. */
  lemma {:induction false} PressedIffLastWasDown(s: FabState, events: seq<MouseEvent>)
    requires events != []
    ensures Run(s, events).0.isPressed <==> events[|events| - 1] == MouseDown
    decreases |events|
  {
    if |events| > 1 {
      PressedIffLastWasDown(Step(s, events[0]).state, events[1..]);
    }
  }

  /** A full click, mousedown then mouseup, opens the modal exactly once
      and leaves the button released at scale(1). */
  lemma ClickOpensOnce(s: FabState)
    ensures Run(s, [MouseDown, MouseUp]) == (FabState(false, ReleasedTransform), 1)
  {
    assert [MouseDown, MouseUp][1..] == [MouseUp];
    assert [MouseUp][1..] == [];
  }

  /** Pressing and then leaving the button cancels the click: no modal. */
  lemma PressThenLeaveCancels(s: FabState)
    ensures Run(s, [MouseDown, MouseLeave, MouseUp]) == (FabState(false, ReleasedTransform), 0)
  {
    assert [MouseDown, MouseLeave, MouseUp][1..] == [MouseLeave, MouseUp];
    assert [MouseLeave, MouseUp][1..] == [MouseUp];
    assert [MouseUp][1..] == [];
  }

  /** The handlers as installed on the page: a closure variable and the
      button's style, updated in place. */
  class FabController {
    var isPressed: bool
    var transform: string

    /** `setupFAB`: `isPressed` starts false. */
    constructor (transform: string)
      ensures isPressed == false && this.transform == transform
    {
      isPressed := false;
      this.transform := transform;
    }

    function State(): FabState
      reads this
    {
      FabState(isPressed, transform)
    }

    method OnMouseDown()
      modifies this
      ensures State() == Step(old(State()), MouseDown).state
    {
      isPressed := true;
      transform := PressedTransform;
    }

    /** Returns whether the upload modal is shown. */
    method OnMouseUp() returns (openModal: bool)
      modifies this
      ensures State() == Step(old(State()), MouseUp).state
      ensures openModal == Step(old(State()), MouseUp).opensModal
    {
      openModal := false;
      if isPressed {
        transform := ReleasedTransform;
        openModal := true;
      }
      isPressed := false;
    }

    method OnMouseLeave()
      modifies this
      ensures State() == Step(old(State()), MouseLeave).state
    {
      if isPressed {
        transform := ReleasedTransform;
      }
      isPressed := false;
    }
  }
}
