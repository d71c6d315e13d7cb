/**
 * The gesture tracker the element's constructor registers on the backdrop:
 * two variables shared by a `mousemove` listener and a `done` listener
 * (bound to both `mouseup` and `mouseout`), which call the element's
 * rotate callback. The mouse sample of each move is taken as an abstract
 * angle; how it is computed from the event is not part of this model.
 */
module Gestures {
  import opened Wrappers

  /** What one listener invocation passes to the rotate callback, if anything. */
  datatype Call = NoCall | Rotate(delta: Option<real>)

  /** The closure's variables `previousAngle` and `withinGesture`. */
  datatype Tracker = Tracker(previousAngle: Option<real>, withinGesture: bool)

  /** The tracker as registered: no previous sample, not within a gesture. */
  const Rest: Tracker := Tracker(None, false)

  /** The events the tracker listens to; `held` is a nonzero `event.which`. */
  datatype Input = MouseMove(held: bool, angle: real) | MouseUp | MouseOut

  /** A previous sample is remembered exactly while a gesture is in progress. */
  predicate Consistent(t: Tracker) {
    t.previousAngle.Some? == t.withinGesture
  }

  /** The `mousemove` listener. */
  function Move(t: Tracker, held: bool, angle: real): (res: (Tracker, Call))
    ensures Consistent(t) ==> Consistent(res.0)
    ensures res.1 != Rotate(None)
  {
    if !held then (t, NoCall)
    else
      var call := if t.previousAngle.Some? then Rotate(Some(t.previousAngle.value - angle)) else NoCall;
      (Tracker(Some(angle), true), call)
  }

  /** The `done` listener run on `mouseup` and on `mouseout`. */
  function Done(t: Tracker): (res: (Tracker, Call))
    ensures Consistent(t) ==> res.0 == Rest
    ensures res.1 == NoCall || res.1 == Rotate(None)
  {
    if !t.withinGesture then (t, NoCall)
    else (Tracker(None, false), Rotate(None))
  }

  function Step(t: Tracker, input: Input): (Tracker, Call) {
    match input
    case MouseMove(held, angle) => Move(t, held, angle)
    case _ => Done(t)
  }

  /** The tracker after a sequence of events. */
  function Final(t: Tracker, inputs: seq<Input>): Tracker
    decreases |inputs|
  {
    if inputs == [] then t
    else Step(Final(t, inputs[..|inputs| - 1]), inputs[|inputs| - 1]).0
  }

  /** The calls made to the rotate callback, one entry per event. */
  function Calls(t: Tracker, inputs: seq<Input>): seq<Call>
    decreases |inputs|
  {
    if inputs == [] then []
    else
      var prefix := inputs[..|inputs| - 1];
      Calls(t, prefix) + [Step(Final(t, prefix), inputs[|inputs| - 1]).1]
  }

  /**
   * Reference reading of an event history: the sample of the last held
   * move since the last `mouseup`/`mouseout` (or since the start), if any.
   */
  function LastHeldSample(inputs: seq<Input>): Option<real>
    decreases |inputs|
  {
    if inputs == [] then None
    else match inputs[|inputs| - 1]
      case MouseMove(held, angle) =>
        if held then Some(angle) else LastHeldSample(inputs[..|inputs| - 1])
      case _ => None
  }

  /**
   * After any history the tracker remembers the last held sample since the
   * last `done`, and is within a gesture exactly when there is one.
   */
  lemma {:induction false} TrackerRemembersLastHeldSample(inputs: seq<Input>)
    ensures Final(Rest, inputs) == Tracker(LastHeldSample(inputs), LastHeldSample(inputs).Some?)
    decreases |inputs|
  {
    if inputs != [] {
      TrackerRemembersLastHeldSample(inputs[..|inputs| - 1]);
    }
  }

  lemma {:induction false} CallsLength(t: Tracker, inputs: seq<Input>)
    ensures |Calls(t, inputs)| == |inputs|
    decreases |inputs|
  {
    if inputs != [] {
      CallsLength(t, inputs[..|inputs| - 1]);
    }
  }

  /** The call made by the `i`-th event is the step taken from the state before it. */
  lemma {:induction false} CallIsStep(t: Tracker, inputs: seq<Input>, i: nat)
    requires i < |inputs|
    ensures |Calls(t, inputs)| == |inputs|
    ensures Calls(t, inputs)[i] == Step(Final(t, inputs[..i]), inputs[i]).1
    decreases |inputs|
  {
    CallsLength(t, inputs);
    var prefix := inputs[..|inputs| - 1];
    if i < |inputs| - 1 {
      CallIsStep(t, prefix, i);
      CallsLength(t, prefix);
      assert prefix[..i] == inputs[..i];
    } else {
      assert inputs[..i] == prefix;
    }
  }

  /**
   * What each event asks of the rotate callback, from the tracker's
   * registration on: a move without a button held calls nothing; the
   * first held move of a gesture calls nothing and every later one passes
   * the previous sample minus this one, unwrapped; a `mouseup`/`mouseout`
   * ends the gesture with a no-argument call exactly when a held move
   * happened since the last one.
   */
  lemma CallAt(inputs: seq<Input>, i: nat)
    requires i < |inputs|
    ensures |Calls(Rest, inputs)| == |inputs|
    ensures inputs[i].MouseMove? && !inputs[i].held ==> Calls(Rest, inputs)[i] == NoCall
    ensures inputs[i].MouseMove? && inputs[i].held ==>
              Calls(Rest, inputs)[i] ==
                (if LastHeldSample(inputs[..i]).Some?
                 then Rotate(Some(LastHeldSample(inputs[..i]).value - inputs[i].angle))
                 else NoCall)
    ensures !inputs[i].MouseMove? ==>
              (Calls(Rest, inputs)[i] == Rotate(None) <==> LastHeldSample(inputs[..i]).Some?)
    ensures !inputs[i].MouseMove? ==>
              (Calls(Rest, inputs)[i] == NoCall <==> LastHeldSample(inputs[..i]).None?)
  {
    CallIsStep(Rest, inputs, i);
    TrackerRemembersLastHeldSample(inputs[..i]);
  }

  /** A gesture made only of held moves over the given samples. */
  function HeldMoves(angles: seq<real>): (r: seq<Input>)
    ensures |r| == |angles|
    decreases |angles|
  {
    if angles == [] then []
    else HeldMoves(angles[..|angles| - 1]) + [MouseMove(true, angles[|angles| - 1])]
  }

  /** The sum of the deltas passed to the rotate callback. */
  function DeltaSum(calls: seq<Call>): real
    decreases |calls|
  {
    if calls == [] then 0.0
    else
      var last := calls[|calls| - 1];
      DeltaSum(calls[..|calls| - 1]) + if last.Rotate? && last.delta.Some? then last.delta.value else 0.0
  }

  /**
   * Over one gesture the deltas telescope: the first sample makes no call,
   * each later sample passes the previous one minus itself, and so the
   * deltas add up to the first sample minus the last. No delta is wrapped
   * by a full turn.
   */
  lemma {:induction false} GestureDeltasTelescope(angles: seq<real>)
    requires |angles| > 0
    ensures Final(Rest, HeldMoves(angles)) == Tracker(Some(angles[|angles| - 1]), true)
    ensures |Calls(Rest, HeldMoves(angles))| == |angles|
    ensures Calls(Rest, HeldMoves(angles))[0] == NoCall
    ensures forall i :: 0 < i < |angles| ==>
              Calls(Rest, HeldMoves(angles))[i] == Rotate(Some(angles[i - 1] - angles[i]))
    ensures DeltaSum(Calls(Rest, HeldMoves(angles))) == angles[0] - angles[|angles| - 1]
    decreases |angles|
  {
    var n := |angles|;
    var moves := HeldMoves(angles);
    var prefix := angles[..n - 1];
    assert moves[..n - 1] == HeldMoves(prefix);
    CallsLength(Rest, moves);
    if n == 1 {
      assert HeldMoves(prefix) == [];
    } else {
      GestureDeltasTelescope(prefix);
      var before := Calls(Rest, HeldMoves(prefix));
      assert Calls(Rest, moves) == before + [Rotate(Some(angles[n - 2] - angles[n - 1]))];
      assert Calls(Rest, moves)[..n - 1] == before;
    }
  }

  /** The tracker as the closure holds it. */
  class GestureTracker {
    var previousAngle: Option<real>
    var withinGesture: bool

    function State(): Tracker
      reads this
    {
      Tracker(previousAngle, withinGesture)
    }

    constructor ()
      ensures State() == Rest
    {
      previousAngle := None;
      withinGesture := false;
    }

    /** The `mousemove` listener; returns the call it makes, if any. */
    method OnMouseMove(held: bool, angle: real) returns (call: Call)
      modifies this
      ensures (State(), call) == Move(old(State()), held, angle)
      ensures !held ==> call == NoCall && unchanged(this)
    {
      call := NoCall;
      if !held {
        return;
      }
      if previousAngle.Some? {
        var delta := previousAngle.value - angle;
        call := Rotate(Some(delta));
      }
      previousAngle := Some(angle);
      withinGesture := true;
    }

    /** The `done` listener, run on `mouseup` and on `mouseout`. */
    method OnDone() returns (call: Call)
      modifies this
      ensures (State(), call) == Done(old(State()))
      ensures old(withinGesture) <==> call == Rotate(None)
      ensures State().previousAngle.None? || unchanged(this)
    {
      call := NoCall;
      if !withinGesture {
        return;
      }
      withinGesture := false;
      previousAngle := None;
      call := Rotate(None);
    }
  }
}
