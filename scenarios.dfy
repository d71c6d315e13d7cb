/**
 * A client of the model: a drag that turns the device by 100 degrees and
 * is then released, wired from the gesture tracker to the element the way
 * the constructor binds `rotateBy_` as the tracker's callback.
 */
module Scenarios {
  import opened Wrappers
  import opened Angles
  import opened Orientations
  import opened Gestures
  import opened Element

  /**
   * An element in a desktop-sized box, default device nexus5, connected:
   * the connect aligns the drifting device and arms settle timer 1, which
   * then fires and moves the content into `#static`.
   */
  method DesktopElement() returns (e: MobileFirstElement)
    ensures fresh(e) && e.Valid() && !e.IsMobileNow() && e.connected
    ensures e.drift && e.angle == 0.0 && e.orientation == None
    ensures e.staticPositionTimeout == Unset && e.pendingTimers == {} && e.nextTimerId == 2
    ensures e.content == StaticHolder
  {
    e := new MobileFirstElement(1, 1, 1024.0, 768.0);
    MobileExamples();
    e.Connect();
    assert e.content == MainFrame && e.pendingTimers == {1};
    e.FireSettle(1);
  }

  /** Two held samples 100 degrees apart: one delta reaches the element. */
  method Drag(e: MobileFirstElement, t: GestureTracker)
    requires e.Valid() && !e.IsMobileNow() && e.angle == 0.0 && e.nextTimerId == 2
    requires e.pendingTimers == {} && e.staticPositionTimeout == Unset
    requires t.State() == Rest
    modifies e, t
    ensures e.Valid() && !e.IsMobileNow() && e.nextTimerId == 2 && e.pendingTimers == {}
    ensures t.State().withinGesture
    ensures e.angle == 5.0 / 9.0 && e.orientation == Some(Right)
    ensures e.content == MainFrame && !e.drift && e.staticPositionTimeout == Held
  {
    var first := t.OnMouseMove(true, 1.0);
    assert first == NoCall;
    var second := t.OnMouseMove(true, 4.0 / 9.0);
    assert second == Rotate(Some(5.0 / 9.0));
    e.RotateBy(second.delta);
    ClampOfNormalised(5.0 / 9.0);
  }

  method DragThenRelease() {
    var e := DesktopElement();
    var t := new GestureTracker();
    Drag(e, t);

    var release := t.OnDone();
    assert release == Rotate(None);
    e.RotateBy(release.delta);
    ClampOfNormalised(0.5);
    // Snapped to 90 degrees, the nearest canonical angle; the settle is armed.
    assert e.angle == 0.5 && e.drift;
    assert e.content == MainFrame && e.staticPositionTimeout == Timer(2) && e.pendingTimers == {2};

    // The settle fires once; no timer is left to fire again.
    e.FireSettle(2);
    assert e.content == StaticHolder && e.pendingTimers == {};
    assert e.orientation == Some(Right);
  }
}
