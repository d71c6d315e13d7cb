/**
 * The state machine of `MobileFirstElement`: the angle and orientation of
 * the mock device, the `drift` class that marks "not within a gesture",
 * the settle timeout, and where the slotted content node lives.
 */
module Element {
  import opened Wrappers
  import opened Angles
  import opened Orientations
  import opened Devices

  /** Where the content node `#content` currently is. */
  datatype Parent = ShadowRoot | MainFrame | StaticHolder

  /**
   * `staticPositionTimeout_`: undefined or null (falsy), the value `true`
   * set while a gesture runs, or the id of a scheduled settle timer.
   */
  datatype Timeout = Unset | Held | Timer(id: nat)

  datatype Size = Size(width: int, height: int)

  /** The `mobile` threshold used when the attribute is absent. */
  const DefaultMobile: real := 768.0

  /** `get mobile`: the attribute when present, 768 otherwise. */
  function MobileThreshold(attr: Option<real>): (m: real)
    ensures (attr.Some? ==> attr.value > 0.0) ==> m > 0.0
    ensures attr.Some? ==> m == attr.value
    ensures attr.None? ==> m == DefaultMobile
  {
    if attr.Some? then attr.value else DefaultMobile
  }

  /** `get isMobile`: at most `mobile` wide, or at most half of it high. */
  predicate IsMobile(width: real, height: real, mobile: real): (r: bool)
    ensures !r <==> mobile < width && mobile < 2.0 * height
  {
    width <= mobile || height <= mobile / 2.0
  }

  /** A larger threshold (or a smaller box) can only turn desktop mode into mobile mode. */
  lemma MobileMonotone(width: real, height: real, mobile: real, width': real, height': real, mobile': real)
    requires width' <= width && height' <= height && mobile <= mobile'
    ensures IsMobile(width, height, mobile) ==> IsMobile(width', height', mobile')
  {
  }

  /** A 400 by 700 box is mobile at 768; a 1024 by 768 box is not. */
  lemma MobileExamples()
    ensures IsMobile(400.0, 700.0, DefaultMobile)
    ensures !IsMobile(1024.0, 768.0, DefaultMobile) && IsMobile(1024.0, 384.0, DefaultMobile)
  {
  }

  /**
   * The screen size `updateOrientation_` gives `#main` and `#static`: the
   * device's size, with width and height swapped for `left` and `right`.
   */
  function ScreenSize(d: Device, o: Option<Orientation>): (s: Size)
    ensures multiset{s.width, s.height} == multiset{d.width, d.height}
  {
    if o == Some(Left) || o == Some(Right) then Size(d.height, d.width) else Size(d.width, d.height)
  }

  /**
   * The screen is swapped exactly when the canonical angle of the
   * orientation is an odd multiple of a quarter turn (the device lies on
   * its side), and upright for whole multiples of a half turn.
   */
  lemma ScreenSizeFollowsAngle(d: Device, o: Option<Orientation>)
    ensures ScreenSize(d, o) ==
              if IsWhole(AngleFromOrientation(o)) then Size(d.width, d.height) else Size(d.height, d.width)
  {
    var a := AngleFromOrientation(o);
    if o == Some(Left) {
      assert a.Floor == -1;
    } else if o == Some(Right) {
      assert a.Floor == 0;
    }
  }

  /**
   * The window-wide timer id `clearTimeout(handle)` clears: the id itself
   * for a timer, 1 for `true` (the handle is converted to an integer), and
   * 0, which names no timer, for undefined or null.
   */
  function ClearedId(t: Timeout): nat {
    match t
    case Timer(id) => id
    case Held => 1
    case Unset => 0
  }

  /**
   * `clearTimeout(handle)` on the element's pending settle timers: the one
   * timer the converted handle names is cancelled, if it is one of them.
   */
  function Cancel(pending: set<nat>, t: Timeout): (p: set<nat>)
    ensures p <= pending
    ensures t.Timer? ==> t.id !in p
    ensures t.Held? ==> 1 !in p
    ensures forall id | id in pending && id != ClearedId(t) :: id in p
  {
    pending - {ClearedId(t)}
  }

  class MobileFirstElement {
    /** `defaultDevice_`, drawn once at construction. */
    const defaultDevice: string
    /** The `device` and `mobile` attributes. */
    var deviceAttr: Option<string>
    var mobileAttr: Option<real>
    /** The element is in a document, so its resize listener is registered. */
    var connected: bool
    /** The bounding client rectangle, as last reported. */
    var boxWidth: real
    var boxHeight: real
    /** `angle_` and `orientation_`. */
    var angle: real
    var orientation: Option<Orientation>
    /** `#device` carries the class `drift`: not within a gesture. */
    var drift: bool
    var staticPositionTimeout: Timeout
    /** The settle timers scheduled and not yet fired or cancelled. */
    var pendingTimers: set<nat>
    var nextTimerId: nat
    /** The rotations written into the transforms of `#device` and `#main`. */
    var deviceRotation: real
    var mainRotation: real
    /** The size `#main` and `#static` were last centred with. */
    var screenSize: Option<Size>
    var content: Parent
    /** `#wrapper` and `#static` carry the class `hidden`. */
    var wrapperHidden: bool
    var staticHidden: bool

    ghost predicate Valid()
      reads this`mobileAttr, this`angle, this`orientation, this`staticPositionTimeout,
            this`pendingTimers, this`nextTimerId
    {
      && defaultDevice in Registry
      && (mobileAttr.Some? ==> mobileAttr.value > 0.0)
      && Normalised(angle)
      && OrientationFromAngle(angle) == Effective(orientation)
      && (staticPositionTimeout.Timer? ==> staticPositionTimeout.id in pendingTimers)
      && (forall id | id in pendingTimers :: 0 < id < nextTimerId)
      && 0 < nextTimerId
    }

    function Mobile(): real
      reads this`mobileAttr
    {
      MobileThreshold(mobileAttr)
    }

    predicate IsMobileNow()
      reads this`boxWidth, this`boxHeight, this`mobileAttr
    {
      IsMobile(boxWidth, boxHeight, Mobile())
    }

    function DeviceObject(): (d: Device)
      reads this`deviceAttr
      requires defaultDevice in Registry
      ensures d in Registry.Values
      ensures deviceAttr.Some? && deviceAttr.value in Registry ==> d == Registry[deviceAttr.value]
      ensures !(deviceAttr.Some? && deviceAttr.value in Registry) ==> d == Registry[defaultDevice]
    {
      ResolveDevice(deviceAttr, defaultDevice)
    }

    /**
     * The element as constructed: `defaultIndex` stands for the random draw
     * of the default device, `firstTimerId` for the window-wide id its first
     * settle timer will get, and the box for the element's first layout.
     * The template gives `#device` the class `drift` and puts the content
     * node inside `#main`.
     */
    constructor (defaultIndex: nat, firstTimerId: nat, width: real, height: real)
      requires defaultIndex < |DeviceNames| && 0 < firstTimerId
      ensures Valid()
      ensures defaultDevice == DeviceNames[defaultIndex]
      ensures deviceAttr == None && mobileAttr == None
      ensures boxWidth == width && boxHeight == height
      ensures angle == 0.0 && orientation == None && drift
      ensures staticPositionTimeout == Unset && pendingTimers == {}
      ensures nextTimerId == firstTimerId && !connected
      ensures deviceRotation == 0.0 && mainRotation == 0.0 && screenSize == None
      ensures content == MainFrame && !wrapperHidden && !staticHidden
    {
      defaultDevice := PickDefault(defaultIndex);
      deviceAttr, mobileAttr := None, None;
      boxWidth, boxHeight := width, height;
      angle, orientation, drift := 0.0, None, true;
      staticPositionTimeout, pendingTimers, nextTimerId := Unset, {}, firstTimerId;
      connected := false;
      deviceRotation, mainRotation, screenSize := 0.0, 0.0, None;
      content, wrapperHidden, staticHidden := MainFrame, false, false;
      new;
      ClampOfNormalised(0.0);
    }

    /** `set angle`: clamp, store, and rotate `#device`, forced while within a gesture. */
    method SetAngle(x: real)
      modifies this`angle, this`deviceRotation
      ensures angle == Clamp(x)
      ensures deviceRotation == RotationTarget(old(deviceRotation), angle, !drift)
    {
      var r := ClampRads(x);
      angle := r;
      deviceRotation := RotationTarget(deviceRotation, r, !drift);
    }

    /**
     * `updateMobileFirst_`: in mobile mode the wrapper is hidden and the
     * content goes to the shadow root; otherwise it goes into `#main` while
     * the timeout is truthy and into `#static` once it is not.
     */
    method UpdateMobileFirst()
      modifies this`wrapperHidden, this`content, this`staticHidden
      ensures wrapperHidden == IsMobileNow()
      ensures IsMobileNow() ==> content == ShadowRoot && staticHidden == old(staticHidden)
      ensures !IsMobileNow() && staticPositionTimeout != Unset ==> content == MainFrame && staticHidden
      ensures !IsMobileNow() && staticPositionTimeout == Unset ==> content == StaticHolder && !staticHidden
    {
      var mobile := IsMobileNow();
      wrapperHidden := mobile;
      if mobile {
        content := ShadowRoot;
      } else if staticPositionTimeout != Unset {
        content := MainFrame;
        staticHidden := true;
      } else {
        content := StaticHolder;
        staticHidden := false;
      }
    }

    /** What `maybeAlignDevice_` did, relative to the state before it. */
    twostate predicate AlignedSince()
      reads this`drift, this`angle, this`orientation, this`deviceRotation, this`staticPositionTimeout,
            this`pendingTimers, this`nextTimerId, this`content, this`wrapperHidden, this`staticHidden,
            this`boxWidth, this`boxHeight, this`mobileAttr
    {
      if !old(drift) then
        && angle == old(angle) && deviceRotation == old(deviceRotation)
        && staticPositionTimeout == old(staticPositionTimeout)
        && pendingTimers == old(pendingTimers) && nextTimerId == old(nextTimerId)
        && content == old(content) && wrapperHidden == old(wrapperHidden)
        && staticHidden == old(staticHidden)
      else
        && angle == Clamp(AngleFromOrientation(orientation))
        && deviceRotation == RotationTarget(old(deviceRotation), angle, false)
        && staticPositionTimeout == Timer(old(nextTimerId))
        && pendingTimers == old(pendingTimers) + {old(nextTimerId)}
        && nextTimerId == old(nextTimerId) + 1
        && wrapperHidden == IsMobileNow()
        && content == (if IsMobileNow() then ShadowRoot else MainFrame)
        && staticHidden == (if IsMobileNow() then old(staticHidden) else true)
    }

    /**
     * `maybeAlignDevice_`: nothing within a gesture; otherwise snap the
     * angle to the canonical angle of the orientation, schedule a settle
     * timer (without cancelling an earlier one) and re-route the content.
     */
    method MaybeAlignDevice()
      requires Valid()
      modifies this`angle, this`deviceRotation, this`staticPositionTimeout, this`pendingTimers,
               this`nextTimerId, this`wrapperHidden, this`content, this`staticHidden
      ensures Valid()
      ensures AlignedSince()
    {
      if !drift {
        return;
      }
      var a := AngleFromOrientation(orientation);
      SetAngle(a);
      SnapKeepsOrientation(orientation);
      staticPositionTimeout := Timer(nextTimerId);
      pendingTimers := pendingTimers + {nextTimerId};
      nextTimerId := nextTimerId + 1;
      UpdateMobileFirst();
    }

    /**
     * `updateOrientation_`: counter-rotate `#main` by the canonical angle,
     * centre `#main` and `#static` at the screen size, then maybe align.
     */
    method UpdateOrientation()
      requires Valid()
      modifies this`mainRotation, this`screenSize, this`angle, this`deviceRotation,
               this`staticPositionTimeout, this`pendingTimers, this`nextTimerId,
               this`wrapperHidden, this`content, this`staticHidden
      ensures Valid()
      ensures mainRotation == RotationTarget(old(mainRotation), -AngleFromOrientation(orientation), false)
      ensures screenSize == Some(ScreenSize(DeviceObject(), orientation))
      ensures AlignedSince()
    {
      var d := DeviceObject();
      var a := AngleFromOrientation(orientation);
      mainRotation := RotationTarget(mainRotation, -a, false);
      screenSize := Some(ScreenSize(d, orientation));
      MaybeAlignDevice();
      assert DeviceObject() == d;
    }

    /**
     * The no-delta branch of `rotateBy_` (the gesture ended): mark the
     * device as drifting and align it.
     */
    method EndGesture()
      requires Valid() && !IsMobileNow() && staticPositionTimeout == Held
      modifies this`drift, this`angle, this`deviceRotation, this`staticPositionTimeout,
               this`pendingTimers, this`nextTimerId, this`wrapperHidden, this`content,
               this`staticHidden
      ensures Valid()
      ensures drift && angle == Clamp(AngleFromOrientation(orientation))
      ensures deviceRotation == RotationTarget(old(deviceRotation), angle, false)
      ensures staticPositionTimeout == Timer(old(nextTimerId))
      ensures pendingTimers == old(pendingTimers) + {old(nextTimerId)}
      ensures nextTimerId == old(nextTimerId) + 1
      ensures content == MainFrame && staticHidden && !wrapperHidden
    {
      drift := true;
      MaybeAlignDevice();
    }

    /**
     * The delta branch of `rotateBy_`: route the content into `#main`, stop
     * drifting, add the delta to the angle and take the orientation from it.
     */
    method TurnBy(delta: real)
      requires Valid() && !IsMobileNow() && staticPositionTimeout == Held
      modifies this`drift, this`mainRotation, this`screenSize, this`angle, this`orientation,
               this`deviceRotation, this`staticPositionTimeout, this`pendingTimers,
               this`nextTimerId, this`wrapperHidden, this`content, this`staticHidden
      ensures Valid()
      ensures !drift && angle == Clamp(old(angle) + delta) && deviceRotation == angle
      ensures staticPositionTimeout == Held
      ensures pendingTimers == old(pendingTimers) && nextTimerId == old(nextTimerId)
      ensures orientation == Some(OrientationFromAngle(angle))
      ensures content == MainFrame && staticHidden && !wrapperHidden
      ensures mainRotation == RotationTarget(old(mainRotation), -AngleFromOrientation(orientation), false)
      ensures screenSize == Some(ScreenSize(DeviceObject(), orientation))
    {
      UpdateMobileFirst();
      drift := false;
      SetAngle(angle + delta);
      orientation := Some(OrientationFromAngle(angle));
      UpdateOrientation();
    }

    /**
     * `rotateBy_`: the callback of the gesture tracker. In mobile mode it
     * does nothing. Otherwise it cancels the timer the timeout names, sets
     * the timeout to `true`, and ends the gesture (no delta) or turns the
     * device by the delta.
     */
    method RotateBy(optDelta: Option<real>)
      requires Valid()
      modifies this`drift, this`mainRotation, this`screenSize, this`angle, this`orientation,
               this`deviceRotation, this`staticPositionTimeout, this`pendingTimers,
               this`nextTimerId, this`wrapperHidden, this`content, this`staticHidden
      ensures Valid()
      ensures old(IsMobileNow()) ==> unchanged(this)
      ensures !old(IsMobileNow()) && optDelta.None? ==>
                && drift && orientation == old(orientation)
                && angle == Clamp(AngleFromOrientation(orientation))
                && deviceRotation == RotationTarget(old(deviceRotation), angle, false)
                && staticPositionTimeout == Timer(old(nextTimerId))
                && pendingTimers == Cancel(old(pendingTimers), old(staticPositionTimeout)) + {old(nextTimerId)}
                && nextTimerId == old(nextTimerId) + 1
                && content == MainFrame && staticHidden && !wrapperHidden
                && mainRotation == old(mainRotation) && screenSize == old(screenSize)
      ensures !old(IsMobileNow()) && optDelta.Some? ==>
                && !drift
                && angle == Clamp(old(angle) + optDelta.value) && deviceRotation == angle
                && orientation == Some(OrientationFromAngle(angle))
                && staticPositionTimeout == Held
                && pendingTimers == Cancel(old(pendingTimers), old(staticPositionTimeout))
                && nextTimerId == old(nextTimerId)
                && content == MainFrame && staticHidden && !wrapperHidden
                && mainRotation == RotationTarget(old(mainRotation), -AngleFromOrientation(orientation), false)
                && screenSize == Some(ScreenSize(DeviceObject(), orientation))
    {
      if IsMobileNow() {
        return;
      }
      pendingTimers := Cancel(pendingTimers, staticPositionTimeout);
      staticPositionTimeout := Held;
      if optDelta.None? {
        EndGesture();
      } else {
        TurnBy(optDelta.value);
      }
    }

    /**
     * The settle timer `id` fires: the timeout becomes null and the content
     * is routed again, which in desktop mode moves it into `#static`.
     */
    method FireSettle(id: nat)
      requires Valid() && id in pendingTimers
      modifies this`pendingTimers, this`staticPositionTimeout, this`wrapperHidden, this`content,
               this`staticHidden
      ensures Valid()
      ensures pendingTimers == old(pendingTimers) - {id} && staticPositionTimeout == Unset
      ensures wrapperHidden == IsMobileNow()
      ensures content == if IsMobileNow() then ShadowRoot else StaticHolder
      ensures IsMobileNow() ==> staticHidden == old(staticHidden)
      ensures !IsMobileNow() ==> !staticHidden
    {
      pendingTimers := pendingTimers - {id};
      staticPositionTimeout := Unset;
      UpdateMobileFirst();
    }

    /**
     * The box changes and, while the element is connected, the window
     * `resize` listener runs `updateMobileFirst_`.
     */
    method Resize(width: real, height: real)
      requires Valid()
      modifies this`boxWidth, this`boxHeight, this`wrapperHidden, this`content, this`staticHidden
      ensures Valid()
      ensures boxWidth == width && boxHeight == height
      ensures !connected ==> wrapperHidden == old(wrapperHidden) && content == old(content)
                             && staticHidden == old(staticHidden)
      ensures connected ==> wrapperHidden == IsMobileNow()
      ensures connected ==> content == (if IsMobileNow() then ShadowRoot
                                        else if staticPositionTimeout != Unset then MainFrame else StaticHolder)
      ensures connected && IsMobileNow() ==> staticHidden == old(staticHidden)
      ensures connected && !IsMobileNow() ==> staticHidden == (staticPositionTimeout != Unset)
    {
      boxWidth, boxHeight := width, height;
      if connected {
        UpdateMobileFirst();
      }
    }

    /**
     * `updateDevice_`: position the screen window for the resolved device,
     * reload the bezel image, then `updateOrientation_`. Only the last step
     * changes state this model keeps.
     */
    method UpdateDevice()
      requires Valid()
      modifies this`mainRotation, this`screenSize, this`angle, this`deviceRotation,
               this`staticPositionTimeout, this`pendingTimers, this`nextTimerId,
               this`wrapperHidden, this`content, this`staticHidden
      ensures Valid()
      ensures mainRotation == RotationTarget(old(mainRotation), -AngleFromOrientation(orientation), false)
      ensures screenSize == Some(ScreenSize(DeviceObject(), orientation))
      ensures AlignedSince()
    {
      UpdateOrientation();
    }

    /** `connectedCallback`: register the resize listener and `updateDevice_`. */
    method Connect()
      requires Valid()
      modifies this`connected, this`mainRotation, this`screenSize, this`angle, this`deviceRotation,
               this`staticPositionTimeout, this`pendingTimers, this`nextTimerId,
               this`wrapperHidden, this`content, this`staticHidden
      ensures Valid() && connected
      ensures mainRotation == RotationTarget(old(mainRotation), -AngleFromOrientation(orientation), false)
      ensures screenSize == Some(ScreenSize(DeviceObject(), orientation))
      ensures AlignedSince()
    {
      connected := true;
      UpdateDevice();
    }

    /** `disconnectedCallback`: the resize listener is removed. */
    method Disconnect()
      modifies this`connected
      ensures !connected
    {
      connected := false;
    }

    /** `set mobile`: a positive value is stored, anything else removes the attribute. */
    method SetMobile(v: real)
      requires Valid()
      modifies this`mobileAttr
      ensures Valid()
      ensures Mobile() == if v > 0.0 then v else DefaultMobile
      ensures Mobile() > 0.0
    {
      mobileAttr := if v > 0.0 then Some(v) else None;
    }

    /**
     * `set device`: a non-empty name is stored, anything else removes the
     * attribute. Each stored value, and each removal of a present attribute,
     * runs `attributeChangedCallback` at once, hence `updateDevice_`;
     * removing an absent attribute changes nothing.
     */
    method SetDevice(v: Option<string>)
      requires Valid()
      modifies this`deviceAttr, this`mainRotation, this`screenSize, this`angle, this`deviceRotation,
               this`staticPositionTimeout, this`pendingTimers, this`nextTimerId,
               this`wrapperHidden, this`content, this`staticHidden
      ensures Valid()
      ensures deviceAttr == if v.Some? && v.value != "" then v else None
      ensures DeviceObject() in Registry.Values
      ensures v.Some? && v.value in Registry ==> DeviceObject() == Registry[v.value]
      ensures (v.None? || v.value !in Registry) ==> DeviceObject() == Registry[defaultDevice]
      ensures !(v.Some? && v.value != "") && old(deviceAttr).None? ==> unchanged(this)
      ensures (v.Some? && v.value != "") || old(deviceAttr).Some? ==>
                && mainRotation == RotationTarget(old(mainRotation), -AngleFromOrientation(orientation), false)
                && screenSize == Some(ScreenSize(DeviceObject(), orientation))
                && AlignedSince()
    {
      if v.Some? && v.value != "" {
        deviceAttr := v;
        UpdateDevice();
      } else if deviceAttr.Some? {
        deviceAttr := None;
        UpdateDevice();
      }
    }
  }
}
