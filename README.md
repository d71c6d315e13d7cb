# mobile-first, modelled in Dafny

`mobile-first` is a browser custom element. On a desktop-sized viewport it
shows the page content inside the image of a phone. The user can drag
round the phone to turn it through four orientations: up, left, down and
right. When the drag ends, the phone snaps to the nearest orientation and
the content settles. On a small viewport the content is shown directly.

This project models the logic inside the element and proves properties of it:

- `Angles` (`angles.dfy`): the angle arithmetic. Angles are reals in units of pi, so a full turn is `2.0`. It holds `clampRads`, written as the two-loop method `ClampRads`; `Clamp`, the function that specifies it; and `rotateTo`'s shortest-arc rule, `RotationTarget`.
- `Orientations` (`orientations.dfy`): `orientationFromAngle` and `angleFromOrientation`. An undefined orientation is read as `up`.
- `Gestures` (`gestures.dfy`): the gesture tracker the constructor registers on the backdrop. The steps are pure functions, `Move` and `Done`. The class `GestureTracker` holds the closure's two variables, and its listener methods return the callback call they make. Traces of events are replayed by `Final` and `Calls`.
- `Devices` (`devices.dfy`): the `Device` constructor, the `devices` registry, the random default device (its index is a parameter) and `deviceObject`.
- `Element` (`element.dfy`): the class `MobileFirstElement`. It holds the angle, the orientation, the `drift` class, the settle timeout, the pending timers, the `#device`/`#main` rotations, the screen size, the `hidden` classes and the place of the content node. Its methods are `rotateBy_`, `maybeAlignDevice_`, `updateOrientation_`, `updateDevice_`, `updateMobileFirst_`, `connectedCallback`, `disconnectedCallback`, the `angle`, `mobile` and `device` setters, the resize listener and the firing of a settle timer.
- `Scenarios` (`scenarios.dfy`): a client. A desktop-sized element is connected and its first settle timer fires. Then a two-sample drag of 100 degrees drives it through the tracker; the release snaps to 90 degrees, and one settle moves the content into `#static`.

The element keeps this invariant (`MobileFirstElement.Valid`):

- the angle is in [0, 2 pi);
- `orientationFromAngle(angle_)` is the current orientation, with undefined read as `up`;
- a timer the timeout names is still pending.

Timers are modelled explicitly:

- `setTimeout` adds a fresh id to `pendingTimers`.
- `clearTimeout` removes the id the handle names (`Cancel`). The handle is converted to an integer: `true` names timer 1, and undefined or null name no timer.
- `FireSettle(id)` is the callback of a pending timer.

`maybeAlignDevice_` schedules a new timer without cancelling the previous one, and the model keeps that behaviour.

Three behaviours of the code are worth stating outright:

- **Gesture deltas.** Gesture deltas are passed unwrapped: the callback gets `previousAngle - angle` as it is, even when that exceeds half a turn (mobile-first.js:262). `GestureDeltasTelescope` proves the deltas of a gesture add up to the first sample minus the last.
- **Orientation sectors.** Every orientation owns the half-open quarter turn (a - pi/4, a + pi/4] round its canonical angle a, measured round the circle, `up` included (mobile-first.js:198-212). `OrientationFromAngle` and `OrientationSector` prove this.
- **Invalid `mobile` values.** An invalid `mobile` value falls back to 768 only through the setter (`SetMobile`, mobile-first.js:405-411). The getter returns any non-empty attribute string as it is (mobile-first.js:401-403).

## Model

| member | source | states |
|---|---|---|
| Angles.Clamp | mobile-first.js:182-192 | the clamped angle lies in [0, 2 pi) and differs from the input by whole turns |
| Angles.ClampRads | mobile-first.js:188-192 | the two loops return a value in [0, 2 pi), coterminal with the input, equal to `Clamp` |
| Angles.ClampCoterminal | mobile-first.js:188-192 | two angles clamp to the same value exactly when they differ by whole turns |
| Angles.ClampOfNormalised | mobile-first.js:188-192 | a value already in [0, 2 pi) is returned unchanged |
| Angles.ClampIdempotent | mobile-first.js:188-192 | clamping twice equals clamping once |
| Angles.ClampPeriodic | mobile-first.js:188-192 | adding k full turns does not change the clamped value |
| Angles.RotationTarget | mobile-first.js:167-180 | the stored rotation is coterminal with `rads`; it is `rads` itself when forced or when the jump is at most pi; unforced, a jump of at most 3 pi is brought to within pi of the previous rotation |
| Orientations.AngleFromOrientation | mobile-first.js:218-228 | the canonical angle lies in [-pi/2, pi]; an undefined orientation gives 0, as `up` does |
| Orientations.OrientationFromAngle | mobile-first.js:198-212 | the chosen orientation's canonical angle a has the angle in its sector: the angle minus a plus pi/4, clamped, lies in (0, pi/2] |
| Orientations.OrientationPeriodic | mobile-first.js:198-212 | the orientation of an angle is unchanged by whole turns |
| Orientations.OrientationRoundTrip | mobile-first.js:198-228 | `orientationFromAngle(angleFromOrientation(o)) == o` for up, left, down and right |
| Orientations.OrientationSector | mobile-first.js:198-212 | an angle maps to o exactly when its offset from o's canonical angle, plus pi/4 and clamped, lies in (0, pi/2] |
| Orientations.SnapIsNearest | mobile-first.js:198-228 | the chosen orientation's canonical angle is within pi/4 of the angle round the circle, and no other orientation's is nearer |
| Orientations.SnapKeepsOrientation | mobile-first.js:369-389 | snapping the angle to the clamped canonical angle of the orientation keeps that orientation; undefined snaps to up |
| Gestures.Move | mobile-first.js:258-267 | a move keeps the tracker consistent (a previous sample exactly while within a gesture) and never makes the end-of-gesture call |
| Gestures.Done | mobile-first.js:269-274 | from a consistent tracker, done resets it; it makes no call or the single no-argument call |
| Gestures.TrackerRemembersLastHeldSample | mobile-first.js:253-278 | after any event history the tracker holds the last held sample since the last mouseup/mouseout, and is within a gesture exactly when there is one |
| Gestures.CallAt | mobile-first.js:258-277 | a move without a button calls nothing; the first held move of a gesture calls nothing and later ones pass previous minus current; a mouseup/mouseout makes the no-argument call exactly when a held move happened since the last one |
| Gestures.GestureDeltasTelescope | mobile-first.js:258-267 | over a gesture of held moves, the first call is none, the i-th is sample i-1 minus sample i, and the deltas sum to the first sample minus the last |
| Gestures.GestureTracker.constructor | mobile-first.js:254-255 | the tracker starts with no previous sample and outside a gesture |
| Gestures.GestureTracker.OnMouseMove | mobile-first.js:258-267 | the listener's new state and call are those of `Move`; without a button it changes nothing |
| Gestures.GestureTracker.OnDone | mobile-first.js:269-277 | the listener's new state and call are those of `Done`; it makes the no-argument call exactly when within a gesture |
| Devices.MakeDevice | mobile-first.js:110-117 | the device keeps its width, height and image; the scale is the given nonzero one, else 2, and never zero |
| Devices.PickDefault | mobile-first.js:242-243 | the construction-time default is a registry key |
| Devices.DeviceNamesAreRegistryKeys | mobile-first.js:119-122 | the names the default is drawn from are exactly the registry keys |
| Devices.ResolveDevice | mobile-first.js:425-427 | the resolved device is a registry entry: the named one when the registry has the name, the default otherwise |
| Devices.Nexus5Resolves | mobile-first.js:121 | `nexus5` resolves to 360 by 640 at scale 2 |
| Devices.UnknownNameResolvesToDefault | mobile-first.js:425-427 | an unknown name resolves to the default device, the same as no name |
| Devices.DevicesLookup | mobile-first.js:426 | property lookup on `devices` finds an own entry, the named one, exactly for registry names, an inherited member (named by the key) exactly for the `Object.prototype` names, and `undefined` otherwise |
| Devices.DeviceObjectAsWritten | mobile-first.js:425-427 | when the expression as written yields a device, it is the one `ResolveDevice` gives; it yields an inherited member exactly when the name is an `Object.prototype` name |
| Devices.InheritedNameEscapesFallback | mobile-first.js:426 | for `device="toString"`, which is not a registry name, the expression as written yields the inherited prototype member and not a device |
| Devices.AsWrittenAgreesOffPrototype | mobile-first.js:425-427 | for every name that is not one of the inherited `Object.prototype` names, the expression as written agrees with `ResolveDevice` |
| Element.MobileThreshold | mobile-first.js:401-403 | a present attribute is returned as it is, and 768 when the attribute is absent; it is positive when the attribute is |
| Element.IsMobile | mobile-first.js:395-399 | desktop mode holds exactly when the box is wider than the threshold and taller than half of it |
| Element.MobileMonotone | mobile-first.js:395-399 | a larger threshold or a smaller box keeps mobile mode |
| Element.MobileExamples | mobile-first.js:395-399 | a 400 by 700 box is mobile at 768; 1024 by 768 is not; 1024 by 384 is |
| Element.ScreenSize | mobile-first.js:325-328 | the screen has the device's two dimensions, possibly swapped |
| Element.ScreenSizeFollowsAngle | mobile-first.js:320-330 | the screen is swapped exactly when the canonical angle is an odd multiple of pi/2 |
| Element.Cancel | mobile-first.js:354 | clearing the timeout removes the timer the converted handle names (timer 1 for `true`) and keeps every other pending timer |
| Element.MobileFirstElement.constructor | mobile-first.js:235-246 | initial state: angle 0, orientation undefined, drifting, no timeout, no pending timer, content in `#main`, not connected, default device drawn from the registry |
| Element.MobileFirstElement.DeviceObject | mobile-first.js:425-427 | the resolved device is a registry entry: the named one when the attribute names a registry key, the default otherwise |
| Element.MobileFirstElement.SetAngle | mobile-first.js:385-389 | the angle becomes the clamped value; `#device` gets the rotation target, forced while within a gesture |
| Element.MobileFirstElement.UpdateMobileFirst | mobile-first.js:334-347 | the wrapper is hidden exactly in mobile mode; the content goes to the shadow root in mobile mode, otherwise to `#main` while the timeout is truthy and to `#static` when it is not |
| Element.MobileFirstElement.MaybeAlignDevice | mobile-first.js:369-383 | no change within a gesture; otherwise the angle snaps to the clamped canonical angle, a fresh timer is scheduled and the content is re-routed, keeping the invariant |
| Element.MobileFirstElement.UpdateOrientation | mobile-first.js:320-332 | `#main` is counter-rotated by the canonical angle, the screen size follows the orientation, then it acts as `MaybeAlignDevice` |
| Element.MobileFirstElement.EndGesture | mobile-first.js:357-359 | the no-delta branch: the device drifts, the angle snaps to the clamped canonical angle, a fresh settle timer is scheduled and the content sits in `#main`, keeping the invariant |
| Element.MobileFirstElement.TurnBy | mobile-first.js:360-365 | the delta branch: the content goes into `#main`, drifting stops, the angle becomes `Clamp(angle + delta)` and `#device` is set to it directly, the orientation follows the angle, and `#main` and the screen size follow the orientation |
| Element.MobileFirstElement.RotateBy | mobile-first.js:349-367 | nothing happens in mobile mode. Otherwise the timer the timeout names is cancelled (timer 1 when it is `true`). With no delta, the device drifts, the angle snaps and a settle is scheduled with the content in `#main`. With a delta, drifting stops, the angle becomes `Clamp(angle + delta)`, the orientation follows it and the timeout is `true`. The invariant is kept throughout |
| Element.MobileFirstElement.FireSettle | mobile-first.js:377-380 | the fired timer is no longer pending, the timeout is null; in desktop mode the content moves into a visible `#static`, in mobile mode it goes to the shadow root and `#static` keeps its `hidden` class |
| Element.MobileFirstElement.Resize | mobile-first.js:283 | the new box is recorded; while connected the content is re-routed for it and `#static`'s `hidden` class set as `updateMobileFirst_` does, and otherwise nothing else changes |
| Element.MobileFirstElement.UpdateDevice | mobile-first.js:297-315 | acts as `updateOrientation_`: `#main` follows the orientation, the screen size follows the resolved device, then the device may align |
| Element.MobileFirstElement.Connect | mobile-first.js:282-285 | the resize listener is registered, then `updateDevice_` runs |
| Element.MobileFirstElement.Disconnect | mobile-first.js:287-289 | the resize listener is removed |
| Element.MobileFirstElement.SetMobile | mobile-first.js:405-411 | a positive value becomes the threshold; anything else restores 768 |
| Element.MobileFirstElement.SetDevice | mobile-first.js:417-423 | a non-empty name is stored, anything else removes the attribute; the resolved device is then the named registry entry or the default; each stored value and each removal of a present attribute runs `updateDevice_` (mobile-first.js:291-295), and removing an absent attribute changes nothing |

## Findings

| source | as written | input that shows it | evidently intended | confidence | as-written member | corrected member |
|---|---|---|---|---|---|---|
| mobile-first.js:426 | `devices[this.device] \|\| devices[this.defaultDevice_]` falls back only when the lookup is `undefined`; an inherited `Object.prototype` property is truthy | `device="toString"` (also `constructor`, `valueOf`, `__proto__`, ...) yields a function, not a device | an unknown name resolves to the default device | high; not executed | Devices.DeviceObjectAsWritten, Devices.InheritedNameEscapesFallback | Devices.ResolveDevice |

The element's model uses `ResolveDevice`.

## Left out

- The HTML/CSS template and the shadow-root setup (mobile-first.js:21-108, 239-249). They are markup and have no behaviour.
- `deltaAngle` (mobile-first.js:131-142). It uses `Math.acos` and `Math.sqrt` on DOM event offsets. Each mouse sample is an abstract angle given to the tracker.
- Floating point. Angles are exact reals in units of pi. The rounding of `Math.PI` multiples is not modelled; for example, a tiny negative angle can clamp to exactly 2 pi in floating point. NaN is not modelled either: a sample at the exact centre of the backdrop gives `len` 0, so `deltaAngle` returns NaN (mobile-first.js:139-141); `clampRads` passes NaN through unchanged, so `angle_` stays NaN until the release snaps it to the orientation's angle.
- Reading the previous rotation back from the CSS transform with a regular expression. The rotations of `#device` and `#main` are fields.
- `positionInCenter`'s style writes for `#dwindow` and the asynchronous bezel image load inside `updateDevice_` (mobile-first.js:298-312). These are DOM side effects; `UpdateDevice` models the rest of `updateDevice_`, its call of `updateOrientation_`.
- `customElements.define` and the event loop that runs timers. Timers are a pending-id set with an explicit `FireSettle`. `connectedCallback` and `disconnectedCallback` are `Connect` and `Disconnect`, and the resize listener is `Resize`.
- Timers of the rest of the page. `clearTimeout(true)` cancels window timer 1, which may belong to other code; the model tracks only the element's own settle timers.
- `Math.random` for the default device. Its index is a constructor parameter.
- Attribute string coercion in `get mobile` and `get device`. `mobile` is a positive real or absent; `device` is an optional string. An attribute written directly in HTML, bypassing the setters, is not modelled.
- The value `rotateBy_` returns (`false` in mobile mode, otherwise undefined). Its caller ignores it.
- `angleFromOrientation` on strings other than the four names. The model's orientation is one of the four or undefined, and undefined behaves like any other string (angle 0).
- The hover/active CSS and the transition durations. They affect only rendering.
