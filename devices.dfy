/**
 * The device registry: each simulated phone's logical size, bezel image and
 * the factor its bezel image is scaled down by.
 */
module Devices {
  import opened Wrappers

  datatype Device = Device(width: int, height: int, background: string, scale: real)

  /** The scale used when none (or zero) is given. */
  const DefaultScale: real := 2.0

  /**
   * The `Device` constructor. `+opt_scale || 2` keeps a given nonzero scale
   * and falls back to 2 for a missing or zero one.
   */
  function MakeDevice(width: int, height: int, background: string, optScale: Option<real>): (d: Device)
    ensures d.width == width && d.height == height && d.background == background
    ensures d.scale != 0.0
    ensures optScale.None? || optScale == Some(0.0) ==> d.scale == DefaultScale
    ensures optScale.Some? && optScale.value != 0.0 ==> d.scale == optScale.value
  {
    var scale := if optScale.Some? && optScale.value != 0.0 then optScale.value else DefaultScale;
    Device(width, height, background, scale)
  }

  /** The registry `devices`. */
  const Registry: map<string, Device> := map[
    "iphone5" := MakeDevice(320, 568, "devices/iphone5.png", Some(2.0)),
    "nexus5" := MakeDevice(360, 640, "devices/nexus5.png", Some(2.0))
  ]

  /** `Object.keys(devices)`, in insertion order. */
  const DeviceNames: seq<string> := ["iphone5", "nexus5"]

  /**
   * The default device fixed at construction: `choices[i]` for the index
   * drawn from `Math.random()`, which is given here as a parameter.
   */
  function PickDefault(i: nat): (name: string)
    requires i < |DeviceNames|
    ensures name in Registry
  {
    DeviceNames[i]
  }

  /** Every registry key is a possible default, and nothing else is. */
  lemma DeviceNamesAreRegistryKeys()
    ensures forall name :: name in Registry <==> name in DeviceNames
  {
    forall name | name in Registry
      ensures name in DeviceNames
    {
      assert name == "iphone5" || name == "nexus5";
    }
  }

  /**
   * `deviceObject`: the device the `device` attribute names, when the
   * registry has it, and the construction-time default otherwise.
   */
  function ResolveDevice(attr: Option<string>, fallback: string): (d: Device)
    requires fallback in Registry
    ensures d in Registry.Values
    ensures attr.Some? && attr.value in Registry ==> d == Registry[attr.value]
    ensures !(attr.Some? && attr.value in Registry) ==> d == Registry[fallback]
  {
    if attr.Some? && attr.value in Registry then Registry[attr.value] else Registry[fallback]
  }

  /** `device="nexus5"` resolves to 360 by 640 at scale 2. */
  lemma Nexus5Resolves(fallback: string)
    requires fallback in Registry
    ensures ResolveDevice(Some("nexus5"), fallback) == Device(360, 640, "devices/nexus5.png", 2.0)
  {
  }

  /** An unknown name resolves to the default, whatever it is. */
  lemma UnknownNameResolvesToDefault(name: string, fallback: string)
    requires fallback in Registry && name !in Registry
    ensures ResolveDevice(Some(name), fallback) == ResolveDevice(None, fallback) == Registry[fallback]
  {
  }

  // The lookup as the source writes it: `devices[this.device] || devices[default]`.

  /** What `devices[key]` yields in JavaScript. */
  datatype Property = Own(device: Device) | Inherited(key: string) | Undefined

  /** The property names every object inherits from `Object.prototype`. */
  const PrototypeKeys: set<string> := {
    "constructor", "hasOwnProperty", "isPrototypeOf", "propertyIsEnumerable",
    "toLocaleString", "toString", "valueOf", "__proto__",
    "__defineGetter__", "__defineSetter__", "__lookupGetter__", "__lookupSetter__"
  }

  /**
   * Property lookup on the `devices` object literal: an own entry, else an
   * inherited `Object.prototype` member (a function or object, thus truthy),
   * else `undefined`. An absent attribute is `null`, looked up as "null".
   */
  function DevicesLookup(attr: Option<string>): (p: Property)
    ensures p.Own? <==> attr.Some? && attr.value in Registry
    ensures p.Own? ==> p.device == Registry[attr.value]
    ensures p.Inherited? <==> attr.Some? && attr.value in PrototypeKeys
    ensures p.Inherited? ==> p.key == attr.value
  {
    var key := if attr.Some? then attr.value else "null";
    if key in Registry then Own(Registry[key])
    else if key in PrototypeKeys then Inherited(key)
    else Undefined
  }

  /** `devices[this.device] || devices[this.defaultDevice_]`, as written. */
  function DeviceObjectAsWritten(attr: Option<string>, fallback: string): (p: Property)
    requires fallback in Registry
    ensures p.Own? ==> p.device in Registry.Values
    ensures p.Own? ==> p.device == ResolveDevice(attr, fallback)
    ensures p.Inherited? <==> attr.Some? && attr.value in PrototypeKeys
  {
    var named := DevicesLookup(attr);
    if named.Undefined? then DevicesLookup(Some(fallback)) else named
  }

  /**
   * `device="toString"` is not in the registry, yet the lookup finds the
   * inherited `Object.prototype.toString`, which is truthy, so the fallback
   * is skipped and no device is returned.
   */
  lemma InheritedNameEscapesFallback(fallback: string)
    requires fallback in Registry
    ensures "toString" !in Registry
    ensures !DeviceObjectAsWritten(Some("toString"), fallback).Own?
    ensures DeviceObjectAsWritten(Some("toString"), fallback) == Inherited("toString")
  {
  }

  /** Apart from inherited prototype names, the lookup as written agrees with `ResolveDevice`. */
  lemma AsWrittenAgreesOffPrototype(attr: Option<string>, fallback: string)
    requires fallback in Registry
    requires attr.Some? ==> attr.value !in PrototypeKeys
    ensures DeviceObjectAsWritten(attr, fallback) == Own(ResolveDevice(attr, fallback))
  {
    assert "null" !in PrototypeKeys && "null" !in Registry;
  }
}
