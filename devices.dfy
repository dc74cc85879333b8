/** Device enumeration results and the default camera and microphone choice made from them. */
module Devices {

  datatype DeviceKind = VideoInput | AudioInput | AudioOutput

  /** A `MediaDeviceInfo`. */
  datatype DeviceInfo = DeviceInfo(deviceId: string, kind: DeviceKind, deviceLabel: string)

  /** `devices.filter(device => device.kind === kind)`. */
  function OfKind(devices: seq<DeviceInfo>, kind: DeviceKind): (r: seq<DeviceInfo>)
    ensures forall d :: d in r <==> d in devices && d.kind == kind
    ensures |r| <= |devices|
    ensures (forall d :: d in devices ==> d.kind != kind) ==> r == []
  {
    if devices == [] then []
    else if devices[0].kind == kind then [devices[0]] + OfKind(devices[1..], kind)
    else OfKind(devices[1..], kind)
  }

  /** `if (list.length) set(list[0].deviceId)`: the id held afterwards. */
  function Chosen(list: seq<DeviceInfo>, current: string): string
  {
    if |list| > 0 then list[0].deviceId else current
  }

  /** Index `i` holds the first device of the given kind. */
  ghost predicate IsFirstOfKind(devices: seq<DeviceInfo>, kind: DeviceKind, i: int)
  {
    0 <= i < |devices| && devices[i].kind == kind &&
    forall j :: 0 <= j < i ==> devices[j].kind != kind
  }

  /** The selection rule stated without the filter: the first device of that kind wins,
      and when there is none the previous selection stays. */
  ghost predicate DefaultChoice(devices: seq<DeviceInfo>, kind: DeviceKind, before: string, after: string)
  {
    if exists d :: d in devices && d.kind == kind
    then exists i :: IsFirstOfKind(devices, kind, i) && after == devices[i].deviceId
    else after == before
  }

  lemma {:induction false} FirstOfKindHeadsFilter(devices: seq<DeviceInfo>, kind: DeviceKind, i: int)
    requires IsFirstOfKind(devices, kind, i)
    ensures OfKind(devices, kind) != [] && OfKind(devices, kind)[0] == devices[i]
  {
    if i > 0 {
      assert devices[0].kind != kind;
      FirstOfKindHeadsFilter(devices[1..], kind, i - 1);
    }
  }

  lemma {:induction false} SomeOfKindHasFirst(devices: seq<DeviceInfo>, kind: DeviceKind, d: DeviceInfo)
    requires d in devices && d.kind == kind
    ensures exists i :: IsFirstOfKind(devices, kind, i)
  {
    if devices[0].kind == kind {
      assert IsFirstOfKind(devices, kind, 0);
    } else {
      assert d in devices[1..];
      SomeOfKindHasFirst(devices[1..], kind, d);
      var i :| IsFirstOfKind(devices[1..], kind, i);
      assert IsFirstOfKind(devices, kind, i + 1);
    }
  }

  /** Choosing from the filtered list is the default-selection rule. */
  lemma ChosenIsDefault(devices: seq<DeviceInfo>, kind: DeviceKind, current: string)
    ensures DefaultChoice(devices, kind, current, Chosen(OfKind(devices, kind), current))
  {
    if d :| d in devices && d.kind == kind {
      SomeOfKindHasFirst(devices, kind, d);
      var i :| IsFirstOfKind(devices, kind, i);
      FirstOfKindHeadsFilter(devices, kind, i);
    } else {
      assert OfKind(devices, kind) == [];
    }
  }
}
