/**
 * Locating the configured humidifier among the devices one BLE scan reported:
 * the first device in scan order whose address equals the configured MAC
 * address, compared exactly (case-sensitive string equality).
 */
module DeviceLookup {
  import opened Options

  /** A device reported by a scan; only its address takes part in the lookup. */
  datatype Device = Device(address: string, modelName: string)

  /** `device.address == this.bleMac` */
  predicate Matches(d: Device, mac: string) {
    d.address == mac
  }

  /** Index of the first device in scan order whose address is `mac`, if any. */
  function FindFirst(devices: seq<Device>, mac: string): (r: Option<nat>)
    ensures r.Some? ==> r.value < |devices| && Matches(devices[r.value], mac)
    ensures r.Some? ==> forall j :: 0 <= j < r.value ==> !Matches(devices[j], mac)
    ensures r.None? <==> forall j :: 0 <= j < |devices| ==> !Matches(devices[j], mac)
  {
    if |devices| == 0 then None
    else if Matches(devices[0], mac) then Some(0)
    else match FindFirst(devices[1..], mac)
      case None => None
      case Some(i) => Some(i + 1)
  }

  /**
   * The scan callback's `for ... of` loop: it keeps `targetDevice` null until a
   * device matches, takes that device and breaks.
   */
  method FindTargetDevice(devices: seq<Device>, mac: string) returns (target: Option<Device>)
    ensures target.None? <==> FindFirst(devices, mac).None?
    ensures target.Some? ==> target.value == devices[FindFirst(devices, mac).value]
  {
    target := None;
    var i := 0;
    while i < |devices|
      invariant 0 <= i <= |devices|
      invariant target.None?
      invariant forall j :: 0 <= j < i ==> !Matches(devices[j], mac)
    {
      if Matches(devices[i], mac) {
        target := Some(devices[i]);
        FirstMatchIsFound(devices, mac, i);
        break;
      }
      i := i + 1;
    }
  }

  /** A matching device with no match before it is exactly what the lookup returns. */
  lemma FirstMatchIsFound(devices: seq<Device>, mac: string, i: nat)
    requires i < |devices| && Matches(devices[i], mac)
    requires forall j :: 0 <= j < i ==> !Matches(devices[j], mac)
    ensures FindFirst(devices, mac) == Some(i)
  {
  }

  /** Devices reported after the first match never change which device is taken. */
  lemma {:induction false} LaterDevicesIgnored(devices: seq<Device>, more: seq<Device>, mac: string)
    requires FindFirst(devices, mac).Some?
    ensures FindFirst(devices + more, mac) == FindFirst(devices, mac)
  {
    var i := FindFirst(devices, mac).value;
    forall j | 0 <= j < i ensures !Matches((devices + more)[j], mac) {
      assert (devices + more)[j] == devices[j];
    }
    FirstMatchIsFound(devices + more, mac, i);
  }

}
