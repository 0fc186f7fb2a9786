/** The device record the discovery screen lists, and its construction from a
    platform device (BluetoothDevicesViewModel.kt, `Device` and `asDevice`). */
module Devices {

  datatype Option<T> = None | Some(value: T)

  /** Opaque reference to the platform's device object (`BluetoothDevice`); the
      model only carries it along and compares it. */
  type Handle = nat

  /** What the platform reports about a device at the moment it is read: its
      address and its name, which may still be null. */
  datatype PlatformDevice = PlatformDevice(handle: Handle, address: string, name: Option<string>)

  /** One entry of the device list. */
  datatype Device = Device(address: string, name: string, isRetrievingName: bool, source: Handle)

  /** Placeholder shown while a device's name is unknown. */
  const RetrievingPlaceholder: string := "retrieving name..."

  /** The device record for a platform device: a known name (even an empty one)
      is taken as is; a null name gives the placeholder and marks the record as
      waiting for its name. */
  function AsDevice(d: PlatformDevice): (r: Device)
    ensures r.address == d.address && r.source == d.handle
    ensures r.isRetrievingName <==> d.name.None?
    ensures d.name.Some? ==> r.name == d.name.value
    ensures d.name.None? ==> r.name == RetrievingPlaceholder
  {
    if d.name.Some? then Device(d.address, d.name.value, false, d.handle)
    else Device(d.address, RetrievingPlaceholder, true, d.handle)
  }

  /** `map { it.asDevice() }` over a list of platform devices. */
  function MapAsDevice(ds: seq<PlatformDevice>): (r: seq<Device>)
    ensures |r| == |ds|
    ensures forall i :: 0 <= i < |ds| ==> r[i] == AsDevice(ds[i])
  {
    if ds == [] then [] else [AsDevice(ds[0])] + MapAsDevice(ds[1..])
  }

  /** Number of list entries still waiting for their name. */
  function CountRetrieving(ds: seq<Device>): nat
  {
    if ds == [] then 0
    else (if ds[0].isRetrievingName then 1 else 0) + CountRetrieving(ds[1..])
  }

  /** Number of platform devices whose name is null. */
  function CountNullNames(ds: seq<PlatformDevice>): nat
  {
    if ds == [] then 0
    else (if ds[0].name.None? then 1 else 0) + CountNullNames(ds[1..])
  }

  /** Number of platform devices whose name is known. */
  function CountKnownNames(ds: seq<PlatformDevice>): nat
  {
    if ds == [] then 0
    else (if ds[0].name.Some? then 1 else 0) + CountKnownNames(ds[1..])
  }

  /** Mapping through `asDevice` gives exactly one waiting entry per null name. */
  lemma {:induction false} MapAsDeviceRetrievingCount(ds: seq<PlatformDevice>)
    ensures CountRetrieving(MapAsDevice(ds)) == CountNullNames(ds)
  {
    if ds != [] {
      MapAsDeviceRetrievingCount(ds[1..]);
      assert MapAsDevice(ds)[1..] == MapAsDevice(ds[1..]);
    }
  }

  /** Every platform device has either a known or a null name, so of N devices
      with M known names exactly N - M are null. */
  lemma {:induction false} KnownPlusNullNames(ds: seq<PlatformDevice>)
    ensures CountKnownNames(ds) + CountNullNames(ds) == |ds|
  {
    if ds != [] {
      KnownPlusNullNames(ds[1..]);
    }
  }

  /** Counting waiting entries distributes over concatenation. */
  lemma {:induction false} CountRetrievingAppend(a: seq<Device>, b: seq<Device>)
    ensures CountRetrieving(a + b) == CountRetrieving(a) + CountRetrieving(b)
  {
    if a == [] {
      assert a + b == b;
    } else {
      assert (a + b)[1..] == a[1..] + b;
      CountRetrievingAppend(a[1..], b);
    }
  }

  /** Equality of list entries as the source's `Device` data class defines it:
      field by field, where the `source` fields are platform devices compared
      by address. Every entry's source has the entry's own address (`asDevice`
      copies it), so two entries are equal exactly when their address, name and
      waiting flag agree, whichever platform objects they came from. */
  predicate SameEntry(a: Device, b: Device)
  {
    a.address == b.address && a.name == b.name && a.isRetrievingName == b.isRetrievingName
  }
}
