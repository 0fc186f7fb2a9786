/** The discovery tracker: the view model that owns the device list and the scan
    state, changed by the user's "Scan" action and by the platform's discovery
    broadcasts (BluetoothDevicesViewModel.kt). */
module Tracker {
  import opened Devices

  /** `BluetoothDevicesState`. */
  datatype ScanState = Idle | Scanning | Connecting | Finished

  /** The broadcast actions the receiver is given. `Found` carries the device
      extra of the intent, which may be missing. */
  datatype BroadcastAction =
    | DiscoveryStarted
    | Found(extra: Option<PlatformDevice>)
    | DiscoveryFinished
    | Other

  /** Calls the view model makes on the platform's Bluetooth adapter. */
  datatype AdapterCall = CancelDiscovery | StartDiscovery

  /** The observable state of the view model: scan state and device list. */
  datatype TrackerView = TrackerView(state: ScanState, devices: seq<Device>)

  /** A freshly created view model. */
  const Initial: TrackerView := TrackerView(Idle, [])

  /** The device list `scanDevices` leaves behind: it is cleared first, so a
      refused scan leaves it empty; a permitted one holds the bonded devices
      through `asDevice`, in order. */
  function ScanList(scanGranted: bool, bonded: seq<PlatformDevice>): (r: seq<Device>)
    ensures !scanGranted ==> r == []
    ensures scanGranted ==> |r| == |bonded| && forall i :: 0 <= i < |bonded| ==> r[i] == AsDevice(bonded[i])
    ensures CountRetrieving(r) == if scanGranted then CountNullNames(bonded) else 0
  {
    if scanGranted then
      MapAsDeviceRetrievingCount(bonded);
      MapAsDevice(bonded)
    else []
  }

  /** The adapter calls `scanDevices` makes: none when refused, otherwise a
      cancel followed by a start. */
  function ScanCalls(scanGranted: bool): seq<AdapterCall>
  {
    if scanGranted then [CancelDiscovery, StartDiscovery] else []
  }

  /** The entries a broadcast adds to the list: the found device, if the intent
      carries one. */
  function Added(a: BroadcastAction): seq<Device>
  {
    if a.Found? && a.extra.Some? then [AsDevice(a.extra.value)] else []
  }

  /** The effect of one broadcast on the view model (`receiver.onReceive`). */
  function Receive(v: TrackerView, a: BroadcastAction): (r: TrackerView)
    ensures |r.devices| == |v.devices| + (if a.Found? && a.extra.Some? then 1 else 0)
    ensures r.devices[..|v.devices|] == v.devices
    ensures a.Found? && a.extra.Some? ==> r.devices[|v.devices|] == AsDevice(a.extra.value)
    ensures a.DiscoveryStarted? ==> r.state == Scanning
    ensures a.DiscoveryFinished? ==> r.state == Finished
    ensures a.Found? || a.Other? ==> r.state == v.state
    ensures r.state == Connecting ==> v.state == Connecting
  {
    match a
    case DiscoveryStarted => v.(state := Scanning)
    case Found(extra) =>
      if extra.Some? then v.(devices := v.devices + [AsDevice(extra.value)]) else v
    case DiscoveryFinished => v.(state := Finished)
    case Other => v
  }

  /** A run of broadcasts, delivered in order. */
  function ReceiveAll(v: TrackerView, acts: seq<BroadcastAction>): TrackerView
    decreases |acts|
  {
    if acts == [] then v else ReceiveAll(Receive(v, acts[0]), acts[1..])
  }

  /** The devices found in a run of broadcasts, in arrival order. */
  function FoundDevices(acts: seq<BroadcastAction>): seq<Device>
  {
    if acts == [] then [] else Added(acts[0]) + FoundDevices(acts[1..])
  }

  /** One broadcast appends exactly what `Added` says. */
  lemma ReceiveAdds(v: TrackerView, a: BroadcastAction)
    ensures Receive(v, a).devices == v.devices + Added(a)
  {
    if !(a.Found? && a.extra.Some?) {
      assert v.devices + [] == v.devices;
    }
  }

  /** Broadcasts only ever append: after a run of them the list is the old list
      followed by every found device, in arrival order, duplicates included. */
  lemma {:induction false} ReceiveAllAppends(v: TrackerView, acts: seq<BroadcastAction>)
    ensures ReceiveAll(v, acts).devices == v.devices + FoundDevices(acts)
    decreases |acts|
  {
    if acts == [] {
      assert v.devices + [] == v.devices;
    } else {
      var w := Receive(v, acts[0]);
      ReceiveAdds(v, acts[0]);
      ReceiveAllAppends(w, acts[1..]);
      assert v.devices + Added(acts[0]) + FoundDevices(acts[1..])
          == v.devices + (Added(acts[0]) + FoundDevices(acts[1..]));
    }
  }

  /** One broadcast adds to the number of entries waiting for their name
      exactly the waiting entries it appends: one for a found device with a
      null name, none otherwise. */
  lemma ReceiveRetrievingCount(v: TrackerView, a: BroadcastAction)
    ensures CountRetrieving(Receive(v, a).devices)
         == CountRetrieving(v.devices) + (if a.Found? && a.extra.Some? && a.extra.value.name.None? then 1 else 0)
  {
    ReceiveAdds(v, a);
    CountRetrievingAppend(v.devices, Added(a));
    if a.Found? && a.extra.Some? {
      assert Added(a)[1..] == [];
    }
  }

  /** A run of broadcasts never takes the state to `Connecting`. */
  lemma {:induction false} ReceiveAllNotConnecting(v: TrackerView, acts: seq<BroadcastAction>)
    requires v.state != Connecting
    ensures ReceiveAll(v, acts).state != Connecting
    decreases |acts|
  {
    if acts != [] {
      ReceiveAllNotConnecting(Receive(v, acts[0]), acts[1..]);
    }
  }

  /** A run that ends with "discovery finished" followed only by found devices
      or unrelated actions leaves the state `Finished`. */
  lemma {:induction false} FinishedStaysFinished(v: TrackerView, acts: seq<BroadcastAction>)
    requires v.state == Finished
    requires forall i :: 0 <= i < |acts| ==> acts[i].Found? || acts[i].Other?
    ensures ReceiveAll(v, acts).state == Finished
  {
    ReceiveAllState(v, acts);
  }

  /** Found and unrelated broadcasts never change the scan state. */
  lemma {:induction false} ReceiveAllState(v: TrackerView, acts: seq<BroadcastAction>)
    requires forall i :: 0 <= i < |acts| ==> acts[i].Found? || acts[i].Other?
    ensures ReceiveAll(v, acts).state == v.state
    decreases |acts|
  {
    if acts != [] {
      ReceiveAllState(Receive(v, acts[0]), acts[1..]);
    }
  }

  /** The same platform device found twice is listed twice: nothing merges
      entries by address. */
  lemma FoundTwiceIsListedTwice(v: TrackerView, d: PlatformDevice)
    ensures var r := Receive(Receive(v, Found(Some(d))), Found(Some(d)));
      |r.devices| == |v.devices| + 2 && r.devices[|v.devices|] == r.devices[|v.devices| + 1]
  {
  }

  /** Everything that changes the view model: a user scan (given whether the
      scan permission is granted and the bonded devices) or a broadcast. */
  datatype Event =
    | UserScan(scanGranted: bool, bonded: seq<PlatformDevice>)
    | Broadcast(action: BroadcastAction)

  function Step(v: TrackerView, e: Event): TrackerView
  {
    match e
    case UserScan(g, bonded) => v.(devices := ScanList(g, bonded))
    case Broadcast(a) => Receive(v, a)
  }

  function Run(v: TrackerView, es: seq<Event>): TrackerView
    decreases |es|
  {
    if es == [] then v else Run(Step(v, es[0]), es[1..])
  }

  /** Neither a scan nor a broadcast ever assigns `Connecting`. */
  lemma {:induction false} RunNotConnecting(v: TrackerView, es: seq<Event>)
    requires v.state != Connecting
    ensures Run(v, es).state != Connecting
    decreases |es|
  {
    if es != [] {
      RunNotConnecting(Step(v, es[0]), es[1..]);
    }
  }

  /** From a fresh view model, no sequence of scans and broadcasts reaches
      `Connecting`. */
  lemma ReachableNeverConnecting(es: seq<Event>)
    ensures Run(Initial, es).state != Connecting
  {
    RunNotConnecting(Initial, es);
  }

  /** A scan starts the list over: whatever came before it, the list after a
      permitted scan followed by broadcasts is the bonded devices followed by the
      devices found, and the scan itself leaves the state alone. */
  lemma ScanThenBroadcasts(v: TrackerView, bonded: seq<PlatformDevice>, acts: seq<BroadcastAction>)
    ensures Step(v, UserScan(true, bonded)).state == v.state
    ensures ReceiveAll(Step(v, UserScan(true, bonded)), acts).devices
         == MapAsDevice(bonded) + FoundDevices(acts)
  {
    ReceiveAllAppends(Step(v, UserScan(true, bonded)), acts);
  }

  /** `BluetoothDevicesViewModel`: the device list and scan state, with a ghost
      record of the calls made on the adapter. */
  class BluetoothDevicesViewModel {
    var deviceList: seq<Device>
    var state: ScanState
    ghost var adapterCalls: seq<AdapterCall>

    /** No code path assigns `Connecting`. */
    ghost predicate Valid()
      reads this
    {
      state != Connecting
    }

    function View(): TrackerView
      reads this
    {
      TrackerView(state, deviceList)
    }

    constructor ()
      ensures Valid()
      ensures View() == Initial && adapterCalls == []
    {
      deviceList := [];
      state := Idle;
      adapterCalls := [];
    }

    /** `scanDevices`: clear the list; if scanning is not permitted, stop there;
        otherwise list the bonded devices, then cancel and restart discovery. */
    method ScanDevices(scanGranted: bool, bonded: seq<PlatformDevice>)
      requires Valid()
      modifies this
      ensures Valid()
      ensures deviceList == ScanList(scanGranted, bonded)
      ensures state == old(state)
      ensures adapterCalls == old(adapterCalls) + ScanCalls(scanGranted)
      ensures View() == Step(old(View()), UserScan(scanGranted, bonded))
    {
      deviceList := [];
      if !scanGranted {
        return;
      }
      deviceList := deviceList + MapAsDevice(bonded);
      adapterCalls := adapterCalls + [CancelDiscovery];
      adapterCalls := adapterCalls + [StartDiscovery];
    }

    /** `receiver.onReceive`. */
    method OnReceive(action: BroadcastAction)
      requires Valid()
      modifies this
      ensures Valid()
      ensures View() == Receive(old(View()), action)
      ensures adapterCalls == old(adapterCalls)
    {
      match action
      case DiscoveryStarted =>
        state := Scanning;
      case Found(extra) =>
        if extra.Some? {
          var foundDevice := AsDevice(extra.value);
          deviceList := deviceList + [foundDevice];
        }
      case DiscoveryFinished =>
        state := Finished;
      case Other =>
    }

    /** `deviceList[idx] = d`: overwrite one slot of the list. */
    method SetDevice(idx: nat, d: Device)
      requires Valid()
      requires idx < |deviceList|
      modifies this
      ensures Valid()
      ensures deviceList == old(deviceList)[idx := d]
      ensures state == old(state) && adapterCalls == old(adapterCalls)
    {
      deviceList := deviceList[idx := d];
    }
  }
}
