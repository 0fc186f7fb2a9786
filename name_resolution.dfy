/** Name resolution for listed devices whose name was unknown when they were
    found, and the mapping from list entries to cards (MainActivity.kt,
    `DeviceList` and `DeviceCard`). */
module NameResolution {
  import opened Devices
  import opened Tracker

  /** The card waits one second between reads of the platform's name ... */
  const PollIntervalMs: nat := 1000
  /** ... and gives up after ten seconds in all. */
  const TimeoutMs: nat := 10000
  /** The timeout clock starts before the first wait, and every wait starts only
      after the previous read has returned, so the k-th read happens strictly
      after k seconds. The tenth wait therefore cannot end before the deadline
      and is cancelled by it: at most nine reads are made. */
  const MaxPolls: nat := (TimeoutMs - 1) / PollIntervalMs

  /** Name given to a device whose name never arrived. */
  const NoNameFallback: string := "[no name available]"

  /** The name the platform reports at the read after tick `k + 1`;
      `observations` lists them in order, and reads past its end see null. */
  function NameAt(observations: seq<Option<string>>, k: nat): Option<string>
  {
    if k < |observations| then observations[k] else None
  }

  /** The first non-null name among the first `n` reads, if any. */
  function FirstName(observations: seq<Option<string>>, n: nat): Option<string>
    decreases n
  {
    if n == 0 || observations == [] then None
    else if observations[0].Some? then observations[0]
    else FirstName(observations[1..], n - 1)
  }

  /** `FirstName` finds nothing exactly when every one of the first `n` reads is
      null, and otherwise finds the read at some position `k < n` with only
      nulls before it. */
  lemma {:induction false} FirstNameCharacterised(observations: seq<Option<string>>, n: nat)
    ensures FirstName(observations, n).None? <==> forall k :: 0 <= k < n ==> NameAt(observations, k).None?
    ensures FirstName(observations, n).Some? ==>
      exists k :: 0 <= k < n && NameAt(observations, k) == FirstName(observations, n) &&
        forall j :: 0 <= j < k ==> NameAt(observations, j).None?
    decreases n
  {
    if n == 0 || observations == [] {
    } else if observations[0].Some? {
      assert NameAt(observations, 0) == FirstName(observations, n);
    } else {
      var rest := observations[1..];
      FirstNameCharacterised(rest, n - 1);
      forall k | 1 <= k < n
        ensures NameAt(observations, k) == NameAt(rest, k - 1)
      {
      }
      if FirstName(rest, n - 1).Some? {
        var k :| 0 <= k < n - 1 && NameAt(rest, k) == FirstName(rest, n - 1) &&
          forall j :: 0 <= j < k ==> NameAt(rest, j).None?;
        assert NameAt(observations, k + 1) == FirstName(observations, n);
        assert forall j :: 0 <= j < k + 1 ==> NameAt(observations, j).None? by {
          forall j | 0 <= j < k + 1 ensures NameAt(observations, j).None? {
            if j > 0 { assert NameAt(rest, j - 1).None?; }
          }
        }
      } else {
        assert forall k :: 0 <= k < n ==> NameAt(observations, k).None? by {
          forall k | 0 <= k < n ensures NameAt(observations, k).None? {
            if k > 0 { assert NameAt(rest, k - 1).None?; }
          }
        }
      }
    }
  }

  /** A read that is the first non-null one within the first `n` is what
      `FirstName` returns. */
  lemma {:induction false} FirstNameAt(observations: seq<Option<string>>, n: nat, k: nat)
    requires k < n && NameAt(observations, k).Some?
    requires forall j :: 0 <= j < k ==> NameAt(observations, j).None?
    ensures FirstName(observations, n) == NameAt(observations, k)
    decreases k
  {
    assert observations != [];
    if k > 0 {
      assert NameAt(observations, 0).None?;
      forall j | 0 <= j < k - 1 ensures NameAt(observations[1..], j).None? {
        assert NameAt(observations, j + 1).None?;
      }
      FirstNameAt(observations[1..], n - 1, k - 1);
    }
  }

  /** The polling loop of `DeviceCard`: wait a tick, read the name, and stop at
      the first non-null read or when the time is up. Returns the name (null on
      timeout) and the number of reads made. */
  method PollName(observations: seq<Option<string>>) returns (retrieved: Option<string>, polls: nat)
    ensures polls <= MaxPolls
    ensures retrieved.Some? ==>
      1 <= polls && NameAt(observations, polls - 1) == retrieved &&
      forall k :: 0 <= k < polls - 1 ==> NameAt(observations, k).None?
    ensures retrieved.None? ==>
      polls == MaxPolls && forall k :: 0 <= k < MaxPolls ==> NameAt(observations, k).None?
    ensures retrieved == FirstName(observations, MaxPolls)
  {
    var retrieving: Option<string> := None;
    polls := 0;
    while retrieving.None? && polls < MaxPolls
      invariant polls <= MaxPolls
      invariant retrieving.None? ==> forall k :: 0 <= k < polls ==> NameAt(observations, k).None?
      invariant retrieving.Some? ==>
        1 <= polls && NameAt(observations, polls - 1) == retrieving &&
        forall k :: 0 <= k < polls - 1 ==> NameAt(observations, k).None?
      decreases MaxPolls - polls
    {
      retrieving := NameAt(observations, polls);
      polls := polls + 1;
    }
    retrieved := retrieving;
    if retrieved.Some? {
      FirstNameAt(observations, MaxPolls, polls - 1);
    } else {
      FirstNameCharacterised(observations, MaxPolls);
    }
  }

  /** The record a card writes back once resolution is over: a copy of the old
      record with the retrieved name, or the fallback, and no longer waiting. */
  function Finalise(d: Device, retrieved: Option<string>): (r: Device)
    ensures r.address == d.address && r.source == d.source
    ensures !r.isRetrievingName
    ensures retrieved.Some? ==> r.name == retrieved.value
    ensures retrieved.None? ==> r.name == NoNameFallback
  {
    d.(name := if retrieved.Some? then retrieved.value else NoNameFallback,
       isRetrievingName := false)
  }

  /** Writing a finalised record into slot `idx` keeps the length and every
      other entry, and leaves one fewer entry waiting if that slot was waiting. */
  lemma {:induction false} FinaliseSlot(ds: seq<Device>, idx: nat, retrieved: Option<string>)
    requires idx < |ds|
    ensures var r := ds[idx := Finalise(ds[idx], retrieved)];
      |r| == |ds| &&
      (forall j :: 0 <= j < |ds| && j != idx ==> r[j] == ds[j]) &&
      CountRetrieving(r) + (if ds[idx].isRetrievingName then 1 else 0) == CountRetrieving(ds)
    decreases idx
  {
    var r := ds[idx := Finalise(ds[idx], retrieved)];
    if idx > 0 {
      FinaliseSlot(ds[1..], idx - 1, retrieved);
      assert r[1..] == ds[1..][idx - 1 := Finalise(ds[1..][idx - 1], retrieved)];
    } else {
      assert r[1..] == ds[1..];
    }
  }

  /** `DeviceCard` for the card at `deviceIdx`: if its device waits for a name,
      poll for it and overwrite that slot with the finalised record; otherwise
      change nothing. The source does not ensure `deviceIdx` is still in range
      when the write happens (a rescan may have cleared the list meanwhile);
      here it is a precondition. */
  method DeviceCard(vm: BluetoothDevicesViewModel, deviceIdx: nat, observations: seq<Option<string>>)
    returns (started: bool)
    requires vm.Valid()
    requires deviceIdx < |vm.deviceList|
    modifies vm
    ensures vm.Valid()
    ensures started == old(vm.deviceList[deviceIdx]).isRetrievingName
    ensures started ==>
      vm.deviceList == old(vm.deviceList)[deviceIdx := Finalise(old(vm.deviceList[deviceIdx]), FirstName(observations, MaxPolls))]
    ensures !started ==> vm.deviceList == old(vm.deviceList)
    ensures vm.state == old(vm.state) && vm.adapterCalls == old(vm.adapterCalls)
  {
    var device := vm.deviceList[deviceIdx];
    started := device.isRetrievingName;
    if started {
      var retrievedName, _ := PollName(observations);
      var updatedDevice := Finalise(device, retrievedName);
      vm.SetDevice(deviceIdx, updatedDevice);
    }
  }

  /** `List.indexOf`: the position of the first entry equal to `d` (in the sense
      of `SameEntry`), or -1. */
  function IndexOf(ds: seq<Device>, d: Device): (r: int)
    ensures -1 <= r < |ds|
    ensures r == -1 <==> forall j :: 0 <= j < |ds| ==> !SameEntry(ds[j], d)
    ensures 0 <= r ==> SameEntry(ds[r], d) && forall j :: 0 <= j < r ==> !SameEntry(ds[j], d)
  {
    if ds == [] then -1
    else if SameEntry(ds[0], d) then 0
    else
      var k := IndexOf(ds[1..], d);
      if k < 0 then -1 else k + 1
  }

  /** What `DeviceList` shows: a placeholder text, or one card per entry, each
      given the slot `indexOf` finds for its device. */
  datatype ListContent = NoDeviceFound | Cards(slots: seq<int>)

  function DeviceList(ds: seq<Device>): (r: ListContent)
    ensures r.NoDeviceFound? <==> ds == []
    ensures r.Cards? ==>
      |r.slots| == |ds| && forall k :: 0 <= k < |ds| ==> 0 <= r.slots[k] <= k && SameEntry(ds[r.slots[k]], ds[k])
  {
    if ds == [] then NoDeviceFound
    else Cards(seq(|ds|, k requires 0 <= k < |ds| => IndexOf(ds, ds[k])))
  }

  /** Equal entries get the same slot, even when they came from different
      platform objects for one address (a bonded entry and a later find): a
      later duplicate's card works on the first copy, never on its own slot. */
  lemma DuplicatesShareSlot(ds: seq<Device>, i: nat, j: nat)
    requires i < j < |ds| && SameEntry(ds[i], ds[j])
    ensures DeviceList(ds).Cards?
    ensures DeviceList(ds).slots[j] == DeviceList(ds).slots[i] <= i
    ensures DeviceList(ds).slots[j] != j
  {
  }
}
