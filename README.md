# spacecrew2 device discovery, modelled in Dafny

spacecrew2 is an Android app. It lists nearby Bluetooth devices, has a "Scan" button, and has a placeholder "Connect" button for each device. This project models the part of the app that is not layout code:

- **The discovery tracker**, `BluetoothDevicesViewModel`. It owns the device list and the scan state (`IDLE`, `SCANNING`, `CONNECTING`, `FINISHED`). The user's scan action (`scanDevices`) changes them. So do three platform broadcasts handled by `receiver.onReceive`: discovery started, device found and discovery finished. A platform device becomes a list entry through `asDevice`. A device whose name is null at that moment gets the placeholder `"retrieving name..."` and is marked as waiting for its name.
- **Name resolution**, done by `DeviceCard`. For a waiting entry, the card reads the platform's name once a second. It stops at the first non-null read or when its 10-second timeout fires. The timeout clock starts before the first one-second wait, so the tenth wait is cut off and at most nine reads happen. It then writes back a copy of the entry. That copy has the name, or `"[no name available]"`, and is no longer waiting. The copy goes into the list slot that `DeviceList` found with `indexOf`.
- **Screen gating**, done by `BluetoothPermissionLayer` and `BluetoothToggleLayer`. The device screen is shown only when all six requested permissions are granted and the remembered Bluetooth-on flag is set. If any permission is missing, the permission prompt is shown. If the permissions are granted but the flag is not set, the turn-on prompt is shown.

The platform is given to the model as inputs:

- whether BLUETOOTH_SCAN is granted;
- the bonded devices;
- each broadcast, as a `BroadcastAction` whose `Found` case may carry no device;
- the names the platform reports at successive one-second ticks;
- the set of granted permissions and the remembered Bluetooth-on flag.

A ghost field, `adapterCalls`, records the calls made on the adapter (`cancelDiscovery`, `startDiscovery`).

Files:

- `devices.dfy` (module `Devices`): `Device`, `asDevice`, and counts of waiting entries.
- `tracker.dfy` (module `Tracker`): the transitions as pure functions (`ScanList`, `Receive`, `Run`) with lemmas about runs of events, and the class `BluetoothDevicesViewModel`, whose methods are proved against those functions.
- `name_resolution.dfy` (module `NameResolution`): the polling loop, finalisation, `DeviceCard`'s slot update, `indexOf` and `DeviceList`.
- `gating.dfy` (module `Gating`): the screen decision.

Three behaviours of the code that the model follows as written:

- A refused scan leaves the list **empty**, not unchanged, because `scanDevices` clears the list before it checks the permission.
- Polling stops at the first **non-null** name, so an empty name `""` also ends it. It does not wait for a non-empty name.
- A device found twice is listed twice. Nothing merges entries by address.

## Model

| member | source | states |
|---|---|---|
| `Devices.AsDevice` | app/src/main/java/self/chera/spacecrew/BluetoothDevicesViewModel.kt:29-35 | The address and platform handle are copied unchanged. The entry waits for its name exactly when the platform name is null. A non-null name, even `""`, is taken as is. A null name gives `"retrieving name..."`. |
| `Devices.MapAsDevice` | app/src/main/java/self/chera/spacecrew/BluetoothDevicesViewModel.kt:55 | `map { it.asDevice() }` keeps the length and order: entry `i` is `asDevice` of bonded device `i`. |
| `Devices.MapAsDeviceRetrievingCount` | app/src/main/java/self/chera/spacecrew/BluetoothDevicesViewModel.kt:29-35 | After mapping, the number of entries waiting for their name equals the number of platform devices with a null name. |
| `Devices.KnownPlusNullNames` | app/src/main/java/self/chera/spacecrew/BluetoothDevicesViewModel.kt:30 | Every platform device has a known name or a null one. So of N bonded devices with M known names, exactly N - M wait for their name. |
| `Devices.CountRetrievingAppend` | app/src/main/java/self/chera/spacecrew/BluetoothDevicesViewModel.kt:77 | Appending to the list adds the waiting entries of the appended part to the count. |
| `Tracker.ScanList` | app/src/main/java/self/chera/spacecrew/BluetoothDevicesViewModel.kt:42-55 | Without scan permission the list afterwards is empty. With it, the list is the bonded devices through `asDevice`, in order, with one waiting entry per null name. |
| `Tracker.Receive` | app/src/main/java/self/chera/spacecrew/BluetoothDevicesViewModel.kt:62-85 | Discovery started sets `SCANNING` and discovery finished sets `FINISHED`; neither changes the list. Found with a device appends exactly its `asDevice` and keeps every earlier entry. Found without a device, and any other action, change nothing. No broadcast produces `CONNECTING`. |
| `Tracker.ReceiveAdds` | app/src/main/java/self/chera/spacecrew/BluetoothDevicesViewModel.kt:69-79 | One broadcast appends the found device, if the intent carries one, and nothing else. |
| `Tracker.ReceiveRetrievingCount` | app/src/main/java/self/chera/spacecrew/BluetoothDevicesViewModel.kt:69-79 | One broadcast adds one waiting entry exactly when it carries a found device with a null name, and none otherwise. |
| `Tracker.ReceiveAllAppends` | app/src/main/java/self/chera/spacecrew/BluetoothDevicesViewModel.kt:69-79 | After any run of broadcasts, the list is the old list followed by every found device in arrival order. Duplicates are included. |
| `Tracker.ReceiveAllNotConnecting` | app/src/main/java/self/chera/spacecrew/BluetoothDevicesViewModel.kt:62-85 | No run of broadcasts reaches `CONNECTING` from another state. |
| `Tracker.ReceiveAllState` | app/src/main/java/self/chera/spacecrew/BluetoothDevicesViewModel.kt:69-79 | Found and unrelated broadcasts never change the scan state. |
| `Tracker.FinishedStaysFinished` | app/src/main/java/self/chera/spacecrew/BluetoothDevicesViewModel.kt:81-83 | Once discovery has finished, later found or unrelated broadcasts leave the state `FINISHED`. |
| `Tracker.FoundTwiceIsListedTwice` | app/src/main/java/self/chera/spacecrew/BluetoothDevicesViewModel.kt:75-77 | The same device found twice gives two equal entries at the end of the list. There is no dedup by address. |
| `Tracker.RunNotConnecting` | app/src/main/java/self/chera/spacecrew/BluetoothDevicesViewModel.kt:42-85 | Scans and broadcasts together never take the state to `CONNECTING` from another state. |
| `Tracker.ReachableNeverConnecting` | app/src/main/java/self/chera/spacecrew/BluetoothDevicesViewModel.kt:19-39 | From a fresh view model (`IDLE`, empty list), no sequence of scans and broadcasts reaches `CONNECTING`. |
| `Tracker.ScanThenBroadcasts` | app/src/main/java/self/chera/spacecrew/BluetoothDevicesViewModel.kt:42-85 | A permitted scan leaves the state alone. After it, whatever the earlier list, the list is the bonded devices followed by the devices found since. |
| `Tracker.BluetoothDevicesViewModel.constructor` | app/src/main/java/self/chera/spacecrew/BluetoothDevicesViewModel.kt:37-40 | A new view model is `IDLE` with an empty list and has made no adapter calls. |
| `Tracker.BluetoothDevicesViewModel.ScanDevices` | app/src/main/java/self/chera/spacecrew/BluetoothDevicesViewModel.kt:42-59 | The list becomes `ScanList`. The scan state never changes. A refused scan makes no adapter call. A permitted scan calls `cancelDiscovery` and then `startDiscovery`. |
| `Tracker.BluetoothDevicesViewModel.OnReceive` | app/src/main/java/self/chera/spacecrew/BluetoothDevicesViewModel.kt:61-86 | The state and list change exactly as `Receive` says. No adapter call is made. The invariant "never `CONNECTING`" is kept. |
| `Tracker.BluetoothDevicesViewModel.SetDevice` | app/src/main/java/self/chera/spacecrew/MainActivity.kt:314 | For an index within the list, only that slot is overwritten. The length, every other entry and the scan state are unchanged. |
| `NameResolution.FirstNameCharacterised` | app/src/main/java/self/chera/spacecrew/MainActivity.kt:302-309 | The first name within the time limit is null exactly when all reads within the limit are null. Otherwise it is the read at some tick with only null reads before it. |
| `NameResolution.FirstNameAt` | app/src/main/java/self/chera/spacecrew/MainActivity.kt:304-307 | The first non-null read within the limit is the name the wait returns. |
| `NameResolution.PollName` | app/src/main/java/self/chera/spacecrew/MainActivity.kt:302-309 | The loop reads at most 9 times: the 10000 ms timeout starts before the first 1000 ms wait, so the tenth wait ends after the deadline. It returns the first non-null name, read at its last poll, with every earlier read null. If all 9 reads are null, it returns null. |
| `NameResolution.Finalise` | app/src/main/java/self/chera/spacecrew/MainActivity.kt:310-313 | The written-back copy has the same address and handle and is no longer waiting. Its name is the retrieved name, or `"[no name available]"` when none came. |
| `NameResolution.FinaliseSlot` | app/src/main/java/self/chera/spacecrew/MainActivity.kt:310-314 | Writing the finalised copy into one slot keeps the list length and every other entry. The number of waiting entries drops by one exactly when that slot was waiting. |
| `NameResolution.DeviceCard` | app/src/main/java/self/chera/spacecrew/MainActivity.kt:295-316 | Resolution starts only for an entry that is waiting for its name. When it starts, only slot `deviceIdx` is replaced, by the finalised copy carrying the first name read. Otherwise the list is unchanged. The scan state and adapter calls are never touched. |
| `NameResolution.IndexOf` | app/src/main/java/self/chera/spacecrew/MainActivity.kt:279 | `indexOf` is -1 exactly when no entry equals the device. Otherwise it is the position of the first equal entry. Entries are equal when address, name and waiting flag agree, as the data class's `equals` gives with platform devices compared by address. |
| `NameResolution.DeviceList` | app/src/main/java/self/chera/spacecrew/MainActivity.kt:275-289 | "No device found" is shown exactly when the list is empty. Otherwise each entry has a card, and each card's slot holds an equal entry at or before the card's own position. |
| `NameResolution.DuplicatesShareSlot` | app/src/main/java/self/chera/spacecrew/MainActivity.kt:277-280 | Equal entries resolve to the same, first slot, even when they came from different platform objects for one address. A later duplicate's card never works on its own slot. |
| `Gating.GatedScreen` | app/src/main/java/self/chera/spacecrew/MainActivity.kt:107-175 | The device screen is shown exactly when all six permissions are granted and the remembered Bluetooth-on flag is set. The permission prompt is shown exactly when some permission is missing. The turn-on prompt is shown exactly when the permissions are granted and the flag is not set. |
| `Gating.NavigationNeedsEveryPermission` | app/src/main/java/self/chera/spacecrew/MainActivity.kt:96-122 | On the device screen, every requested permission is granted, BLUETOOTH_SCAN included, and the remembered Bluetooth-on flag is set. |
| `Gating.MissingPermissionPrompts` | app/src/main/java/self/chera/spacecrew/MainActivity.kt:132-152 | Any single missing permission brings up the permission prompt, whatever the adapter state. |

## Left out

- Compose layout, theming, `Scaffold`, navigation, the buttons' rendering and the preview are not modelled. They are UI rendering with no state of their own.
- Registering and unregistering the broadcast receiver, and watching the lifecycle, are not modelled. They are platform plumbing.
- The permission-request and enable-Bluetooth launchers are foreign activity-result calls. Only their outcomes are modelled: the granted set and the adapter-on flag given to `Gating.GatedScreen`.
- `BluetoothAdapter`, `BluetoothManager`, `Intent` and `Parcel` are external libraries. The platform device is a value with an opaque handle, an address and the name read at that moment. The test-only `Parcel` default for `source` is not modelled.
- The "Bluetooth SCAN not allowed" message printed on a refused scan is output only and is not modelled.
- Coroutine dispatch and wall-clock timing are not modelled. Time is a sequence of one-second ticks, and the time a read takes is not modelled beyond the fact that it delays the next wait.
- `NameResolution.DeviceCard`: does not model the race between the background write and a rescan. The source writes to `deviceIdx` up to 10 seconds after reading the entry. A rescan in between clears the list and refills it with the bonded devices at once. If the index is then out of range, the write throws. If it is in range, which is the usual case, the write silently replaces whatever entry now sits at `deviceIdx` with the old entry's finalised copy. The model runs the card to completion at once and requires the index to be in range, so neither outcome is captured.
- `NameResolution.DeviceList`: does not model that the lazy list composes only the cards scrolled into view. Name resolution starts only for visible entries. An entry that scrolls out and back in can start it a second time, because the background coroutine scope is never cancelled. The model gives every entry a card and runs each card once.
- `Gating.GatedScreen`: does not model that the Bluetooth-on flag goes stale. The flag is read from the adapter when the toggle layer is first composed and is refreshed only when the enable-Bluetooth request returns. Bluetooth switched off elsewhere leaves the device screen shown. The model takes the remembered flag as its input.
- The concurrency of several cards resolving at once is not modelled. Each `DeviceCard` call runs alone.
- Compose snapshot state (`mutableStateListOf`, `mutableStateOf`) is a plain sequence field and a plain enum field here. Change notification to the UI is not modelled.
