/** Which screen the app shows, decided by the permission layer and then the
    Bluetooth toggle layer (MainActivity.kt, `BluetoothLayer`,
    `BluetoothPermissionLayer`, `BluetoothToggleLayer`). */
module Gating {

  /** The permissions `BluetoothLayer` asks for. */
  datatype Permission =
    | Bluetooth
    | BluetoothScan
    | BluetoothConnect
    | BluetoothAdmin
    | AccessCoarseLocation
    | AccessFineLocation

  const RequestedPermissions: seq<Permission> :=
    [Bluetooth, BluetoothScan, BluetoothConnect, BluetoothAdmin, AccessCoarseLocation, AccessFineLocation]

  /** `allPermissionsGranted` over the requested list, given the set of
      permissions the platform reports as granted. */
  predicate AllPermissionsGranted(granted: set<Permission>)
  {
    forall i :: 0 <= i < |RequestedPermissions| ==> RequestedPermissions[i] in granted
  }

  datatype Screen =
    | NavigationContent   // the device screen
    | PermissionPrompt    // "Bluetooth is needed" with a grant button
    | TogglePrompt        // "Bluetooth is turned off" with a turn-on button

  /** The permission layer wraps the toggle layer: permissions first, then
      whether the adapter is on. */
  function GatedScreen(granted: set<Permission>, isBluetoothOn: bool): (r: Screen)
    ensures r == NavigationContent <==> AllPermissionsGranted(granted) && isBluetoothOn
    ensures r == PermissionPrompt <==> !AllPermissionsGranted(granted)
    ensures r == TogglePrompt <==> AllPermissionsGranted(granted) && !isBluetoothOn
  {
    if AllPermissionsGranted(granted) then
      if isBluetoothOn then NavigationContent else TogglePrompt
    else PermissionPrompt
  }

  /** The device screen, and with it the "Scan" button, is only reachable with
      every one of the six permissions granted, BLUETOOTH_SCAN among them. */
  lemma NavigationNeedsEveryPermission(granted: set<Permission>, isBluetoothOn: bool, p: Permission)
    requires GatedScreen(granted, isBluetoothOn) == NavigationContent
    ensures p in granted && isBluetoothOn
  {
    match p
    case Bluetooth => assert RequestedPermissions[0] == p;
    case BluetoothScan => assert RequestedPermissions[1] == p;
    case BluetoothConnect => assert RequestedPermissions[2] == p;
    case BluetoothAdmin => assert RequestedPermissions[3] == p;
    case AccessCoarseLocation => assert RequestedPermissions[4] == p;
    case AccessFineLocation => assert RequestedPermissions[5] == p;
  }

  /** A single missing permission is enough to show the permission prompt,
      whatever the adapter state. */
  lemma MissingPermissionPrompts(granted: set<Permission>, isBluetoothOn: bool, p: Permission)
    requires p !in granted
    ensures GatedScreen(granted, isBluetoothOn) == PermissionPrompt
  {
    match p
    case Bluetooth => assert RequestedPermissions[0] == p;
    case BluetoothScan => assert RequestedPermissions[1] == p;
    case BluetoothConnect => assert RequestedPermissions[2] == p;
    case BluetoothAdmin => assert RequestedPermissions[3] == p;
    case AccessCoarseLocation => assert RequestedPermissions[4] == p;
    case AccessFineLocation => assert RequestedPermissions[5] == p;
  }
}
