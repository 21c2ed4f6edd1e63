/**
 * The runtime permissions a scan needs, as a stateless rule set. The SDK level,
 * the set of permissions the platform reports as granted and the two location
 * provider switches are parameters.
 */
module BlePermissionHelper {
  import opened Sequences

  /** Build.VERSION_CODES.S (Android 12). */
  const VERSION_CODES_S: int := 31

  const BLUETOOTH_SCAN: string := "android.permission.BLUETOOTH_SCAN"
  const BLUETOOTH_CONNECT: string := "android.permission.BLUETOOTH_CONNECT"
  const ACCESS_FINE_LOCATION: string := "android.permission.ACCESS_FINE_LOCATION"

  /** From Android 12 on the two Bluetooth permissions, before it fine location alone. */
  function RequiredPermissions(sdk: int): (r: seq<string>)
    ensures sdk >= VERSION_CODES_S ==> r == [BLUETOOTH_SCAN, BLUETOOTH_CONNECT]
    ensures sdk < VERSION_CODES_S ==> r == [ACCESS_FINE_LOCATION]
    ensures (ACCESS_FINE_LOCATION in r) <==> sdk < VERSION_CODES_S
    ensures (BLUETOOTH_SCAN in r) <==> sdk >= VERSION_CODES_S
    ensures (BLUETOOTH_CONNECT in r) <==> sdk >= VERSION_CODES_S
  {
    if sdk >= VERSION_CODES_S then [BLUETOOTH_SCAN, BLUETOOTH_CONNECT]
    else [ACCESS_FINE_LOCATION]
  }

  /** Kotlin's `all { hasPermission(it) }` over a list. */
  function AllGranted(perms: seq<string>, granted: set<string>): (r: bool)
    ensures r <==> forall p :: p in perms ==> p in granted
  {
    if perms == [] then true
    else perms[0] in granted && AllGranted(perms[1..], granted)
  }

  /** Kotlin's `filterNot { hasPermission(it) }` over a list. */
  function NotGranted(perms: seq<string>, granted: set<string>): (r: seq<string>)
    ensures IsSubsequence(r, perms)
    ensures forall p :: p in r <==> p in perms && p !in granted
    ensures forall p :: p !in granted ==> multiset(r)[p] == multiset(perms)[p]
    ensures |r| <= |perms|
  {
    if perms == [] then []
    else
      assert perms == [perms[0]] + perms[1..];
      if perms[0] in granted then NotGranted(perms[1..], granted)
      else [perms[0]] + NotGranted(perms[1..], granted)
  }

  function HasAllPermissions(sdk: int, granted: set<string>): (r: bool)
    ensures r <==> forall p :: p in RequiredPermissions(sdk) ==> p in granted
  {
    AllGranted(RequiredPermissions(sdk), granted)
  }

  /** The required permissions not granted, in the order `RequiredPermissions` lists them. */
  function Missing(sdk: int, granted: set<string>): (r: seq<string>)
    ensures IsSubsequence(r, RequiredPermissions(sdk))
    ensures forall p :: p in r <==> p in RequiredPermissions(sdk) && p !in granted
  {
    NotGranted(RequiredPermissions(sdk), granted)
  }

  /** `all` and `filterNot` with the same test agree: everything passes iff nothing is filtered out. */
  lemma {:induction false} AllGrantedIffNoneFiltered(perms: seq<string>, granted: set<string>)
    ensures AllGranted(perms, granted) <==> NotGranted(perms, granted) == []
  {
    if perms != [] {
      AllGrantedIffNoneFiltered(perms[1..], granted);
    }
  }

  lemma HasAllIffNothingMissing(sdk: int, granted: set<string>)
    ensures HasAllPermissions(sdk, granted) <==> Missing(sdk, granted) == []
  {
    AllGrantedIffNoneFiltered(RequiredPermissions(sdk), granted);
  }

  /** Before Android 12 scanning needs a location provider switched on; from 12 on it does not. */
  function IsLocationEnabledIfRequired(sdk: int, gpsEnabled: bool, networkEnabled: bool): (r: bool)
    ensures sdk >= VERSION_CODES_S ==> r
    ensures sdk < VERSION_CODES_S ==> (r <==> gpsEnabled || networkEnabled)
    ensures !r ==> !gpsEnabled && !networkEnabled
  {
    if sdk >= VERSION_CODES_S then true
    else gpsEnabled || networkEnabled
  }
}
