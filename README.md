# BLE client library: scan, connect and permission rules

This project models the state kept by the RamaBleManager Android BLE client and proves properties of it in Dafny.

- **`AndroidBleClient`** is a class. Its fields are `connState`, `services` (the source's `_services`), `gatt`, `bleScanner`, `scanCallback` and `isScanning`. Each caller action and each platform callback is a method on it or on the object that receives the callback in the source:
  - `ScanCallback` receives scan results and scan failures.
  - `GattCallback` receives link changes and service discovery.
  - `Continuation` is the pending `connect` call, which is resumed or cancelled.
- **Platform answers are parameters.** They are: adapter present and enabled, SDK level, granted permissions, the GPS and network provider switches, whether a Bluetooth adapter is present for `connect`, GATT status codes, and the discovered services.
- **Platform calls are recorded.** The calls the client makes are appended to a ghost trace `radio`: start and stop scan, connectGatt, discoverServices, disconnect and close.
- **The permission rules** are pure functions over the required-permission list.
- **The navigator's scan wiring** has two parts. `OnStartScan` cancels the previous scan job, stops the client's scan and then launches a new job. Each `ScanJob` owns its `seen` set, empty when the job is launched. `CollectScan` is the collect loop of one job: it forwards each device whose address is not yet in `seen`.

Files: `wrappers.dfy` (Option), `sequences.dfy` (subsequence predicate), `ble_models.dfy` (devices, GATT catalog, connection state), `ble_permission_helper.dfy`, `android_ble_client.dfy`, `client_scenarios.dfy` (whole connect sequences), `app_navigator.dfy`.

Behaviours the model keeps exactly as the code has them:
- **Catalog after failure.** A failed link or a failed discovery publishes `Failed` but keeps the service catalog and `gatt`. So a non-empty catalog does not imply Connected. `ClientScenarios.LinkLostAfterConnected` shows a Failed state with a non-empty catalog.
- **A failed discovery releases nothing.** It publishes `Failed` and resumes a still-pending call with it. It neither closes the session nor clears `gatt` or the catalog.
- **A second `connect` does not close the previous session.** It overwrites `gatt` and leaves the previous session open.
- **Any CONNECTED event starts discovery.** A non-success status paired with CONNECTED is not a failure.

## Model

| member | source | states |
|---|---|---|
| BlePermissionHelper.RequiredPermissions | ramaBleManager/src/main/java/com/ramasofts/ramablemanager/BlePermissionHelper.kt:11-17 | from SDK 31 (S) exactly [BLUETOOTH_SCAN, BLUETOOTH_CONNECT], below it exactly [ACCESS_FINE_LOCATION]; fine location is required iff the SDK is below S |
| BlePermissionHelper.AllGranted | ramaBleManager/src/main/java/com/ramasofts/ramablemanager/BlePermissionHelper.kt:19-20 | `all`: true iff every listed permission is granted |
| BlePermissionHelper.NotGranted | ramaBleManager/src/main/java/com/ramasofts/ramablemanager/BlePermissionHelper.kt:22-23 | `filterNot`: an order-preserving sub-list holding exactly the listed permissions that are not granted, each as often as the input lists it |
| BlePermissionHelper.HasAllPermissions | ramaBleManager/src/main/java/com/ramasofts/ramablemanager/BlePermissionHelper.kt:19-20 | true iff every required permission is granted |
| BlePermissionHelper.Missing | ramaBleManager/src/main/java/com/ramasofts/ramablemanager/BlePermissionHelper.kt:22-23 | a sub-list of the required permissions, in their order, holding exactly those not granted |
| BlePermissionHelper.AllGrantedIffNoneFiltered | ramaBleManager/src/main/java/com/ramasofts/ramablemanager/BlePermissionHelper.kt:19-23 | `all` and `filterNot` with the same test agree: all pass iff nothing is filtered out |
| BlePermissionHelper.HasAllIffNothingMissing | ramaBleManager/src/main/java/com/ramasofts/ramablemanager/BlePermissionHelper.kt:19-23 | hasAllPermissions is true iff missing is empty |
| BlePermissionHelper.IsLocationEnabledIfRequired | ramaBleManager/src/main/java/com/ramasofts/ramablemanager/BlePermissionHelper.kt:28-33 | always true from SDK S; below S true exactly when the GPS or the network provider is enabled |
| AndroidBle.ScanPreconditionFailure | ramaBleManager/src/main/java/com/ramasofts/ramablemanager/AndroidBleClient.kt:47-62 | the checks run in the order supported, enabled, permissions, location; the first failing one decides the error (the permission error carries the non-empty missing list); no error iff all four pass |
| AndroidBle.ScanResultToDevice | ramaBleManager/src/main/java/com/ramasofts/ramablemanager/AndroidBleClient.kt:73-85 | a result without a device address yields nothing; otherwise one device with the result's name, address and rssi, connectable only from API O and then as reported |
| AndroidBle.ToCharacteristicInfos | ramaBleManager/src/main/java/com/ramasofts/ramablemanager/AndroidBleClient.kt:165-167 | characteristics mapped one-to-one in order, uuid and properties kept |
| AndroidBle.ToServiceInfos | ramaBleManager/src/main/java/com/ramasofts/ramablemanager/AndroidBleClient.kt:162-169 | services mapped one-to-one in order, each with its characteristics one-to-one in order |
| AndroidBle.ToServiceInfosInjective | ramaBleManager/src/main/java/com/ramasofts/ramablemanager/AndroidBleClient.kt:162-169 | the mapping loses nothing: equal catalogs come from equal discovered lists |
| AndroidBle.ScanCallback.OnScanResult | ramaBleManager/src/main/java/com/ramasofts/ramablemanager/AndroidBleClient.kt:73-86 | sends the mapped device into the scan's flow when the flow is open and the address present, else sends nothing |
| AndroidBle.ScanCallback.OnScanFailed | ramaBleManager/src/main/java/com/ramasofts/ramablemanager/AndroidBleClient.kt:88-91 | closes an open flow with the scan-failed error and its code; sends nothing |
| AndroidBle.Continuation.Cancel | ramaBleManager/src/main/java/com/ramasofts/ramablemanager/AndroidBleClient.kt:184-192 | only an active call is cancelled; its handler then leaves no session, an empty catalog and Disconnected; the result stays unset; a resumed call is untouched |
| AndroidBle.GattCallback.OnConnectionStateChange | ramaBleManager/src/main/java/com/ramasofts/ramablemanager/AndroidBleClient.kt:133-157 | non-success and not CONNECTED: Failed, catalog kept, pending call resumed with Failed only if still active, session closed; CONNECTED with any status: state kept, discovery requested; success DISCONNECTED: Disconnected, catalog emptied, resumed with Disconnected if active; other success states: nothing changes; `gatt` never changes |
| AndroidBle.GattCallback.OnServicesDiscovered | ramaBleManager/src/main/java/com/ramasofts/ramablemanager/AndroidBleClient.kt:159-178 | success: catalog becomes the mapped discovered services, Connected, resumed with Connected if active; failure: Failed, catalog kept, resumed with Failed if active; no platform call |
| AndroidBle.AndroidBleClient.constructor | ramaBleManager/src/main/java/com/ramasofts/ramablemanager/AndroidBleClient.kt:31-37 | starts Disconnected with an empty catalog, no session, no scanner, no callback, not scanning |
| AndroidBle.AndroidBleClient.StopScanInternal | ramaBleManager/src/main/java/com/ramasofts/ramablemanager/AndroidBleClient.kt:105-116 | no-op when not scanning; otherwise stops the platform scan if a callback and a scanner are held and ends with not scanning, no callback and no scanner even when the platform call fails; connection fields untouched |
| AndroidBle.AndroidBleClient.StopScan | ramaBleManager/src/main/java/com/ramasofts/ramablemanager/AndroidBleClient.kt:101-103 | same effect as StopScanInternal |
| AndroidBle.AndroidBleClient.StartScan | ramaBleManager/src/main/java/com/ramasofts/ramablemanager/AndroidBleClient.kt:45-99 | a failed precondition closes the flow with its error and changes no scan field and makes no platform call; otherwise the previous scan is stopped first, then a new callback is registered and the scan is started with the adapter's scanner, ending with isScanning true and scanCallback the new callback |
| AndroidBle.AndroidBleClient.Connect | ramaBleManager/src/main/java/com/ramasofts/ramablemanager/AndroidBleClient.kt:119-193 | without an adapter (no remote device) it publishes and returns Failed(DeviceNotFound), opens no session and leaves `gatt` as it was; otherwise publishes Connecting, stores a fresh session bound to this call's callback and installs the cancellation handler |
| AndroidBle.AndroidBleClient.ReleaseGatt | ramaBleManager/src/main/java/com/ramasofts/ramablemanager/AndroidBleClient.kt:197-200 | disconnects and then closes the held session; a throwing disconnect skips the close; no field changes |
| AndroidBle.AndroidBleClient.Disconnect | ramaBleManager/src/main/java/com/ramasofts/ramablemanager/AndroidBleClient.kt:195-204 | always ends with no session, an empty catalog and Disconnected, whatever the prior state and whether or not the platform call throws |
| AndroidBle.AndroidBleClient.CancellationHandler | ramaBleManager/src/main/java/com/ramasofts/ramablemanager/AndroidBleClient.kt:184-192 | always ends with no session, an empty catalog and Disconnected, even when the platform call throws |
| ClientScenarios.ConnectImmediatelyDisconnected | ramaBleManager/src/main/java/com/ramasofts/ramablemanager/AndroidBleClient.kt:150-155 | with an adapter present, a device reported DISCONNECTED with success status makes the call return Disconnected with an empty catalog |
| ClientScenarios.ConnectLinkError | ramaBleManager/src/main/java/com/ramasofts/ramablemanager/AndroidBleClient.kt:135-142 | a link error makes the call return Failed with that status and state, and the session stays in `gatt` |
| ClientScenarios.ConnectAndDiscover | ramaBleManager/src/main/java/com/ramasofts/ramablemanager/AndroidBleClient.kt:145-172 | CONNECTED with any status followed by successful discovery returns Connected, and the catalog is exactly the discovered services |
| ClientScenarios.LinkLostAfterConnected | ramaBleManager/src/main/java/com/ramasofts/ramablemanager/AndroidBleClient.kt:135-176 | after Connected, a later link error publishes Failed but the returned result stays Connected and the catalog stays populated |
| ClientScenarios.CancelWhilePending | ramaBleManager/src/main/java/com/ramasofts/ramablemanager/AndroidBleClient.kt:184-192 | cancelling before the link or during discovery leaves Disconnected, an empty catalog, no session and no result |
| ClientScenarios.DisconnectTwice | ramaBleManager/src/main/java/com/ramasofts/ramablemanager/AndroidBleClient.kt:195-204 | two disconnects leave the same state and the same platform calls as one |
| ClientScenarios.StopScanTwice | ramaBleManager/src/main/java/com/ramasofts/ramablemanager/AndroidBleClient.kt:105-116 | two stops leave the same state and the same platform calls as one |
| AppNavigation.FirstSeenAddresses | app/src/main/java/com/ramasofts/ramablemanager/AppNavigator.kt:46-48 | the forwarded addresses are exactly the collected addresses not already seen, so no new address is dropped |
| AppNavigation.FirstSeenDistinct | app/src/main/java/com/ramasofts/ramablemanager/AppNavigator.kt:45-48 | at most one device is forwarded per address |
| AppNavigation.FirstSeenIsSubsequence | app/src/main/java/com/ramasofts/ramablemanager/AppNavigator.kt:45-49 | forwarded devices are a subsequence of the collected ones |
| AppNavigation.FirstSeenKeepsFirst | app/src/main/java/com/ramasofts/ramablemanager/AppNavigator.kt:45-49 | each forwarded device is the first advertisement of its address |
| AppNavigation.FirstSeenOrder | app/src/main/java/com/ramasofts/ramablemanager/AppNavigator.kt:45-49 | forwarded devices appear in the order their addresses were first seen |
| AppNavigation.CollectScan | app/src/main/java/com/ramasofts/ramablemanager/AppNavigator.kt:40-49 | the loop, starting from an empty `seen` set, forwards exactly the first-seen devices: one per address, every address, first advertisement, first-seen order; at the end `seen` holds exactly the collected addresses |
| AppNavigation.ScanJob.Collect | app/src/main/java/com/ramasofts/ramablemanager/AppNavigator.kt:40-49 | a running (not cancelled) job whose `seen` set is empty forwards what `CollectScan` forwards, and afterwards its `seen` holds exactly the collected addresses |
| AppNavigation.RepeatedAddressesExample | app/src/main/java/com/ramasofts/ramablemanager/AppNavigator.kt:45-49 | addresses A, B, A, C, B are forwarded as A, B, C |
| AppNavigation.AppNavigator.OnStartScan | app/src/main/java/com/ramasofts/ramablemanager/AppNavigator.kt:35-56 | cancels the previous job and stops the client's scan before a fresh, uncancelled job with an empty `seen` set becomes the current one |
| AppNavigation.AppNavigator.OnStopScan | app/src/main/java/com/ramasofts/ramablemanager/AppNavigator.kt:57-60 | cancels the current job and stops the client's scan |
| AppNavigation.ScanTwice | app/src/main/java/com/ramasofts/ramablemanager/AppNavigator.kt:39-49 | the job of a second start has its own empty `seen` set, so every address it collects is forwarded again, including ones the first job forwarded |

## Left out

- Coroutine and flow machinery is left out: `callbackFlow`, `awaitClose`, `suspendCancellableCoroutine`, dispatching and job timing. Callbacks and cancellation are discrete method calls in the order a caller chooses.
- The `awaitClose` block is `StopScanInternal` itself, so it has no separate member. The race where an old flow's `awaitClose` stops a newer scan is not modelled.
- The scan job's wall-clock timeout is not modelled: `delay(timeoutMs)`, the following `stopScan()` and `collector.join()` (AppNavigator.kt:51-54). Time cannot be verified here.
- AndroidBle.ScanCallback.OnScanResult: assumes an open flow accepts every send. The channel's bounded buffer, where `trySend` can fail when full, is not modelled.
- Android platform calls are opaque. Their effects appear only as entries in the ghost `radio` trace. Scan settings (low-latency mode) are not modelled.
- A malformed address is not modelled. `getRemoteDevice` throws for one; for any well-formed address it returns a device, so the "Device not found" error arises only without an adapter, which is the boolean `adapterPresent`.
- An exception from the platform's `stopScan` changes nothing that follows it, so it has no flag. An exception from `gatt.disconnect()` skips `close()`, and that is the `disconnectThrows` parameter.
- Stale callbacks are not excluded. The model lets a callback of a closed or cancelled session run if it is invoked, because the platform stops delivering them after `close()`. The pending call's result cannot change once it has been resumed or cancelled.
- Error values stand for the exceptions; the message texts are not modelled. UUIDs are natural numbers.
- `isBluetoothSupported`, `isBluetoothEnabled`, `hasRequiredPermissions` and `missingPermissions` (AndroidBleClient.kt:39-42) are not separate members. They are fields of the `Platform` parameter or the permission functions.
- `connectionState()` and `services()` are the fields `connState` and `services` themselves.
- The `read`, `write` and `notifications` stubs are not modelled: they only throw "not implemented".
- The `BleClient` interface, the Compose screens, navigation routes, logging and the screen's second de-duplication filter are not modelled: they are interface, presentation and a repeat of `CollectScan`.
