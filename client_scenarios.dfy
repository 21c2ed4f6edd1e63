/**
 * Whole connect sequences driven through the client, its GATT callback and
 * the pending call, each ending in the state the caller observes.
 */
module ClientScenarios {
  import opened Wrappers
  import opened BleModels
  import opened AndroidBle

  /**
   * With an adapter present, a device whose link the platform reports as
   * DISCONNECTED with a success status: the call returns Disconnected, not
   * Failed.
   */
  method ConnectImmediatelyDisconnected(address: string)
    returns (outcome: Option<ConnectionState>, state: ConnectionState, catalog: seq<GattServiceInfo>)
    ensures outcome == Some(Disconnected) && state == Disconnected && catalog == []
  {
    var client := new AndroidBleClient();
    var cont := client.Connect(address, false, true);
    var g := client.gatt;
    g.callback.OnConnectionStateChange(g, GATT_SUCCESS, STATE_DISCONNECTED);
    outcome, state, catalog := cont.result, client.connState, client.services;
  }

  /** A link error (non-success status, not CONNECTED) fails the call and releases nothing else. */
  method ConnectLinkError(address: string, status: int, newState: int)
    returns (outcome: Option<ConnectionState>, state: ConnectionState, sessionHeld: bool)
    requires status != GATT_SUCCESS && newState != STATE_CONNECTED
    ensures outcome == Some(Failed(GattStatusError(status, newState)))
    ensures state == Failed(GattStatusError(status, newState))
    ensures sessionHeld  // the `gatt` field still holds the closed session
  {
    var client := new AndroidBleClient();
    var cont := client.Connect(address, false, true);
    var g := client.gatt;
    g.callback.OnConnectionStateChange(g, status, newState);
    outcome, state, sessionHeld := cont.result, client.connState, client.gatt != null;
  }

  /**
   * CONNECTED (even with a non-success status) leads to discovery; successful
   * discovery returns Connected with the discovered services as the catalog.
   */
  method ConnectAndDiscover(address: string, linkStatus: int, discovered: seq<BluetoothGattService>)
    returns (outcome: Option<ConnectionState>, state: ConnectionState, catalog: seq<GattServiceInfo>)
    ensures outcome == Some(Connected) && state == Connected
    ensures catalog == ToServiceInfos(discovered) && |catalog| == |discovered|
  {
    var client := new AndroidBleClient();
    var cont := client.Connect(address, false, true);
    var g := client.gatt;
    g.callback.OnConnectionStateChange(g, linkStatus, STATE_CONNECTED);
    g.callback.OnServicesDiscovered(g, GATT_SUCCESS, discovered);
    outcome, state, catalog := cont.result, client.connState, client.services;
  }

  /**
   * After a successful connect, a later link failure publishes Failed but
   * neither changes what the call returned nor clears the catalog.
   */
  method LinkLostAfterConnected(address: string, discovered: seq<BluetoothGattService>, status: int, newState: int)
    returns (outcome: Option<ConnectionState>, state: ConnectionState, catalog: seq<GattServiceInfo>)
    requires status != GATT_SUCCESS && newState != STATE_CONNECTED
    ensures outcome == Some(Connected)
    ensures state == Failed(GattStatusError(status, newState))
    ensures catalog == ToServiceInfos(discovered)
  {
    var client := new AndroidBleClient();
    var cont := client.Connect(address, false, true);
    var g := client.gatt;
    g.callback.OnConnectionStateChange(g, GATT_SUCCESS, STATE_CONNECTED);
    g.callback.OnServicesDiscovered(g, GATT_SUCCESS, discovered);
    g.callback.OnConnectionStateChange(g, status, newState);
    outcome, state, catalog := cont.result, client.connState, client.services;
  }

  /**
   * Cancelling the call while it waits, either for the link or for discovery,
   * leaves Disconnected, an empty catalog, no session, and no result.
   */
  method CancelWhilePending(address: string, linkUp: bool, disconnectThrows: bool)
    returns (outcome: Option<ConnectionState>, cancelled: bool, state: ConnectionState,
             catalog: seq<GattServiceInfo>, sessionHeld: bool)
    ensures outcome == None && cancelled
    ensures state == Disconnected && catalog == [] && !sessionHeld
  {
    var client := new AndroidBleClient();
    var cont := client.Connect(address, false, true);
    var g := client.gatt;
    if linkUp {
      g.callback.OnConnectionStateChange(g, GATT_SUCCESS, STATE_CONNECTED);
    }
    cont.Cancel(disconnectThrows);
    outcome, cancelled := cont.result, cont.isCancelled;
    state, catalog, sessionHeld := client.connState, client.services, client.gatt != null;
  }

  /** A second disconnect makes no platform call and leaves the same state as the first. */
  method DisconnectTwice(client: AndroidBleClient, firstThrows: bool, secondThrows: bool)
    requires client.Valid()
    modifies client
    ensures client.Valid() && client.ScanUnchanged()
    ensures client.gatt == null && client.services == [] && client.connState == Disconnected
    ensures client.radio == old(client.radio) + old(client.ReleaseCalls(firstThrows))
  {
    client.Disconnect(firstThrows);
    client.Disconnect(secondThrows);
  }

  /** A second stop makes no platform call and leaves the same state as the first. */
  method StopScanTwice(client: AndroidBleClient)
    requires client.Valid()
    modifies client
    ensures client.Valid() && client.ConnectionUnchanged()
    ensures !client.isScanning && client.scanCallback == null && client.bleScanner == null
    ensures client.radio == old(client.radio) + old(client.StopCalls())
  {
    client.StopScan();
    client.StopScan();
  }
}
