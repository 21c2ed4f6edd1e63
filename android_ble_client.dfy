/**
 * The Android BLE client: scan lifecycle, the one-shot connect call bridged
 * from GATT callbacks, and disconnect. Platform answers (adapter present and
 * enabled, SDK level, granted permissions, location switches, GATT status
 * codes, discovered services) are parameters;
 * platform calls the client makes are recorded in the ghost `radio` trace.
 */
module AndroidBle {
  import opened Wrappers
  import opened BleModels
  import opened BlePermissionHelper

  /** Build.VERSION_CODES.O (Android 8), from which `ScanResult.isConnectable` exists. */
  const VERSION_CODES_O: int := 26
  /** BluetoothGatt.GATT_SUCCESS */
  const GATT_SUCCESS: int := 0
  /** BluetoothProfile.STATE_DISCONNECTED and STATE_CONNECTED */
  const STATE_DISCONNECTED: int := 0
  const STATE_CONNECTED: int := 2

  /** What the platform answers when a scan is requested. */
  datatype Platform = Platform(
    sdk: int,
    supported: bool,        // a BluetoothAdapter exists
    enabled: bool,          // the adapter is switched on
    granted: set<string>,   // permissions checkSelfPermission reports as granted
    gpsEnabled: bool,
    networkEnabled: bool)

  datatype BluetoothDevice = BluetoothDevice(name: Option<string>, address: Option<string>)
  datatype ScanResult = ScanResult(device: Option<BluetoothDevice>, rssi: int, isConnectable: bool)

  datatype BluetoothGattCharacteristic = BluetoothGattCharacteristic(uuid: Uuid, properties: int)
  datatype BluetoothGattService = BluetoothGattService(uuid: Uuid, characteristics: seq<BluetoothGattCharacteristic>)

  /** The exception a scan flow is closed with. */
  datatype ScanError =
    | BluetoothUnsupported
    | BluetoothDisabled
    | MissingPermissions(missing: seq<string>)
    | LocationDisabled
    | ScanFailed(errorCode: int)

  datatype FlowState = Open | ClosedWith(cause: ScanError)

  /** A platform call made by the client. */
  datatype RadioCall =
    | StartLeScan(scanner: BluetoothLeScanner, callback: ScanCallback)
    | StopLeScan(scanner: BluetoothLeScanner, callback: ScanCallback)
    | ConnectGatt(gatt: BluetoothGatt)
    | DiscoverServices(gatt: BluetoothGatt)
    | DisconnectGatt(gatt: BluetoothGatt)
    | CloseGatt(gatt: BluetoothGatt)

  /**
   * The scan preconditions, checked in the order supported, enabled,
   * permissions, location; the first one that fails decides the error.
   */
  function ScanPreconditionFailure(p: Platform): (r: Option<ScanError>)
    ensures r == Some(BluetoothUnsupported) <==> !p.supported
    ensures r == Some(BluetoothDisabled) <==> p.supported && !p.enabled
    ensures (r.Some? && r.value.MissingPermissions?) <==>
              p.supported && p.enabled && !HasAllPermissions(p.sdk, p.granted)
    ensures r.Some? && r.value.MissingPermissions? ==>
              r.value.missing == Missing(p.sdk, p.granted) && r.value.missing != []
    ensures r == Some(LocationDisabled) <==>
              p.supported && p.enabled && HasAllPermissions(p.sdk, p.granted)
              && !IsLocationEnabledIfRequired(p.sdk, p.gpsEnabled, p.networkEnabled)
    ensures r.None? <==>
              p.supported && p.enabled && HasAllPermissions(p.sdk, p.granted)
              && IsLocationEnabledIfRequired(p.sdk, p.gpsEnabled, p.networkEnabled)
    ensures r.Some? ==> !r.value.ScanFailed?
  {
    HasAllIffNothingMissing(p.sdk, p.granted);
    if !p.supported then Some(BluetoothUnsupported)
    else if !p.enabled then Some(BluetoothDisabled)
    else if !HasAllPermissions(p.sdk, p.granted) then Some(MissingPermissions(Missing(p.sdk, p.granted)))
    else if !IsLocationEnabledIfRequired(p.sdk, p.gpsEnabled, p.networkEnabled) then Some(LocationDisabled)
    else None
  }

  /**
   * The device a scan result is forwarded as, or None when the result carries
   * no device address (the callback returns without sending).
   */
  function ScanResultToDevice(sdk: int, result: ScanResult): (r: Option<BleScanDevice>)
    ensures r.None? <==> result.device.None? || result.device.value.address.None?
    ensures r.Some? ==>
              && r.value.address == result.device.value.address.value
              && r.value.name == result.device.value.name
              && r.value.rssi == result.rssi
              && (r.value.isConnectable ==> sdk >= VERSION_CODES_O)
              && (sdk >= VERSION_CODES_O ==> r.value.isConnectable == result.isConnectable)
  {
    match result.device
    case None => None
    case Some(device) =>
      match device.address
      case None => None
      case Some(address) =>
        var connectable := if sdk >= VERSION_CODES_O then result.isConnectable else false;
        Some(BleScanDevice(device.name, address, result.rssi, connectable))
  }

  /** The characteristics of one discovered service, one-to-one and in order. */
  function ToCharacteristicInfos(cs: seq<BluetoothGattCharacteristic>): (r: seq<GattCharacteristicInfo>)
    ensures |r| == |cs|
    ensures forall j :: 0 <= j < |cs| ==> r[j].uuid == cs[j].uuid && r[j].properties == cs[j].properties
  {
    if cs == [] then []
    else [GattCharacteristicInfo(cs[0].uuid, cs[0].properties)] + ToCharacteristicInfos(cs[1..])
  }

  /** The service catalog published after a successful discovery, one-to-one and in order. */
  function ToServiceInfos(ss: seq<BluetoothGattService>): (r: seq<GattServiceInfo>)
    ensures |r| == |ss|
    ensures forall i :: 0 <= i < |ss| ==>
              && r[i].uuid == ss[i].uuid
              && |r[i].characteristics| == |ss[i].characteristics|
              && (forall j :: 0 <= j < |ss[i].characteristics| ==>
                    r[i].characteristics[j].uuid == ss[i].characteristics[j].uuid
                    && r[i].characteristics[j].properties == ss[i].characteristics[j].properties)
  {
    if ss == [] then []
    else [GattServiceInfo(ss[0].uuid, ToCharacteristicInfos(ss[0].characteristics))] + ToServiceInfos(ss[1..])
  }

  /** The mapping loses nothing: different discovered lists give different catalogs. */
  lemma ToServiceInfosInjective(a: seq<BluetoothGattService>, b: seq<BluetoothGattService>)
    requires ToServiceInfos(a) == ToServiceInfos(b)
    ensures a == b
  {
    var r := ToServiceInfos(a);
    forall i | 0 <= i < |a| ensures a[i] == b[i] {
      var ca, cb := a[i].characteristics, b[i].characteristics;
      assert |ca| == |r[i].characteristics| == |cb|;
      forall j | 0 <= j < |ca| ensures ca[j] == cb[j] {
        assert ca[j].uuid == r[i].characteristics[j].uuid == cb[j].uuid;
      }
      assert ca == cb;
    }
  }

  /** The scanner handle returned by BluetoothAdapter.bluetoothLeScanner. */
  class BluetoothLeScanner {
    constructor () {}
  }

  /** The channel of one `callbackFlow` collection: what was sent and whether it is closed. */
  class ScanFlow {
    var state: FlowState
    var sent: seq<BleScanDevice>

    constructor ()
      ensures state == Open && sent == []
    {
      state := Open;
      sent := [];
    }
  }

  /** The ScanCallback object registered by one `startScan`; it sends into that scan's flow. */
  class ScanCallback {
    const flow: ScanFlow

    constructor (flow: ScanFlow)
      ensures this.flow == flow
    {
      this.flow := flow;
    }

    /** Offers the mapped device to the flow; a closed flow refuses it, an address-less result is dropped. */
    method OnScanResult(sdk: int, result: ScanResult)
      modifies flow
      ensures flow.state == old(flow.state)
      ensures var d := ScanResultToDevice(sdk, result);
              flow.sent == old(flow.sent) + (if old(flow.state).Open? && d.Some? then [d.value] else [])
    {
      var d := ScanResultToDevice(sdk, result);
      if d.Some? && flow.state.Open? {
        flow.sent := flow.sent + [d.value];
      }
    }

    method OnScanFailed(errorCode: int)
      modifies flow
      ensures flow.sent == old(flow.sent)
      ensures flow.state == if old(flow.state).Open? then ClosedWith(ScanFailed(errorCode)) else old(flow.state)
    {
      if flow.state.Open? {
        flow.state := ClosedWith(ScanFailed(errorCode));
      }
    }
  }

  /** The pending `connect` call (suspendCancellableCoroutine's continuation). */
  class Continuation {
    var isActive: bool
    var result: Option<ConnectionState>      // the value it was resumed with
    var isCancelled: bool
    var onCancellation: AndroidBleClient?    // whose handler invokeOnCancellation installed

    constructor ()
      ensures isActive && result == None && !isCancelled && onCancellation == null
    {
      isActive := true;
      result := None;
      isCancelled := false;
      onCancellation := null;
    }

    /** Resumed once while still active, or left as it was. */
    twostate predicate ResumedIfActive(s: ConnectionState)
      reads this
    {
      && !isActive
      && result == (if old(isActive) then Some(s) else old(result))
      && isCancelled == old(isCancelled)
      && onCancellation == old(onCancellation)
    }

    method Resume(s: ConnectionState)
      requires isActive
      modifies this
      ensures ResumedIfActive(s)
    {
      isActive := false;
      result := Some(s);
    }

    /**
     * Cancels the caller. Only an active continuation is cancelled, and then
     * its installed handler runs; the result stays unset.
     */
    method Cancel(disconnectThrows: bool)
      requires onCancellation != null ==> onCancellation.Valid()
      modifies this, onCancellation
      ensures onCancellation == old(onCancellation) && result == old(result)
      ensures !old(isActive) ==> unchanged(this) && (onCancellation != null ==> unchanged(onCancellation))
      ensures old(isActive) ==> !isActive && isCancelled
      ensures old(isActive) && onCancellation != null ==>
                var c := onCancellation;
                && c.Valid() && c.ScanUnchanged()
                && c.gatt == null && c.services == [] && c.connState == Disconnected
                && c.radio == old(c.radio) + old(c.ReleaseCalls(disconnectThrows))
    {
      if isActive {
        isActive := false;
        isCancelled := true;
        if onCancellation != null {
          onCancellation.CancellationHandler(disconnectThrows);
        }
      }
    }
  }

  /** The BluetoothGatt session handle opened by one `connect`. */
  class BluetoothGatt {
    const address: string
    const autoConnect: bool
    const callback: GattCallback

    constructor (address: string, autoConnect: bool, callback: GattCallback)
      ensures this.address == address && this.autoConnect == autoConnect && this.callback == callback
    {
      this.address := address;
      this.autoConnect := autoConnect;
      this.callback := callback;
    }
  }

  /** The BluetoothGattCallback of one `connect` call: it updates the client and resumes that call. */
  class GattCallback {
    const client: AndroidBleClient
    const cont: Continuation

    constructor (client: AndroidBleClient, cont: Continuation)
      ensures this.client == client && this.cont == cont
    {
      this.client := client;
      this.cont := cont;
    }

    /**
     * A non-success status fails the attempt unless the new state is CONNECTED;
     * CONNECTED (whatever the status) starts discovery; a success DISCONNECTED
     * publishes Disconnected and clears the catalog; anything else is ignored.
     * The `gatt` field is never touched here.
     */
    method OnConnectionStateChange(g: BluetoothGatt, status: int, newState: int)
      requires client.Valid()
      modifies client, cont
      ensures client.Valid() && client.ScanUnchanged() && client.gatt == old(client.gatt)
      ensures status != GATT_SUCCESS && newState != STATE_CONNECTED ==>
                && client.connState == Failed(GattStatusError(status, newState))
                && client.services == old(client.services)
                && cont.ResumedIfActive(Failed(GattStatusError(status, newState)))
                && client.radio == old(client.radio) + [CloseGatt(g)]
      ensures newState == STATE_CONNECTED ==>
                && client.connState == old(client.connState)
                && client.services == old(client.services)
                && unchanged(cont)
                && client.radio == old(client.radio) + [DiscoverServices(g)]
      ensures status == GATT_SUCCESS && newState == STATE_DISCONNECTED ==>
                && client.connState == Disconnected
                && client.services == []
                && cont.ResumedIfActive(Disconnected)
                && client.radio == old(client.radio) + [CloseGatt(g)]
      ensures status == GATT_SUCCESS && newState != STATE_CONNECTED && newState != STATE_DISCONNECTED ==>
                unchanged(client) && unchanged(cont)
    {
      if status != GATT_SUCCESS && newState != STATE_CONNECTED {
        var err := GattStatusError(status, newState);
        client.connState := Failed(err);
        if cont.isActive {
          cont.Resume(Failed(err));
        }
        client.radio := client.radio + [CloseGatt(g)];
        return;
      }
      if newState == STATE_CONNECTED {
        client.radio := client.radio + [DiscoverServices(g)];
      } else if newState == STATE_DISCONNECTED {
        client.connState := Disconnected;
        client.services := [];
        if cont.isActive {
          cont.Resume(Disconnected);
        }
        client.radio := client.radio + [CloseGatt(g)];
      }
    }

    /**
     * Success publishes the discovered services as the catalog and then
     * Connected; failure publishes Failed and keeps the old catalog.
     */
    method OnServicesDiscovered(g: BluetoothGatt, status: int, discovered: seq<BluetoothGattService>)
      requires client.Valid()
      modifies client, cont
      ensures client.Valid() && client.ScanUnchanged()
      ensures client.gatt == old(client.gatt) && client.radio == old(client.radio)
      ensures status == GATT_SUCCESS ==>
                && client.services == ToServiceInfos(discovered)
                && client.connState == Connected
                && cont.ResumedIfActive(Connected)
      ensures status != GATT_SUCCESS ==>
                && client.services == old(client.services)
                && client.connState == Failed(DiscoverFailed(status))
                && cont.ResumedIfActive(Failed(DiscoverFailed(status)))
    {
      if status == GATT_SUCCESS {
        client.services := ToServiceInfos(discovered);
        client.connState := Connected;
        if cont.isActive {
          cont.Resume(Connected);
        }
      } else {
        var err := DiscoverFailed(status);
        client.connState := Failed(err);
        if cont.isActive {
          cont.Resume(Failed(err));
        }
      }
    }
  }

  class AndroidBleClient {
    var connState: ConnectionState
    var services: seq<GattServiceInfo>
    var gatt: BluetoothGatt?
    var bleScanner: BluetoothLeScanner?
    var scanCallback: ScanCallback?
    var isScanning: bool
    ghost var radio: seq<RadioCall>

    /** A callback is registered exactly while scanning; an idle client holds no scanner. */
    ghost predicate Valid()
      reads this
    {
      && (isScanning <==> scanCallback != null)
      && (!isScanning ==> bleScanner == null)
    }

    constructor ()
      ensures Valid()
      ensures connState == Disconnected && services == [] && gatt == null
      ensures !isScanning && radio == []
    {
      connState := Disconnected;
      services := [];
      gatt := null;
      bleScanner := null;
      scanCallback := null;
      isScanning := false;
      radio := [];
    }

    twostate predicate ScanUnchanged()
      reads this
    {
      bleScanner == old(bleScanner) && scanCallback == old(scanCallback) && isScanning == old(isScanning)
    }

    twostate predicate ConnectionUnchanged()
      reads this
    {
      connState == old(connState) && services == old(services) && gatt == old(gatt)
    }

    /** The platform stopScan call `StopScanInternal` makes from this state. */
    ghost function StopCalls(): seq<RadioCall>
      reads this
    {
      if isScanning && scanCallback != null && bleScanner != null
      then [StopLeScan(bleScanner, scanCallback)] else []
    }

    /**
     * The platform calls `gatt?.disconnect(); gatt?.close()` makes inside
     * runCatching: when disconnect throws, close is never reached.
     */
    ghost function ReleaseCalls(disconnectThrows: bool): seq<RadioCall>
      reads this
    {
      if gatt == null then []
      else [DisconnectGatt(gatt)] + (if disconnectThrows then [] else [CloseGatt(gatt)])
    }

    /**
     * Stops the running scan, if any. An exception from the platform's
     * stopScan is swallowed, so the fields are cleared either way.
     */
    method StopScanInternal()
      requires Valid()
      modifies this
      ensures Valid() && ConnectionUnchanged()
      ensures !isScanning && scanCallback == null && bleScanner == null
      ensures radio == old(radio) + old(StopCalls())
      ensures !old(isScanning) ==> unchanged(this)
    {
      if !isScanning {
        return;
      }
      if scanCallback != null && bleScanner != null {
        radio := radio + [StopLeScan(bleScanner, scanCallback)];
      }
      isScanning := false;
      scanCallback := null;
      bleScanner := null;
    }

    method StopScan()
      requires Valid()
      modifies this
      ensures Valid() && ConnectionUnchanged()
      ensures !isScanning && scanCallback == null && bleScanner == null
      ensures radio == old(radio) + old(StopCalls())
      ensures !old(isScanning) ==> unchanged(this)
    {
      StopScanInternal();
    }

    /**
     * The body of `startScan`'s callbackFlow for one collection into `flow`.
     * A failed precondition closes the flow with its error and starts nothing;
     * otherwise any previous scan is stopped and a fresh callback is registered
     * with `scanner` (the adapter's scanner, which may be missing).
     */
    method StartScan(flow: ScanFlow, p: Platform, scanner: BluetoothLeScanner?) returns (cb: ScanCallback?)
      requires Valid() && flow.state == Open
      modifies this, flow
      ensures Valid() && ConnectionUnchanged() && flow.sent == old(flow.sent)
      ensures ScanPreconditionFailure(p).Some? ==>
                && cb == null
                && flow.state == ClosedWith(ScanPreconditionFailure(p).value)
                && ScanUnchanged() && radio == old(radio)
      ensures ScanPreconditionFailure(p).None? ==>
                && cb != null && fresh(cb) && cb.flow == flow
                && flow.state == Open
                && isScanning && scanCallback == cb && bleScanner == scanner
                && radio == old(radio) + old(StopCalls())
                           + (if scanner != null then [StartLeScan(scanner, cb)] else [])
    {
      var failure := ScanPreconditionFailure(p);
      if failure.Some? {
        flow.state := ClosedWith(failure.value);
        return null;
      }
      StopScanInternal();
      bleScanner := scanner;
      cb := new ScanCallback(flow);
      scanCallback := cb;
      if bleScanner != null {
        radio := radio + [StartLeScan(bleScanner, cb)];
      }
      isScanning := true;
    }

    /**
     * Starts one connect call. Without a Bluetooth adapter there is no remote
     * device object, so the call fails at once with DeviceNotFound, opening
     * nothing (the platform hands out a device for any well-formed address,
     * so this is the only way to reach that error); otherwise Connecting is
     * published and a new GATT session is stored in `gatt` (any previous one
     * is overwritten, not closed).
     */
    method Connect(address: string, autoConnect: bool, adapterPresent: bool) returns (cont: Continuation)
      requires Valid()
      modifies this
      ensures Valid() && ScanUnchanged() && services == old(services)
      ensures fresh(cont) && !cont.isCancelled
      ensures !adapterPresent ==>
                && connState == Failed(DeviceNotFound(address))
                && !cont.isActive && cont.result == Some(Failed(DeviceNotFound(address)))
                && cont.onCancellation == null
                && gatt == old(gatt) && radio == old(radio)
      ensures adapterPresent ==>
                && connState == Connecting
                && cont.isActive && cont.result == None && cont.onCancellation == this
                && gatt != null && fresh(gatt)
                && gatt.address == address && gatt.autoConnect == autoConnect
                && gatt.callback.client == this && gatt.callback.cont == cont
                && radio == old(radio) + [ConnectGatt(gatt)]
    {
      cont := new Continuation();
      if !adapterPresent {
        var err := DeviceNotFound(address);
        connState := Failed(err);
        cont.Resume(Failed(err));
        return;
      }
      connState := Connecting;
      var callback := new GattCallback(this, cont);
      var g := new BluetoothGatt(address, autoConnect, callback);
      gatt := g;
      radio := radio + [ConnectGatt(g)];
      cont.onCancellation := this;
    }

    /** `runCatching { gatt?.disconnect(); gatt?.close() }` */
    method ReleaseGatt(disconnectThrows: bool)
      modifies this
      ensures ScanUnchanged() && ConnectionUnchanged()
      ensures radio == old(radio) + old(ReleaseCalls(disconnectThrows))
    {
      if gatt != null {
        radio := radio + [DisconnectGatt(gatt)];
        if !disconnectThrows {
          radio := radio + [CloseGatt(gatt)];
        }
      }
    }

    /** Always ends with no session, an empty catalog and Disconnected, whatever came before. */
    method Disconnect(disconnectThrows: bool)
      requires Valid()
      modifies this
      ensures Valid() && ScanUnchanged()
      ensures gatt == null && services == [] && connState == Disconnected
      ensures radio == old(radio) + old(ReleaseCalls(disconnectThrows))
    {
      ReleaseGatt(disconnectThrows);
      gatt := null;
      services := [];
      connState := Disconnected;
    }

    /** The handler `connect` installs with invokeOnCancellation. */
    method CancellationHandler(disconnectThrows: bool)
      requires Valid()
      modifies this
      ensures Valid() && ScanUnchanged()
      ensures gatt == null && services == [] && connState == Disconnected
      ensures radio == old(radio) + old(ReleaseCalls(disconnectThrows))
    {
      ReleaseGatt(disconnectThrows);
      gatt := null;
      connState := Disconnected;
      services := [];
    }
  }
}
