/**
 * The values the BLE library hands to its callers: scanned devices, the
 * discovered GATT catalog and the connection state.
 */
module BleModels {
  import opened Wrappers

  /** A java.util.UUID, kept opaque: only equality matters here. */
  type Uuid = nat

  /** One advertisement forwarded by a scan. */
  datatype BleScanDevice = BleScanDevice(
    name: Option<string>,
    address: string,
    rssi: int,
    isConnectable: bool)

  datatype GattCharacteristicInfo = GattCharacteristicInfo(uuid: Uuid, properties: int)

  datatype GattServiceInfo = GattServiceInfo(uuid: Uuid, characteristics: seq<GattCharacteristicInfo>)

  /** Why a connection attempt ended in `Failed`; stands for the Throwable the source carries. */
  datatype ConnectionError =
    | DeviceNotFound(address: string)
    | GattStatusError(status: int, newState: int)
    | DiscoverFailed(status: int)

  datatype ConnectionState =
    | Disconnected
    | Connecting  // link establishment or service discovery in progress
    | Connected
    | Failed(error: ConnectionError)
}
