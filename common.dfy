/** Values shared by the modules of the controller: the event payloads that travel
    over the application event bus, the kernel error codes the modules return, and
    the small value types of the C sources (bytes, optional handles). */
module Common {

  datatype Option<T> = None | Some(value: T)

  /** An unsigned 8-bit value (`uint8_t`). */
  newtype byte = x: int | 0 <= x < 256

  /** Zephyr error numbers used by the modules (returned negated). */
  const EBADF: int := 9
  const EAGAIN: int := 11
  const ENODEV: int := 19
  const ENOMSG: int := 35
  const ENOTCONN: int := 128

  /** A Bluetooth connection handle (`struct bt_conn *`); NULL is modelled by `None`
      wherever the source stores a possibly-empty handle. */
  type ConnId = nat

  /** `enum peer_state` of the CAF Bluetooth events. `Unknown` stands for any value
      outside the enumeration, which the C `switch` statements send to `default`. */
  datatype PeerState =
    | PeerDisconnected
    | PeerDisconnecting
    | PeerConnected
    | PeerSecured
    | PeerConnFailed
    | PeerUnknown(raw: int)

  /** `struct ble_peer_event`: the peer handle and its new state. */
  datatype PeerEvent = PeerEvent(id: ConnId, state: PeerState)

  /** The modules that announce their state on the bus (`MODULE_ID(...)`). */
  datatype ModuleId = MainModule | BleStateModule | OtherModule(name: string)

  /** `enum module_state` of a `module_state_event`. */
  datatype ModuleState = StateReady | StateOff | StateStandby | StateError

  /** What a data-ready trigger reads from a rotation sensor driver:
      `sensor_sample_fetch` failing, `sensor_channel_get` failing, or the rotation
      value of `SENSOR_CHAN_ROTATION`. */
  datatype SensorReading = FetchFailed(err: int) | ChannelFailed(err: int) | Rotation(value: real)

  /** The DATA_READY event a sampling module publishes: both wheels' speeds. */
  datatype DataReady = DataReady(rotSpeedA: real, rotSpeedB: real)
}
