/** The interface's command handler: how each command changes the state. */
module UiDelegate {
  import opened Wrappers
  import opened Bytes
  import opened UiAppState

  /** Whether a command was consumed. */
  datatype Handled = Yes | No

  /** The commands the interface sends itself; `Other` stands for any other selector. */
  datatype AppCommand =
    | ShowDeviceDetails(deviceId: Text)
    | ShowDeviceList
    | SetVolume(deviceId: Text, volume: Byte)
    | DeviceUpdated(device: Device)
    | Other

  /** The update a volume command applies to the device record. */
  function WithVolume(volume: Byte): Device -> Device {
    (d: Device) => d.(volume := Some(volume))
  }

  /** A volume command sets the volume of a known device, touches nothing else, and inserts no device. */
  lemma SetVolumeEffect(devices: map<Text, Device>, id: Text, volume: Byte)
    ensures var r := Modify(devices, id, WithVolume(volume));
            && r.Keys == devices.Keys
            && (id in devices ==> r[id] == devices[id].(volume := Some(volume)))
            && (forall k | k in devices && k != id :: r[k] == devices[k])
  {
  }

  /**
   * `Delegate::command`: page commands change only the route, device
   * commands change only the map, and any other command is left to others
   * and changes nothing.
   */
  method Command(cmd: AppCommand, data: AppState) returns (h: Handled)
    modifies data
    ensures h == No <==> cmd.Other?
    ensures cmd.ShowDeviceDetails? ==> data.route == DeviceDetails(cmd.deviceId) && data.devices == old(data.devices)
    ensures cmd.ShowDeviceList? ==> data.route == DeviceList && data.devices == old(data.devices)
    ensures cmd.SetVolume? ==>
              data.route == old(data.route)
              && data.devices == Modify(old(data.devices), cmd.deviceId, WithVolume(cmd.volume))
    ensures cmd.DeviceUpdated? ==>
              data.route == old(data.route) && data.devices == Upsert(old(data.devices), cmd.device)
    ensures cmd.Other? ==> data.route == old(data.route) && data.devices == old(data.devices)
  {
    match cmd
    case ShowDeviceDetails(id) =>
      data.route := DeviceDetails(id);
      h := Yes;
    case ShowDeviceList =>
      data.route := DeviceList;
      h := Yes;
    case SetVolume(id, volume) =>
      data.ModifyDevice(id, WithVolume(volume));
      h := Yes;
    case DeviceUpdated(device) =>
      data.UpsertDevice(device);
      h := Yes;
    case Other =>
      h := No;
  }
}
