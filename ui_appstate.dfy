/**
 * The state the desktop interface renders: the devices it knows, by id,
 * and the page it shows.
 */
module UiAppState {
  import opened Wrappers
  import opened Bytes
  import opened Protocol
  import Devices

  /** The interface's view of a speaker; the address is kept as display text. */
  datatype Device = Device(id: Text, ipAddr: Text, name: Option<Text>, volume: Option<Byte>)

  /** `label`: the name when the speaker has reported one, its id otherwise. */
  function Label(d: Device): (r: Text)
    ensures d.name.Some? ==> r == d.name.value
    ensures d.name.None? ==> r == d.id
  {
    if d.name.Some? then d.name.value else d.id
  }

  /**
   * `From<device::Device>`: keeps the id and the name, shows the address
   * through `display` (the standard library's formatting of an address),
   * and leaves the volume unknown.
   */
  function FromDevice(d: Devices.Device, display: IpAddr -> Text): (r: Device)
    ensures r.id == d.id && r.name == d.name && r.volume == None
    ensures r.ipAddr == display(d.addr)
  {
    Device(d.id, display(d.addr), d.name, None)
  }

  /** A device converted from the registry's record is labelled by its name, once known. */
  lemma FromDeviceLabel(d: Devices.Device, display: IpAddr -> Text)
    ensures Label(FromDevice(d, display)) == if d.name.Some? then d.name.value else d.id
  {
  }

  datatype Route = DeviceList | DeviceDetails(deviceId: Text)

  /** `upsert_device`: `d` is filed under its own id, in place of any earlier record. */
  function Upsert(devices: map<Text, Device>, d: Device): (r: map<Text, Device>)
    ensures r.Keys == devices.Keys + {d.id}
    ensures r[d.id] == d
    ensures forall k | k in devices && k != d.id :: r[k] == devices[k]
  {
    devices[d.id := d]
  }

  /** Upserting the same record twice is upserting it once. */
  lemma UpsertIdempotent(devices: map<Text, Device>, d: Device)
    ensures Upsert(Upsert(devices, d), d) == Upsert(devices, d)
  {
    var once := Upsert(devices, d);
    var twice := Upsert(once, d);
    assert twice.Keys == once.Keys;
    forall k | k in once
      ensures twice[k] == once[k]
    {
    }
  }

  /** `modify_device`: applies `f` to the record filed under `id`; an unknown id changes nothing. */
  function Modify(devices: map<Text, Device>, id: Text, f: Device -> Device): (r: map<Text, Device>)
    ensures r.Keys == devices.Keys
    ensures id in devices ==> r[id] == f(devices[id])
    ensures forall k | k in devices && k != id :: r[k] == devices[k]
  {
    if id in devices then devices[id := f(devices[id])] else devices
  }

  /** Modifying an id that is not filed leaves the map as it was: no record is inserted. */
  lemma ModifyAbsent(devices: map<Text, Device>, id: Text, f: Device -> Device)
    requires id !in devices
    ensures Modify(devices, id, f) == devices
  {
    var r := Modify(devices, id, f);
    assert r.Keys == devices.Keys;
    forall k | k in r
      ensures r[k] == devices[k]
    {
    }
  }

  /** `AppState`: the page shown and the devices known. */
  class AppState {
    var route: Route
    var devices: map<Text, Device>

    constructor (route: Route, devices: map<Text, Device>)
      ensures this.route == route && this.devices == devices
    {
      this.route := route;
      this.devices := devices;
    }

    /** `current_device_id`: the device whose page is shown, if a device page is shown. */
    function CurrentDeviceId(): (r: Option<Text>)
      reads this
      ensures r.Some? <==> route.DeviceDetails?
      ensures r.Some? ==> r.value == route.deviceId
    {
      match route
      case DeviceDetails(id) => Some(id)
      case DeviceList => None
    }

    /** `show_device`: shows the page of `id`, which then is the current device. */
    method ShowDevice(id: Text)
      modifies this`route
      ensures route == DeviceDetails(id)
      ensures CurrentDeviceId() == Some(id)
    {
      route := DeviceDetails(id);
    }

    /** `upsert_device` on the state's map. */
    method UpsertDevice(d: Device)
      modifies this`devices
      ensures devices == Upsert(old(devices), d)
    {
      devices := devices[d.id := d];
    }

    /** `modify_device` on the state's map. */
    method ModifyDevice(id: Text, f: Device -> Device)
      modifies this`devices
      ensures devices == Modify(old(devices), id, f)
    {
      if id in devices {
        devices := devices[id := f(devices[id])];
      }
    }
  }
}
