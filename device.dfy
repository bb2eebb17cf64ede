/**
 * The device registry: the speakers found so far, keyed by id, the event
 * listeners, and what happens to the packets the speakers send back.
 *
 * The registry's socket is an outbox: a send that succeeds appends the
 * packet and its destination, a send that fails appends nothing. Whether a
 * send succeeds is decided by the network and is a parameter of each
 * operation. A listener is the sending half of a channel, reduced to its
 * identity and whether its receiving half is still alive; what it has been
 * sent is recorded in `delivered`.
 */
module Devices {
  import opened Wrappers
  import opened Bytes
  import opened Protocol
  import opened Commands
  import Discovery

  /** Decoded by a JSON library; the model does not look inside. */
  type PlayInfoData(==)
  /** Defined by a version of the command table that is not part of this model. */
  type ChargingStateData(==)
  /** Defined by a version of the command table that is not part of this model. */
  type ChannelObject(==)

  /** What the client knows about one speaker. */
  datatype Device = Device(
    id: Text,
    addr: IpAddr,
    name: Option<Text>,
    volume: Option<Byte>,
    playStatus: Option<PlayControlCommand>,
    playInfo: Option<PlayInfoData>,
    preChannels: Option<seq<ChannelObject>>,
    chargingState: Option<ChargingStateData>,
    batteryLevel: Option<Byte>)

  /** None of the values a speaker reports has arrived yet. */
  predicate Blank(d: Device) {
    && d.name.None? && d.volume.None? && d.playStatus.None? && d.playInfo.None?
    && d.preChannels.None? && d.chargingState.None? && d.batteryLevel.None?
  }

  /** `Device::new`: a device known only by its id and address. */
  function NewDevice(id: Text, addr: IpAddr): (d: Device)
    ensures d.id == id && d.addr == addr && Blank(d)
  {
    Device(id, addr, None, None, None, None, None, None, None)
  }

  /**
   * The ids and decoders the registry uses that the shown command table
   * does not define: the reply ids of six commands, the ids of the
   * `ChargingState`, `BatteryLevel` and `PreChannel` commands, and the
   * decoders of their payloads and of `PlayInfo`'s JSON. A decoder gives
   * `None` where the source's decoder returns an error.
   */
  datatype ExtraCommands = ExtraCommands(
    nameReplyId: U16,
    volumeReplyId: U16,
    playControlReplyId: U16,
    playInfoReplyId: U16,
    chargingStateReplyId: U16,
    batteryLevelReplyId: U16,
    chargingState: CommandIds,
    batteryLevel: CommandIds,
    preChannel: CommandIds,
    decodePlayInfo: Text -> Option<PlayInfoData>,
    decodeChargingState: Text -> Option<ChargingStateData>,
    decodeBatteryLevel: Text -> Option<Byte>,
    decodePreChannels: Text -> Option<seq<ChannelObject>>)

  /** The seven values a packet can update. */
  datatype Field =
    | NameField | VolumeField | PlayStatusField | PlayInfoField
    | ChargingStateField | BatteryLevelField | PreChannelsField

  /** A decoded value, tagged with the field it belongs in. */
  datatype FieldValue =
    | NameValue(name: Text)
    | VolumeValue(volume: Byte)
    | PlayStatusValue(status: PlayControlCommand)
    | PlayInfoValue(info: PlayInfoData)
    | ChargingStateValue(charging: ChargingStateData)
    | BatteryLevelValue(level: Byte)
    | PreChannelsValue(channels: seq<ChannelObject>)

  function FieldOf(v: FieldValue): Field {
    match v
    case NameValue(_) => NameField
    case VolumeValue(_) => VolumeField
    case PlayStatusValue(_) => PlayStatusField
    case PlayInfoValue(_) => PlayInfoField
    case ChargingStateValue(_) => ChargingStateField
    case BatteryLevelValue(_) => BatteryLevelField
    case PreChannelsValue(_) => PreChannelsField
  }

  /** The value a device holds in field `f`, if any. */
  function Current(d: Device, f: Field): Option<FieldValue> {
    match f
    case NameField => if d.name.Some? then Some(NameValue(d.name.value)) else None
    case VolumeField => if d.volume.Some? then Some(VolumeValue(d.volume.value)) else None
    case PlayStatusField => if d.playStatus.Some? then Some(PlayStatusValue(d.playStatus.value)) else None
    case PlayInfoField => if d.playInfo.Some? then Some(PlayInfoValue(d.playInfo.value)) else None
    case ChargingStateField =>
      if d.chargingState.Some? then Some(ChargingStateValue(d.chargingState.value)) else None
    case BatteryLevelField => if d.batteryLevel.Some? then Some(BatteryLevelValue(d.batteryLevel.value)) else None
    case PreChannelsField => if d.preChannels.Some? then Some(PreChannelsValue(d.preChannels.value)) else None
  }

  /** `b` is `a` except perhaps in field `f`. */
  predicate SameExcept(a: Device, b: Device, f: Field) {
    && a.id == b.id && a.addr == b.addr
    && (f != NameField ==> a.name == b.name)
    && (f != VolumeField ==> a.volume == b.volume)
    && (f != PlayStatusField ==> a.playStatus == b.playStatus)
    && (f != PlayInfoField ==> a.playInfo == b.playInfo)
    && (f != ChargingStateField ==> a.chargingState == b.chargingState)
    && (f != BatteryLevelField ==> a.batteryLevel == b.batteryLevel)
    && (f != PreChannelsField ==> a.preChannels == b.preChannels)
  }

  /**
   * The field a command id updates, taking the arms of the source's match
   * in order, so that the first arm whose id matches wins. Battery level is
   * updated by its reply and by its notification; the pre-channels by the
   * `PreChannel` get id.
   */
  function FieldFor(x: ExtraCommands, command: U16): (r: Option<Field>)
    ensures r.None? <==>
              command !in {x.nameReplyId, x.volumeReplyId, x.playControlReplyId, x.playInfoReplyId,
                           x.chargingStateReplyId, x.batteryLevelReplyId, x.batteryLevel.notifyId, x.preChannel.getId}
    ensures command == x.nameReplyId ==> r == Some(NameField)
    ensures r == Some(NameField) ==> command == x.nameReplyId
    ensures command != x.nameReplyId && command == x.volumeReplyId ==> r == Some(VolumeField)
    ensures r == Some(VolumeField) ==> command == x.volumeReplyId
    ensures command !in {x.nameReplyId, x.volumeReplyId} && command == x.playControlReplyId ==> r == Some(PlayStatusField)
    ensures r == Some(PlayStatusField) ==> command == x.playControlReplyId
    ensures command !in {x.nameReplyId, x.volumeReplyId, x.playControlReplyId} && command == x.playInfoReplyId ==>
              r == Some(PlayInfoField)
    ensures r == Some(PlayInfoField) ==> command == x.playInfoReplyId
    ensures (command !in {x.nameReplyId, x.volumeReplyId, x.playControlReplyId, x.playInfoReplyId}
             && command == x.chargingStateReplyId) ==> r == Some(ChargingStateField)
    ensures r == Some(ChargingStateField) ==> command == x.chargingStateReplyId
    ensures (command !in {x.nameReplyId, x.volumeReplyId, x.playControlReplyId, x.playInfoReplyId, x.chargingStateReplyId}
             && (command == x.batteryLevelReplyId || command == x.batteryLevel.notifyId)) ==> r == Some(BatteryLevelField)
    ensures r == Some(BatteryLevelField) ==> command == x.batteryLevelReplyId || command == x.batteryLevel.notifyId
    ensures (command !in {x.nameReplyId, x.volumeReplyId, x.playControlReplyId, x.playInfoReplyId, x.chargingStateReplyId,
                          x.batteryLevelReplyId, x.batteryLevel.notifyId}
             && command == x.preChannel.getId) ==> r == Some(PreChannelsField)
    ensures r == Some(PreChannelsField) ==> command == x.preChannel.getId
  {
    if command == x.nameReplyId then Some(NameField)
    else if command == x.volumeReplyId then Some(VolumeField)
    else if command == x.playControlReplyId then Some(PlayStatusField)
    else if command == x.playInfoReplyId then Some(PlayInfoField)
    else if command == x.chargingStateReplyId then Some(ChargingStateField)
    else if command == x.batteryLevelReplyId || command == x.batteryLevel.notifyId then Some(BatteryLevelField)
    else if command == x.preChannel.getId then Some(PreChannelsField)
    else None
  }

  function Foreign<T>(r: Option<T>): Result<T, UnmarshalError> {
    if r.Some? then Ok(r.value) else Err(ForeignDecodeError)
  }

  /** The decoder of field `f` applied to a payload. */
  function Decode(x: ExtraCommands, f: Field, data: Text): (r: Result<FieldValue, UnmarshalError>)
    ensures r.Ok? ==> FieldOf(r.value) == f
  {
    match f
    case NameField =>
      (match UnmarshalDeviceName(data) case Ok(n) => Ok(NameValue(n)) case Err(e) => Err(e))
    case VolumeField =>
      (match UnmarshalVolume(data) case Ok(v) => Ok(VolumeValue(v)) case Err(e) => Err(e))
    case PlayStatusField =>
      (match UnmarshalPlayControl(data) case Ok(c) => Ok(PlayStatusValue(c)) case Err(e) => Err(e))
    case PlayInfoField =>
      (match Foreign(x.decodePlayInfo(data)) case Ok(i) => Ok(PlayInfoValue(i)) case Err(e) => Err(e))
    case ChargingStateField =>
      (match Foreign(x.decodeChargingState(data)) case Ok(c) => Ok(ChargingStateValue(c)) case Err(e) => Err(e))
    case BatteryLevelField =>
      (match Foreign(x.decodeBatteryLevel(data)) case Ok(b) => Ok(BatteryLevelValue(b)) case Err(e) => Err(e))
    case PreChannelsField =>
      (match Foreign(x.decodePreChannels(data)) case Ok(c) => Ok(PreChannelsValue(c)) case Err(e) => Err(e))
  }

  /** A device with one field assigned. */
  function Store(d: Device, v: FieldValue): (r: Device)
    ensures Current(r, FieldOf(v)) == Some(v)
    ensures SameExcept(d, r, FieldOf(v))
  {
    match v
    case NameValue(n) => d.(name := Some(n))
    case VolumeValue(n) => d.(volume := Some(n))
    case PlayStatusValue(c) => d.(playStatus := Some(c))
    case PlayInfoValue(i) => d.(playInfo := Some(i))
    case ChargingStateValue(c) => d.(chargingState := Some(c))
    case BatteryLevelValue(b) => d.(batteryLevel := Some(b))
    case PreChannelsValue(c) => d.(preChannels := Some(c))
  }

  /** A packet's payload, an absent one read as empty. */
  function PayloadOrEmpty(p: Packet): Text {
    if p.commandData.Some? then p.commandData.value else []
  }

  /**
   * `handle_device_update`: the device as a packet leaves it, or `None`
   * when the command id is not one the registry follows. Only the one field
   * the id names changes, to the decoded payload; a payload that does not
   * decode is an error and changes nothing.
   */
  function UpdateDevice(x: ExtraCommands, d: Device, p: Packet): (r: Result<Option<Device>, UnmarshalError>)
    ensures FieldFor(x, p.command).None? <==> r == Ok(None)
    ensures FieldFor(x, p.command).Some? ==>
              var f := FieldFor(x, p.command).value;
              var v := Decode(x, f, PayloadOrEmpty(p));
              && (r.Err? <==> v.Err?)
              && (r.Err? ==> r.error == v.error)
              && (r.Ok? ==> r.value.Some? && SameExcept(d, r.value.value, f) && Current(r.value.value, f) == Some(v.value))
  {
    match FieldFor(x, p.command)
    case None => Ok(None)
    case Some(f) =>
      match Decode(x, f, PayloadOrEmpty(p))
      case Err(e) => Err(e)
      case Ok(v) => Ok(Some(Store(d, v)))
  }

  /** A volume reply carrying the decimal text of `v` sets the volume to `v` and nothing else. */
  lemma VolumeReplySetsVolume(x: ExtraCommands, d: Device, p: Packet, v: Byte)
    requires p.command == x.volumeReplyId && p.command != x.nameReplyId
    requires p.commandData == Some(Decimal(v))
    ensures UpdateDevice(x, d, p) == Ok(Some(d.(volume := Some(v))))
  {
    ParseDecimal(v, 0xff);
  }

  datatype Event = DeviceDiscovered(device: Device) | DeviceUpdated(device: Device)

  /** The sending half of a listener's channel; `connected` is false once its receiver is gone. */
  datatype Listener = Listener(channel: nat, connected: bool)

  /** An event that reached a listener's channel. */
  datatype Delivery = Delivery(channel: nat, event: Event)

  /** A packet handed to the socket, with its destination. */
  datatype Datagram = Datagram(packet: Packet, to: SocketAddr)

  datatype DeviceError = UnknownDeviceId | SendFailed | AckFailed | UnmarshalFailed(cause: UnmarshalError)

  /** The listeners a send reaches, in their order: those whose receiver is alive. */
  function Connected(ls: seq<Listener>): seq<Listener> {
    if ls == [] then [] else (if ls[0].connected then [ls[0]] else []) + Connected(ls[1..])
  }

  /** What sending `e` to `ls` delivers: one copy of `e` per connected listener, in order. */
  function Deliveries(ls: seq<Listener>, e: Event): seq<Delivery> {
    if ls == [] then [] else (if ls[0].connected then [Delivery(ls[0].channel, e)] else []) + Deliveries(ls[1..], e)
  }

  /** A send keeps exactly the live listeners, and never adds one. */
  lemma {:induction false} ConnectedMembers(ls: seq<Listener>)
    ensures |Connected(ls)| <= |ls|
    ensures forall l :: l in Connected(ls) <==> l in ls && l.connected
  {
    if ls != [] {
      ConnectedMembers(ls[1..]);
      assert ls == [ls[0]] + ls[1..];
    }
  }

  /** Filtering a concatenation filters each part and keeps the parts in order. */
  lemma {:induction false} ConnectedAppend(a: seq<Listener>, b: seq<Listener>)
    ensures Connected(a + b) == Connected(a) + Connected(b)
    decreases |a|
  {
    if a == [] {
      assert a + b == b;
    } else {
      assert (a + b)[0] == a[0] && (a + b)[1..] == a[1..] + b;
      ConnectedAppend(a[1..], b);
    }
  }

  lemma {:induction false} DeliveriesAppend(a: seq<Listener>, b: seq<Listener>, e: Event)
    ensures Deliveries(a + b, e) == Deliveries(a, e) + Deliveries(b, e)
    decreases |a|
  {
    if a == [] {
      assert a + b == b;
    } else {
      assert (a + b)[0] == a[0] && (a + b)[1..] == a[1..] + b;
      DeliveriesAppend(a[1..], b, e);
    }
  }

  /** When every listener is alive, a send keeps them all. */
  lemma {:induction false} ConnectedAll(ls: seq<Listener>)
    requires forall i | 0 <= i < |ls| :: ls[i].connected
    ensures Connected(ls) == ls
  {
    if ls != [] {
      ConnectedAll(ls[1..]);
    }
  }

  /** There is one delivery per surviving listener, the i-th to the i-th survivor. */
  lemma {:induction false} DeliveriesFollowConnected(ls: seq<Listener>, e: Event)
    ensures |Deliveries(ls, e)| == |Connected(ls)|
    ensures forall i | 0 <= i < |Connected(ls)| :: Deliveries(ls, e)[i] == Delivery(Connected(ls)[i].channel, e)
  {
    if ls != [] {
      DeliveriesFollowConnected(ls[1..], e);
      var ds, cs := Deliveries(ls[1..], e), Connected(ls[1..]);
      if ls[0].connected {
        assert Deliveries(ls, e) == [Delivery(ls[0].channel, e)] + ds;
        assert Connected(ls) == [ls[0]] + cs;
        forall i | 1 <= i < |Connected(ls)|
          ensures Deliveries(ls, e)[i] == Delivery(Connected(ls)[i].channel, e)
        {
          assert Deliveries(ls, e)[i] == ds[i - 1] && Connected(ls)[i] == cs[i - 1];
        }
      } else {
        assert Deliveries(ls, e) == ds && Connected(ls) == cs;
      }
    }
  }

  /** The indices below `n` of the listeners a send did not reach, in increasing order. */
  function FailedIndices(ls: seq<Listener>, n: nat): (r: seq<nat>)
    requires n <= |ls|
    ensures forall j | 0 <= j < |r| :: r[j] < n
  {
    if n == 0 then [] else FailedIndices(ls, n - 1) + (if ls[n - 1].connected then [] else [n - 1])
  }

  /** The failed indices increase, and each is that of a listener the send did not reach. */
  lemma {:induction false} FailedIncreasing(ls: seq<Listener>, n: nat)
    requires n <= |ls|
    ensures forall j, j' | 0 <= j < j' < |FailedIndices(ls, n)| :: FailedIndices(ls, n)[j] < FailedIndices(ls, n)[j']
    ensures forall j | 0 <= j < |FailedIndices(ls, n)| :: !ls[FailedIndices(ls, n)[j]].connected
  {
    if n > 0 {
      FailedIncreasing(ls, n - 1);
    }
  }

  /** Where a listener the send did not reach sits among the failed indices. */
  function FailedPosition(ls: seq<Listener>, n: nat, i: nat): (p: nat)
    requires i < n <= |ls| && !ls[i].connected
    ensures p < |FailedIndices(ls, n)| && FailedIndices(ls, n)[p] == i
  {
    if i == n - 1 then |FailedIndices(ls, n - 1)| else FailedPosition(ls, n - 1, i)
  }

  /** A listener whose index was not collected was reached. */
  lemma FailedComplete(ls: seq<Listener>, n: nat, i: nat)
    requires i < n <= |ls|
    requires forall j | 0 <= j < |FailedIndices(ls, n)| :: FailedIndices(ls, n)[j] != i
    ensures ls[i].connected
  {
    if !ls[i].connected {
      var p := FailedPosition(ls, n, i);
      assert false;
    }
  }

  /** The index where the removals still to be made stop. */
  function Bound(failed: seq<nat>, k: nat, n: nat): nat {
    if k < |failed| then failed[k] else n
  }

  /** An index strictly between two consecutive entries of an increasing sequence is none of its entries. */
  lemma NotAnEntry(failed: seq<nat>, k: nat, i: nat)
    requires forall j, j' | 0 <= j < j' < |failed| :: failed[j] < failed[j']
    requires k <= |failed| && (0 < k ==> failed[k - 1] < i) && (k < |failed| ==> i < failed[k])
    ensures forall j | 0 <= j < |failed| :: failed[j] != i
  {
    forall j | 0 <= j < |failed|
      ensures failed[j] != i
    {
      if j < k - 1 {
        assert failed[j] < failed[k - 1];
      } else if k < j {
        assert failed[k] < failed[j];
      }
    }
  }

  /** Between two consecutive failed indices every listener is alive. */
  lemma FailedGap(failed: seq<nat>, ls: seq<Listener>, k: nat)
    requires failed == FailedIndices(ls, |ls|) && 0 < k <= |failed|
    ensures failed[k - 1] < Bound(failed, k, |ls|) <= |ls| && !ls[failed[k - 1]].connected
    ensures forall i | failed[k - 1] < i < Bound(failed, k, |ls|) :: ls[i].connected
  {
    FailedIncreasing(ls, |ls|);
    var b := Bound(failed, k, |ls|);
    assert failed[k - 1] < b by {
      if k < |failed| {
        assert failed[k - 1] < failed[k];
      }
    }
    forall i | failed[k - 1] < i < b
      ensures ls[i].connected
    {
      NotAnEntry(failed, k, i);
      FailedComplete(ls, |ls|, i);
    }
  }

  /** Before the first failed index every listener is alive. */
  lemma FailedNoneBefore(failed: seq<nat>, ls: seq<Listener>)
    requires failed == FailedIndices(ls, |ls|)
    ensures Bound(failed, 0, |ls|) <= |ls|
    ensures forall i | 0 <= i < Bound(failed, 0, |ls|) :: ls[i].connected
  {
    FailedIncreasing(ls, |ls|);
    forall i | 0 <= i < Bound(failed, 0, |ls|)
      ensures ls[i].connected
    {
      NotAnEntry(failed, 0, i);
      FailedComplete(ls, |ls|, i);
    }
  }

  lemma DeliveriesStep(ls: seq<Listener>, i: nat, e: Event)
    requires i < |ls|
    ensures Deliveries(ls[..i + 1], e)
            == Deliveries(ls[..i], e) + (if ls[i].connected then [Delivery(ls[i].channel, e)] else [])
  {
    assert ls[..i + 1] == ls[..i] + [ls[i]];
    DeliveriesAppend(ls[..i], [ls[i]], e);
    assert [ls[i]][1..] == [];
  }

  /** `Vec::remove`: the sequence without its element at `i`. */
  function RemoveAt<T>(s: seq<T>, i: nat): (r: seq<T>)
    requires i < |s|
    ensures |r| == |s| - 1
    ensures forall j | 0 <= j < i :: r[j] == s[j]
    ensures forall j | i <= j < |r| :: r[j] == s[j + 1]
  {
    s[..i] + s[i + 1..]
  }

  /**
   * The listeners while the removals run, `k` failed indices still to go:
   * untouched below the next index to remove, already filtered from it on.
   */
  function Pending(failed: seq<nat>, k: nat, ls: seq<Listener>): seq<Listener>
    requires failed == FailedIndices(ls, |ls|) && k <= |failed|
  {
    var b := Bound(failed, k, |ls|);
    assert b <= |ls|;
    ls[..b] + Connected(ls[b..])
  }

  /** Before any removal nothing is filtered yet. */
  lemma PendingStart(failed: seq<nat>, ls: seq<Listener>)
    requires failed == FailedIndices(ls, |ls|)
    ensures Pending(failed, |failed|, ls) == ls
  {
    assert ls[..|ls|] == ls && ls[|ls|..] == [];
  }

  /**
   * Removing the highest failed index still present: the listeners before
   * it are untouched and the filtered part now starts there.
   */
  lemma RemovalStep(failed: seq<nat>, ls: seq<Listener>, k: nat)
    requires failed == FailedIndices(ls, |ls|) && 0 < k <= |failed|
    ensures failed[k - 1] < |Pending(failed, k, ls)|
    ensures RemoveAt(Pending(failed, k, ls), failed[k - 1]) == Pending(failed, k - 1, ls)
  {
    FailedGap(failed, ls, k);
    var idx := failed[k - 1];
    var b := Bound(failed, k, |ls|);
    ConnectedFrom(ls, idx, b);
    var cur := ls[..b] + Connected(ls[b..]);
    assert cur[..idx] == ls[..idx];
    assert cur[idx + 1..] == ls[idx + 1..b] + Connected(ls[b..]);
  }

  /** Once every failed index is removed, what is left is the filtered list. */
  lemma RemovalDone(failed: seq<nat>, ls: seq<Listener>)
    requires failed == FailedIndices(ls, |ls|)
    ensures Pending(failed, 0, ls) == Connected(ls)
  {
    FailedNoneBefore(failed, ls);
    var b := Bound(failed, 0, |ls|);
    assert ls == ls[..b] + ls[b..];
    ConnectedAppend(ls[..b], ls[b..]);
    ConnectedAll(ls[..b]);
  }

  /** Removing the failed listener at `idx` from a list whose tail from `b` is already filtered. */
  lemma ConnectedFrom(ls: seq<Listener>, idx: nat, b: nat)
    requires idx < b <= |ls| && !ls[idx].connected
    requires forall i | idx < i < b :: ls[i].connected
    ensures Connected(ls[idx..]) == ls[idx + 1..b] + Connected(ls[b..])
  {
    assert ls[idx..] == [ls[idx]] + ls[idx + 1..b] + ls[b..];
    ConnectedAppend([ls[idx]] + ls[idx + 1..b], ls[b..]);
    ConnectedAppend([ls[idx]], ls[idx + 1..b]);
    assert Connected([ls[idx]]) == [] by {
      assert [ls[idx]][1..] == [];
    }
    ConnectedAll(ls[idx + 1..b]);
  }

  /** The part of the registry that handling a packet can change. */
  datatype Registry = Registry(devices: map<Text, Device>, listeners: seq<Listener>, delivered: seq<Delivery>)

  /** Every device is filed under its own id. */
  predicate Keyed(devices: map<Text, Device>) {
    forall k | k in devices :: devices[k].id == k
  }

  /** `send_event` on a registry: every live listener gets `e`; the dead ones are dropped. */
  function Emit(s: Registry, e: Event): (r: Registry)
    ensures r.devices == s.devices
    ensures r.listeners == Connected(s.listeners)
    ensures r.delivered == s.delivered + Deliveries(s.listeners, e)
  {
    Registry(s.devices, Connected(s.listeners), s.delivered + Deliveries(s.listeners, e))
  }

  /**
   * `handle_incoming_packet` once the device at the sender's address is
   * chosen: the device is updated as `UpdateDevice` says and, if the packet
   * changed it, the updated device is announced to the listeners.
   */
  function Incoming(x: ExtraCommands, s: Registry, key: Text, p: Packet): (r: (Registry, Result<(), DeviceError>))
    requires key in s.devices
    ensures r.1.Err? || FieldFor(x, p.command).None? ==> r.0 == s
    ensures r.1.Err? <==> UpdateDevice(x, s.devices[key], p).Err?
    ensures r.0.devices.Keys == s.devices.Keys
    ensures forall k | k in s.devices && k != key :: r.0.devices[k] == s.devices[k]
    ensures FieldFor(x, p.command).Some? ==> SameExcept(s.devices[key], r.0.devices[key], FieldFor(x, p.command).value)
    ensures Keyed(s.devices) ==> Keyed(r.0.devices)
  {
    match UpdateDevice(x, s.devices[key], p)
    case Err(e) => (s, Err(UnmarshalFailed(e)))
    case Ok(None) => (s, Ok(()))
    case Ok(Some(d)) => (Emit(s.(devices := s.devices[key := d]), DeviceUpdated(d)), Ok(()))
  }

  /** A packet whose payload decodes changes exactly one value of the device, and says so. */
  lemma IncomingAnnounces(x: ExtraCommands, s: Registry, key: Text, p: Packet)
    requires key in s.devices && FieldFor(x, p.command).Some?
    requires Decode(x, FieldFor(x, p.command).value, PayloadOrEmpty(p)).Ok?
    ensures var f := FieldFor(x, p.command).value;
            var d := Incoming(x, s, key, p).0.devices[key];
            && Incoming(x, s, key, p).1 == Ok(())
            && Current(d, f) == Some(Decode(x, f, PayloadOrEmpty(p)).value)
            && Incoming(x, s, key, p).0.listeners == Connected(s.listeners)
            && Incoming(x, s, key, p).0.delivered == s.delivered + Deliveries(s.listeners, DeviceUpdated(d))
  {
  }

  /**
   * `DeviceManagerData`: the devices by id, the listeners, and the socket
   * every command and acknowledgement goes through.
   */
  class DeviceManagerData {
    const extra: ExtraCommands
    var listeners: seq<Listener>
    var delivered: seq<Delivery>
    var devices: map<Text, Device>
    var outbox: seq<Datagram>

    ghost predicate Valid()
      reads this
    {
      Keyed(devices)
    }

    function State(): Registry
      reads this
    {
      Registry(devices, listeners, delivered)
    }

    constructor (extra: ExtraCommands)
      ensures Valid() && this.extra == extra
      ensures listeners == [] && delivered == [] && devices == map[] && outbox == []
    {
      this.extra := extra;
      listeners := [];
      delivered := [];
      devices := map[];
      outbox := [];
    }

    /**
     * `send_event`: offers `e` to every listener in order, then removes,
     * from the highest index down, those whose send failed.
     */
    method SendEvent(e: Event)
      modifies this`listeners, this`delivered
      ensures listeners == Connected(old(listeners))
      ensures delivered == old(delivered) + Deliveries(old(listeners), e)
    {
      ghost var all := listeners;
      var failed := Offer(e);
      PendingStart(failed, all);
      var k := |failed|;
      while k > 0
        invariant 0 <= k <= |failed|
        invariant delivered == old(delivered) + Deliveries(all, e)
        invariant listeners == Pending(failed, k, all)
      {
        RemovalStep(failed, all, k);
        listeners := RemoveAt(listeners, failed[k - 1]);
        k := k - 1;
      }
      RemovalDone(failed, all);
    }

    /** The first loop of `send_event`: the event goes to each live listener, and the others' indices are collected. */
    method Offer(e: Event) returns (failed: seq<nat>)
      modifies this`delivered
      ensures failed == FailedIndices(listeners, |listeners|)
      ensures delivered == old(delivered) + Deliveries(listeners, e)
    {
      failed := [];
      var i := 0;
      while i < |listeners|
        invariant 0 <= i <= |listeners|
        invariant delivered == old(delivered) + Deliveries(listeners[..i], e)
        invariant failed == FailedIndices(listeners, i)
      {
        DeliveriesStep(listeners, i, e);
        if listeners[i].connected {
          delivered := delivered + [Delivery(listeners[i].channel, e)];
        } else {
          failed := failed + [i];
        }
        i := i + 1;
      }
      assert listeners[..|listeners|] == listeners;
    }

    /**
     * `register_device`: a device id seen before changes nothing; a new one
     * is filed as a blank device at the announced address and announced.
     */
    method RegisterDevice(info: Discovery.DiscoveryReply)
      requires Valid()
      modifies this`devices, this`listeners, this`delivered
      ensures Valid()
      ensures info.deviceId in old(devices) ==> State() == old(State())
      ensures info.deviceId !in old(devices) ==>
                var d := NewDevice(info.deviceId, info.ipAddress);
                State() == Emit(old(State()).(devices := old(devices)[info.deviceId := d]), DeviceDiscovered(d))
    {
      if info.deviceId in devices {
        return;
      }
      var device := NewDevice(info.deviceId, info.ipAddress);
      devices := devices[device.id := device];
      SendEvent(DeviceDiscovered(device));
    }

    /** The socket: a send that succeeds puts the packet in the outbox. */
    method Transmit(p: Packet, to: SocketAddr, ok: bool) returns (r: Result<(), DeviceError>)
      modifies this`outbox
      ensures r.Ok? <==> ok
      ensures r.Err? ==> r.error == SendFailed
      ensures outbox == if ok then old(outbox) + [Datagram(p, to)] else old(outbox)
    {
      if ok {
        outbox := outbox + [Datagram(p, to)];
        r := Ok(());
      } else {
        r := Err(SendFailed);
      }
    }

    /**
     * `send_packet`: a packet for a known device goes to its command port;
     * an unknown id is an error and nothing is sent.
     */
    method SendPacket(deviceId: Text, p: Packet, ok: bool) returns (r: Result<(), DeviceError>)
      modifies this`outbox
      ensures deviceId !in devices ==> r == Err(UnknownDeviceId) && outbox == old(outbox)
      ensures deviceId in devices ==>
                && (r.Ok? <==> ok)
                && (r.Err? ==> r.error == SendFailed)
                && outbox == old(outbox) + (if ok then [Datagram(p, SocketAddr(devices[deviceId].addr, CmdSendPort))] else [])
    {
      if deviceId in devices {
        r := Transmit(p, SocketAddr(devices[deviceId].addr, CmdSendPort), ok);
      } else {
        r := Err(UnknownDeviceId);
      }
    }

    /**
     * `handle_incoming_packet`: picks some device at the sender's address
     * (`target` reports which) and applies the packet to it. With no
     * device at that address nothing changes.
     */
    method HandleIncomingPacket(from: SocketAddr, p: Packet) returns (r: Result<(), DeviceError>, ghost target: Option<Text>)
      requires Valid()
      modifies this`devices, this`listeners, this`delivered
      ensures Valid()
      ensures target.None? ==>
                && (forall k | k in old(devices) :: old(devices)[k].addr != from.ip)
                && State() == old(State()) && r == Ok(())
      ensures target.Some? ==>
                && target.value in old(devices) && old(devices)[target.value].addr == from.ip
                && (State(), r) == Incoming(extra, old(State()), target.value, p)
    {
      if key :| key in devices && devices[key].addr == from.ip {
        target := Some(key);
        match UpdateDevice(extra, devices[key], p)
        case Err(e) =>
          r := Err(UnmarshalFailed(e));
        case Ok(None) =>
          r := Ok(());
        case Ok(Some(d)) =>
          devices := devices[key := d];
          SendEvent(DeviceUpdated(d));
          r := Ok(());
      } else {
        target := None;
        r := Ok(());
      }
    }

    /**
     * `handle_notification`: acknowledges the notification to the sender's
     * acknowledgement port with command 2, the notification's command type
     * and no payload, then handles it as any incoming packet. A failed
     * acknowledgement is an error and changes nothing else.
     */
    method HandleNotification(from: SocketAddr, p: Packet, ackOk: bool)
      returns (r: Result<(), DeviceError>, ghost target: Option<Text>)
      requires Valid()
      modifies this`devices, this`listeners, this`delivered, this`outbox
      ensures Valid()
      ensures var ack := Datagram(Packet(p.commandType, 2, None), SocketAddr(from.ip, NotifAckPort));
              outbox == old(outbox) + (if ackOk then [ack] else [])
      ensures !ackOk ==> r == Err(AckFailed) && State() == old(State()) && target.None?
      ensures ackOk && target.None? ==>
                && (forall k | k in old(devices) :: old(devices)[k].addr != from.ip)
                && State() == old(State()) && r == Ok(())
      ensures target.Some? ==>
                && ackOk && target.value in old(devices) && old(devices)[target.value].addr == from.ip
                && (State(), r) == Incoming(extra, old(State()), target.value, p)
    {
      var sent := Transmit(Packet(p.commandType, 2, None), SocketAddr(from.ip, NotifAckPort), ackOk);
      if sent.Err? {
        return Err(AckFailed), None;
      }
      r, target := HandleIncomingPacket(from, p);
    }

    /** `handle_command_response`: a command reply is handled as any incoming packet. */
    method HandleCommandResponse(from: SocketAddr, p: Packet) returns (r: Result<(), DeviceError>, ghost target: Option<Text>)
      requires Valid()
      modifies this`devices, this`listeners, this`delivered
      ensures Valid()
      ensures target.None? ==>
                && (forall k | k in old(devices) :: old(devices)[k].addr != from.ip)
                && State() == old(State()) && r == Ok(())
      ensures target.Some? ==>
                && target.value in old(devices) && old(devices)[target.value].addr == from.ip
                && (State(), r) == Incoming(extra, old(State()), target.value, p)
    {
      r, target := HandleIncomingPacket(from, p);
    }
  }

  /** The seven fetches `fetch_info` sends, in its order. */
  function InfoFetches(x: ExtraCommands): seq<Packet> {
    [ FetchPacket(Ids(DeviceName)), FetchPacket(Ids(Volume)), FetchPacket(Ids(PlayControl)),
      FetchPacket(Ids(PlayInfo)), FetchPacket(x.chargingState), FetchPacket(x.batteryLevel),
      FetchPacket(x.preChannel) ]
  }

  /** The seven fetches carry no payload and ask, in order, for name, volume, play status, play info, then the three version-dependent values. */
  lemma InfoFetchesAreFetches(x: ExtraCommands)
    ensures |InfoFetches(x)| == 7
    ensures forall i | 0 <= i < 7 :: InfoFetches(x)[i].commandType == CommandTypeFetch && InfoFetches(x)[i].commandData.None?
    ensures [InfoFetches(x)[0].command, InfoFetches(x)[1].command, InfoFetches(x)[2].command, InfoFetches(x)[3].command]
            == [90, 64, 51, 278]
    ensures InfoFetches(x)[4].command == x.chargingState.getId
    ensures InfoFetches(x)[5].command == x.batteryLevel.getId
    ensures InfoFetches(x)[6].command == x.preChannel.getId
  {
  }

  /** The datagrams of a run of packets sent to one address. */
  function SendAll(ps: seq<Packet>, to: SocketAddr): seq<Datagram> {
    if ps == [] then [] else SendAll(ps[..|ps| - 1], to) + [Datagram(ps[|ps| - 1], to)]
  }

  /** One more packet of the run has been sent. */
  lemma Advanced(ps: seq<Packet>, j: nat, to: SocketAddr, start: seq<Datagram>, outbox: seq<Datagram>)
    requires j < |ps| && outbox == start + SendAll(ps[..j], to) + [Datagram(ps[j], to)]
    ensures outbox == start + SendAll(ps[..j + 1], to)
  {
    assert ps[..j + 1][..j] == ps[..j];
  }

  /** A channel id above that of every listener: what a new `mpsc::channel()` stands for. */
  function FreshChannel(ls: seq<Listener>): (c: nat)
    ensures forall l | l in ls :: l.channel < c
  {
    if ls == [] then 0
    else
      var rest := FreshChannel(ls[..|ls| - 1]);
      assert forall l | l in ls :: l in ls[..|ls| - 1] || l == ls[|ls| - 1];
      if ls[|ls| - 1].channel < rest then rest else ls[|ls| - 1].channel + 1
  }

  /** `DeviceManager`: the registry behind the lock that its threads share. */
  class DeviceManager {
    const data: DeviceManagerData

    ghost predicate Valid()
      reads this, data
    {
      data.Valid()
    }

    /** `DeviceManager::new`, without the threads it starts. */
    constructor (extra: ExtraCommands)
      ensures Valid() && fresh(data) && data.extra == extra
      ensures data.listeners == [] && data.delivered == [] && data.devices == map[] && data.outbox == []
    {
      data := new DeviceManagerData(extra);
    }

    /**
     * `listen`: makes a new channel, registers its sending half and gives
     * back its receiver, named here by a channel id no listener has.
     */
    method Listen() returns (channel: nat)
      requires Valid()
      modifies data`listeners
      ensures Valid()
      ensures forall l | l in old(data.listeners) :: l.channel != channel
      ensures data.listeners == old(data.listeners) + [Listener(channel, true)]
    {
      channel := FreshChannel(data.listeners);
      data.listeners := data.listeners + [Listener(channel, true)];
    }

    /**
     * `fetch_info`: the seven fetches, in order, to the device's command
     * port, stopping at the first that fails. The network accepts the first
     * `accepted` sends and refuses the next one.
     */
    method FetchInfo(deviceId: Text, accepted: nat) returns (r: Result<(), DeviceError>)
      requires Valid()
      modifies data`outbox
      ensures Valid()
      ensures deviceId !in data.devices ==> r == Err(UnknownDeviceId) && data.outbox == old(data.outbox)
      ensures deviceId in data.devices ==>
                var n := if accepted < 7 then accepted else 7;
                && data.outbox == old(data.outbox) + SendAll(InfoFetches(data.extra)[..n], SocketAddr(data.devices[deviceId].addr, CmdSendPort))
                && r == (if accepted >= 7 then Ok(()) else Err(SendFailed))
    {
      ghost var start := data.outbox;
      r := FetchStep(deviceId, 0, accepted, start);
      if r.Err? { return; }
      r := FetchStep(deviceId, 1, accepted, start);
      if r.Err? { return; }
      r := FetchStep(deviceId, 2, accepted, start);
      if r.Err? { return; }
      r := FetchStep(deviceId, 3, accepted, start);
      if r.Err? { return; }
      r := FetchStep(deviceId, 4, accepted, start);
      if r.Err? { return; }
      r := FetchStep(deviceId, 5, accepted, start);
      if r.Err? { return; }
      r := FetchStep(deviceId, 6, accepted, start);
      if r.Err? { return; }
      r := Ok(());
    }

    /**
     * The `i`-th fetch of `fetch_info`, after the first `i` were sent: the
     * sends so far are the first `i + 1` fetches, or the first `accepted`
     * when the network refuses this one.
     */
    method FetchStep(deviceId: Text, i: nat, accepted: nat, ghost start: seq<Datagram>) returns (r: Result<(), DeviceError>)
      requires Valid() && i < 7
      requires deviceId in data.devices ==>
                 i <= accepted
                 && data.outbox == start + SendAll(InfoFetches(data.extra)[..i], SocketAddr(data.devices[deviceId].addr, CmdSendPort))
      modifies data`outbox
      ensures Valid()
      ensures deviceId !in data.devices ==> r == Err(UnknownDeviceId) && data.outbox == old(data.outbox)
      ensures deviceId in data.devices ==>
                var n := if accepted < i + 1 then accepted else i + 1;
                && (r.Ok? <==> i < accepted)
                && (r.Err? ==> r == Err(SendFailed))
                && data.outbox == start + SendAll(InfoFetches(data.extra)[..n], SocketAddr(data.devices[deviceId].addr, CmdSendPort))
    {
      var ps := InfoFetches(data.extra);
      r := data.SendPacket(deviceId, ps[i], i < accepted);
      if deviceId in data.devices && r.Ok? {
        Advanced(ps, i, SocketAddr(data.devices[deviceId].addr, CmdSendPort), start, data.outbox);
      }
    }

    /** `set_volume`: the requested volume, clamped to 100, sent as a set. */
    method SetVolume(deviceId: Text, volume: Byte, ok: bool) returns (r: Result<(), DeviceError>)
      requires Valid()
      modifies data`outbox
      ensures Valid()
      ensures deviceId !in data.devices ==> r == Err(UnknownDeviceId) && data.outbox == old(data.outbox)
      ensures deviceId in data.devices ==>
                var p := SetPacket(VolumeRequest(if volume > 100 then 100 else volume));
                && (r.Ok? <==> ok)
                && (r.Err? ==> r.error == SendFailed)
                && data.outbox == old(data.outbox) + (if ok then [Datagram(p, SocketAddr(data.devices[deviceId].addr, CmdSendPort))] else [])
    {
      var clamped := if volume > 100 then 100 else volume;
      r := data.SendPacket(deviceId, SetPacket(VolumeRequest(clamped)), ok);
    }

    /** `DeviceManager::send_packet`: the registry's send. */
    method SendPacket(deviceId: Text, p: Packet, ok: bool) returns (r: Result<(), DeviceError>)
      requires Valid()
      modifies data`outbox
      ensures Valid()
      ensures deviceId !in data.devices ==> r == Err(UnknownDeviceId) && data.outbox == old(data.outbox)
      ensures deviceId in data.devices ==>
                && (r.Ok? <==> ok)
                && (r.Err? ==> r.error == SendFailed)
                && data.outbox == old(data.outbox) + (if ok then [Datagram(p, SocketAddr(data.devices[deviceId].addr, CmdSendPort))] else [])
    {
      r := data.SendPacket(deviceId, p, ok);
    }
  }

  /** Whatever volume is asked for, the payload sent is the decimal text of one no larger than 100. */
  lemma SetVolumeSendsValidVolume(volume: Byte)
    ensures var v := if volume > 100 then 100 else volume;
            && v <= 100 && (volume <= 100 ==> v == volume)
            && SetPacket(VolumeRequest(v)).commandData == Some(Decimal(v))
            && UnmarshalVolume(SetPacket(VolumeRequest(v)).commandData.value) == Ok(v)
  {
    var v := if volume > 100 then 100 else volume;
    VolumeRoundTrip(v);
  }
}
