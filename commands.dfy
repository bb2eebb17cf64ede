/**
 * The command table: each command's fetch, set and notification ids, the
 * packet builders every command shares, and the payload encoding of the
 * commands that carry one.
 */
module Commands {
  import opened Wrappers
  import opened Bytes
  import opened Protocol

  const CommandTypeFetch: Byte := 1
  const CommandTypeSet: Byte := 2

  datatype CommandType = Fetch | Set

  /** The commands of the table. */
  datatype CommandKind =
    | Power | DeviceName | Volume | PlayControl
    | PlayInfo | Capabilities | PowerMode | FirmwareUpdate

  /** A command's `GET_COMMAND_ID`, `SET_COMMAND_ID` and `NOTIFY_ID`. */
  datatype CommandIds = CommandIds(getId: U16, setId: U16, notifyId: U16)

  /**
   * The id table. Every command can be fetched, and a command that sends
   * notifications sends them under its fetch id.
   */
  function Ids(k: CommandKind): (r: CommandIds)
    ensures r.getId != 0
    ensures r.notifyId == 0 || r.notifyId == r.getId
  {
    match k
    case Power => CommandIds(15, 15, 15)
    case DeviceName => CommandIds(90, 90, 0)
    case Volume => CommandIds(64, 64, 64)
    case PlayControl => CommandIds(51, 40, 51)
    case PlayInfo => CommandIds(278, 277, 278)
    case Capabilities => CommandIds(281, 0, 0)
    case PowerMode => CommandIds(14, 0, 14)
    case FirmwareUpdate => CommandIds(65, 65, 65)
  }

  /** No two commands share a fetch id, so a reply's id names the command it answers. */
  lemma GetIdsDistinct(a: CommandKind, b: CommandKind)
    requires a != b
    ensures Ids(a).getId != Ids(b).getId
  {
  }

  datatype PowerState = Sleep | WakeUp

  datatype PlayControlCommand = Play | Stop | Pause | Next | Previous | Toggle | Mute | Unmute

  /** The variants in declaration order; the device reports play state as an index into it. */
  const PlayControlOrder: seq<PlayControlCommand> := [Play, Stop, Pause, Next, Previous, Toggle, Mute, Unmute]

  /** The data a set request carries, typed per command. */
  datatype Request =
    | PowerRequest(state: PowerState)
    | DeviceNameRequest(name: Text)
    | VolumeRequest(volume: Byte)
    | PlayControlRequest(control: PlayControlCommand)
    | UnitRequest(kind: CommandKind)

  /** The commands whose request data is `()`. */
  predicate TakesUnit(k: CommandKind) {
    k == PlayInfo || k == Capabilities || k == PowerMode || k == FirmwareUpdate
  }

  function KindOf(r: Request): CommandKind
    requires r.UnitRequest? ==> TakesUnit(r.kind)
  {
    match r
    case PowerRequest(_) => Power
    case DeviceNameRequest(_) => DeviceName
    case VolumeRequest(_) => Volume
    case PlayControlRequest(_) => PlayControl
    case UnitRequest(k) => k
  }

  datatype UnmarshalError =
    | InvalidVolumeData
    | InvalidPlayControlData(value: Byte)
    | InvalidPlayControlLength
    | ForeignDecodeError

  // Power

  function MarshalPower(s: PowerState): (r: Text)
    ensures s == Sleep ==> r == Ascii("02")
    ensures s == WakeUp ==> r == Ascii("00")
  {
    match s
    case Sleep => Ascii("02")
    case WakeUp => Ascii("00")
  }

  /** A power notification carries nothing the client reads. */
  function UnmarshalPower(data: Text): (r: Result<(), UnmarshalError>)
    ensures r.Ok?
  {
    Ok(())
  }

  // DeviceName

  /** `DeviceName::marshal_data`: the name's bytes, sent as they are. */
  function MarshalDeviceName(name: Text): (r: Text)
    ensures r == name
  {
    name
  }

  /** `DeviceName::unmarshal_data`: never fails, and the name is the payload's bytes. */
  function UnmarshalDeviceName(data: Text): (r: Result<Text, UnmarshalError>)
    ensures r == Ok(data)
  {
    Ok(data)
  }

  /** A name read back is the name that was written. */
  lemma DeviceNameRoundTrip(name: Text)
    ensures UnmarshalDeviceName(MarshalDeviceName(name)) == Ok(name)
  {
  }

  // Volume

  /**
   * `Volume::marshal_data`: the decimal digits of the volume. The source
   * panics above 100, so that is a precondition here.
   */
  function MarshalVolume(volume: Byte): (r: Text)
    requires volume <= 100
    ensures AllDigits(r) && 1 <= |r| <= 3
  {
    Decimal(volume)
  }

  /** `Volume::unmarshal_data`: Rust's parse of a `u8`, so any value up to 255 is accepted. */
  function UnmarshalVolume(data: Text): (r: Result<Byte, UnmarshalError>)
    ensures r.Err? ==> r.error == InvalidVolumeData
  {
    match ParseUnsigned(data, 0xff)
    case Some(v) => Ok(v)
    case None => Err(InvalidVolumeData)
  }

  /** Every volume the client may send is read back unchanged. */
  lemma VolumeRoundTrip(volume: Byte)
    requires volume <= 100
    ensures UnmarshalVolume(MarshalVolume(volume)) == Ok(volume)
  {
    ParseDecimal(volume, 0xff);
  }

  /** A payload holding a byte that is neither a digit nor a leading '+' is refused. */
  lemma VolumeRejectsNonDigit(data: Text, i: nat)
    requires i < |data| && !IsDigit(data[i])
    requires i == 0 ==> data[i] != Plus
    ensures UnmarshalVolume(data) == Err(InvalidVolumeData)
  {
    ParseRejectsNonDigit(data, 0xff, i);
  }

  /** An empty payload is refused. */
  lemma VolumeRejectsEmpty()
    ensures UnmarshalVolume([]) == Err(InvalidVolumeData)
  {
    ParseRejectsEmpty(0xff);
  }

  // PlayControl

  /** `PlayControl::marshal_data`: the control's word, four to six letters long. */
  function MarshalPlayControl(c: PlayControlCommand): (r: Text)
    ensures 4 <= |r| <= 6
    ensures forall i | 0 <= i < |r| :: 65 <= r[i] <= 90
  {
    match c
    case Play => Capitals("PLAY")
    case Stop => Capitals("STOP")
    case Pause => Capitals("PAUSE")
    case Next => Capitals("NEXT")
    case Previous => Capitals("PREV")
    case Toggle => Capitals("TOGGL")
    case Mute => Capitals("MUTE")
    case Unmute => Capitals("UNMUTE")
  }

  /** Distinct controls are sent as distinct words. */
  lemma MarshalPlayControlInjective(a: PlayControlCommand, b: PlayControlCommand)
    requires a != b
    ensures MarshalPlayControl(a) != MarshalPlayControl(b)
  {
    var x, y := MarshalPlayControl(a), MarshalPlayControl(b);
    assert |x| != |y| || x[0] != y[0] || x[1] != y[1];
  }

  /**
   * `PlayControl::unmarshal_data`: a single ASCII digit '0'..'7' names the
   * control at that index of the declaration order; any other single byte,
   * and any other length, is refused.
   */
  function UnmarshalPlayControl(data: Text): (r: Result<PlayControlCommand, UnmarshalError>)
    ensures |data| != 1 ==> r == Err(InvalidPlayControlLength)
    ensures |data| == 1 && 48 <= data[0] < 48 + |PlayControlOrder| ==> r == Ok(PlayControlOrder[data[0] - 48])
    ensures |data| == 1 && !(48 <= data[0] < 48 + |PlayControlOrder|) ==> r == Err(InvalidPlayControlData(data[0]))
  {
    if |data| != 1 then Err(InvalidPlayControlLength)
    else match data[0]
      case 48 => Ok(Play)
      case 49 => Ok(Stop)
      case 50 => Ok(Pause)
      case 51 => Ok(Next)
      case 52 => Ok(Previous)
      case 53 => Ok(Toggle)
      case 54 => Ok(Mute)
      case 55 => Ok(Unmute)
      case other => Err(InvalidPlayControlData(other))
  }

  // The commands whose data is () send an empty payload.

  /**
   * The payload of a set request, by command: each payload reads back as
   * the request's value, and the commands whose data is `()` send nothing.
   */
  function Marshal(r: Request): (data: Text)
    requires r.VolumeRequest? ==> r.volume <= 100
    ensures r.UnitRequest? ==> data == []
    ensures r.PowerRequest? ==> |data| == 2
    ensures r.DeviceNameRequest? ==> UnmarshalDeviceName(data) == Ok(r.name)
    ensures r.VolumeRequest? ==> UnmarshalVolume(data) == Ok(r.volume)
    ensures r.PlayControlRequest? ==> 4 <= |data| <= 6
  {
    match r
    case PowerRequest(s) => MarshalPower(s)
    case DeviceNameRequest(n) => MarshalDeviceName(n)
    case VolumeRequest(v) => VolumeRoundTrip(v); MarshalVolume(v)
    case PlayControlRequest(c) => MarshalPlayControl(c)
    case UnitRequest(_) => []
  }

  // Packet builders

  function TypeCode(t: CommandType): Byte {
    match t
    case Fetch => CommandTypeFetch
    case Set => CommandTypeSet
  }

  /** `Command::packet`: the command type decides both the type byte and which id is used. */
  function MakePacket(t: CommandType, ids: CommandIds, data: Option<Text>): (p: Packet)
    ensures p.commandType == TypeCode(t) && p.commandData == data
    ensures p.command == (if t == Fetch then ids.getId else ids.setId)
  {
    Packet(TypeCode(t), match t case Fetch => ids.getId case Set => ids.setId, data)
  }

  /** `Command::fetch`: a fetch packet with the command's get id and no payload. */
  function FetchPacket(ids: CommandIds): (p: Packet)
    ensures p.commandType == CommandTypeFetch && p.command == ids.getId && p.commandData.None?
  {
    MakePacket(Fetch, ids, None)
  }

  /** `Command::set`: a set packet with the command's set id and the marshalled request. */
  function SetPacket(r: Request): (p: Packet)
    requires r.UnitRequest? ==> TakesUnit(r.kind)
    requires r.VolumeRequest? ==> r.volume <= 100
    ensures p.commandType == CommandTypeSet && p.command == Ids(KindOf(r)).setId
    ensures p.commandData == Some(Marshal(r))
  {
    MakePacket(Set, Ids(KindOf(r)), Some(Marshal(r)))
  }

  /** Play control is set with id 40 and fetched with id 51. */
  lemma PlayControlPackets(c: PlayControlCommand)
    ensures SetPacket(PlayControlRequest(c)).command == 40
    ensures FetchPacket(Ids(PlayControl)).command == 51
  {
  }

  /**
   * `hello`: announces where the client receives notifications, as the set
   * command 3 with the text `<address>,3333`. How an address is written as
   * text is the standard library's business and is a parameter here.
   */
  function Hello(ourAddr: IpAddr, display: IpAddr -> Text): (p: Packet)
    ensures p.commandType == CommandTypeSet && p.command == 3
    ensures p.commandData == Some(display(ourAddr) + [Comma] + Decimal(NotifRecvPort))
  {
    Packet(CommandTypeSet, 3, Some(display(ourAddr) + [Comma] + Decimal(NotifRecvPort)))
  }

  /** After the address and the comma, the hello payload reads as the notification port. */
  lemma HelloNamesNotificationPort(ourAddr: IpAddr, display: IpAddr -> Text)
    ensures var data := Hello(ourAddr, display).commandData.value;
            var n := |display(ourAddr)|;
            && data[..n] == display(ourAddr)
            && data[n] == Comma
            && ParseUnsigned(data[n + 1..], 0xffff) == Some(NotifRecvPort as nat)
  {
    var data := Hello(ourAddr, display).commandData.value;
    var n := |display(ourAddr)|;
    assert data[n + 1..] == Decimal(NotifRecvPort);
    ParseDecimal(NotifRecvPort, 0xffff);
  }
}
