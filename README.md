# libratone-rs core, modelled in Dafny

This project models the core of `libratone-rs`, a client that controls
Libratone speakers over UDP. The model covers these parts:

- **Datagram codec** (`protocol.dfy`). A packet is a 10-byte header
  (`aa aa`, command type, big-endian command id, `00 12 34`, big-endian
  payload length) followed by an optional payload. The module also holds the
  four well-known ports.
- **Command table** (`commands.dfy`). It gives the fetch/set/notify ids of
  each command and builds fetch and set packets. It marshals and unmarshals
  the payloads of `Power`, `DeviceName`, `Volume` and `PlayControl`, and
  builds the `hello` packet that tells a speaker where to send notifications.
  Decimal text is handled in `bytes.dfy`.
- **Discovery announcement parser** (`discovery_reply.dfy`). It fixes the
  broken first line that speakers send, checks the method and the path,
  folds the headers (the last occurrence of a name wins, and a bad `PORT` or
  `IPAddr` aborts), and then requires all ten values.
- **Device registry** (`device.dfy`):
  - the devices by id, the event listeners, and the socket;
  - registering a discovered device;
  - sending to a device's command port, acknowledging notifications, and
    applying replies and notifications to the device at the sender's
    address;
  - broadcasting events and dropping the listeners that have gone away;
  - the manager's `fetch_info`, `set_volume`, `send_packet` and `listen`.
- **Fake network** (`fake.dfy`). It stands in for a real speaker: a map from
  port to in-memory channel, created on demand, and a packet sender that
  answers name and volume fetches, echoes volume sets and tracks a
  play/pause state.
- **Interface state** (`ui_appstate.dfy`, `ui_delegate.dfy`). It holds the
  devices shown by id and the current page, and the command handler that
  updates them.

Stateful parts are classes whose methods are proved against functions on
their fields:

- `DeviceManagerData` and `DeviceManager` in `device.dfy`;
- `FakeSocketMap`, `Channel` and `FakePacketSender` in `fake.dfy`;
- `AppState` in `ui_appstate.dfy`.

The registry's socket is an outbox of datagrams. Whether each send succeeds
is a boolean parameter, because the network decides it. For `fetch_info`
the parameter is the number of sends the network accepts before it refuses
one.

A listener is reduced to its channel identity and whether its receiving side
is still alive. What each listener was sent is logged in `delivered`.

Foreign code is passed in as function parameters:

- the HTTP request parser (`httpParse`);
- parsing an address from text (`parseIp`);
- formatting an address as text (`display`);
- the JSON and other decoders of the version-dependent commands (the
  fields of `ExtraCommands`).

The registry uses some commands that the command table in this version of
the repository does not define: the `GET_REPLY_COMMAND_ID` constants,
`ChargingState`, `BatteryLevel` and `PreChannel`, with their data types.
Their ids and decoders are the fields of `ExtraCommands`, and their data
types are opaque.

Where the source panics, the model has a precondition:

- `Volume::marshal_data` above 100;
- the fake's `unwrap` of a missing play-control payload.

## Model

| member | source | states |
|---|---|---|
| Bytes.Decimal | src/commands.rs:157 | `to_string` of a number: non-empty, all ASCII digits, no leading zero except for 0, and one to three digits for numbers below 1000 |
| Bytes.ParseUnsigned | src/commands.rs:160-164 | an unsigned-integer parse of text never yields more than the type's maximum; which texts it accepts and refuses is stated by the `Parse…` lemmas below |
| Bytes.DecimalValue | src/commands.rs:157 | reading the digits of a number's decimal text gives the number back |
| Bytes.ParseDecimal | src/discovery_reply.rs:76 | parsing the decimal text of any n not above the maximum gives n |
| Bytes.ParseRejectsNonDigit | src/commands.rs:160-164 | text with a non-digit, other than one leading `+`, does not parse |
| Bytes.ParseRejectsEmpty | src/commands.rs:160-164 | the empty text and a lone `+` do not parse |
| Bytes.ParseRejectsOverflow | src/commands.rs:160-164 | all-digit text denoting more than the type's maximum does not parse |
| Bytes.ParseLeadingPlus | src/discovery_reply.rs:76 | one leading `+` before digits is accepted and does not change the value |
| Bytes.ParseLeadingZeros | src/discovery_reply.rs:76 | leading zeros before digits are accepted and do not change the value |
| Bytes.LeadingZerosValue | src/commands.rs:160-164 | zeros in front of digits do not change the number they denote |
| Bytes.ParseLeadingZerosExample | src/commands.rs:160-164 | `"007"` parses as the `u8` 7 |
| Bytes.ParseLeadingPlusExample | src/commands.rs:160-164 | `"+35"` parses as the `u8` 35 |
| Bytes.ParseOverflowExample | src/commands.rs:160-164 | `"256"` is refused as a `u8` |
| Protocol.Parse | src/protocol.rs:18-44 | fewer than 10 bytes is "too short"; otherwise success exactly when 10 plus the big-endian length in bytes 8-9 equals the input length. On success the type is byte 2, the command is bytes 3-4 big-endian, and the payload is absent iff the declared length is 0 and is otherwise the bytes from 10 on |
| Protocol.Data | src/protocol.rs:46-66 | the encoding is 10 + payload length bytes: `aa aa`, type, big-endian command, `00 12 34`, the payload length mod 2^16 big-endian, then the payload |
| Protocol.ParseData | src/protocol.rs:21-66 | parsing an encoding gives the packet back, with an empty payload read as none; a payload of 2^16 bytes or more gives a datagram that parse refuses |
| Protocol.RoundTrip | src/protocol.rs:33-37 | for no payload, or a non-empty one shorter than 2^16 bytes, parse(data(p)) == p |
| Protocol.ParseIgnoresUnreadBytes | src/protocol.rs:18-44 | inputs that differ only in bytes 0, 1, 5, 6 and 7 parse alike: there is no marker check |
| Protocol.ParseSample | src/protocol.rs:102-116 | the unit test's datagram parses to type 2, command 14, payload `0x30` |
| Commands.Ids | src/commands.rs:107-317 | every command has a nonzero fetch id, and a command that notifies does so under its fetch id |
| Commands.GetIdsDistinct | src/commands.rs:107-317 | no two commands share a fetch id |
| Commands.MarshalPower | src/commands.rs:113-120 | Sleep is sent as "02" and WakeUp as "00" |
| Commands.UnmarshalPower | src/commands.rs:122-124 | a power payload always decodes |
| Commands.MarshalDeviceName | src/commands.rs:135-137 | a name is sent as its bytes, unchanged |
| Commands.UnmarshalDeviceName | src/commands.rs:139-141 | decoding a name never fails and yields the payload's bytes |
| Commands.DeviceNameRoundTrip | src/commands.rs:135-141 | a name's payload decodes back to the name |
| Commands.MarshalVolume | src/commands.rs:152-158 | a volume of at most 100 is sent as one to three ASCII digits |
| Commands.UnmarshalVolume | src/commands.rs:160-164 | a volume payload that does not decode fails with "invalid volume data" |
| Commands.VolumeRoundTrip | src/commands.rs:152-164 | every volume of at most 100 decodes back to itself |
| Commands.VolumeRejectsNonDigit | src/commands.rs:160-164 | a payload with a non-digit (a single leading `+` aside) is an error |
| Commands.VolumeRejectsEmpty | src/commands.rs:160-164 | an empty payload is an error |
| Commands.MarshalPlayControl | src/commands.rs:199-212 | each control is sent as a word of four to six capital letters |
| Commands.MarshalPlayControlInjective | src/commands.rs:199-212 | distinct controls are sent as distinct words |
| Commands.UnmarshalPlayControl | src/commands.rs:214-229 | a single byte `48+i`, for i below 8, is the i-th control in declaration order; any other single byte is an "invalid data" error carrying that byte; any other length is an "invalid data length" error |
| Commands.Marshal | src/commands.rs:22-38 | a set request's payload reads back as its value: a name as the name, a volume as the volume; power is two bytes, a control word four to six, and commands with `()` data send nothing |
| Commands.MakePacket | src/commands.rs:27-39 | the type byte is 1 for a fetch and 2 for a set; the id is the get id for a fetch and the set id for a set; the payload is the given data |
| Commands.FetchPacket | src/commands.rs:41-43 | a fetch is type 1 with the get id and no payload |
| Commands.SetPacket | src/commands.rs:45-47 | a set is type 2 with the set id and the marshalled request as payload |
| Commands.PlayControlPackets | src/commands.rs:193-196 | play control is set with id 40 and fetched with id 51 |
| Commands.Hello | src/commands.rs:167-177 | hello is the set command 3 with payload `<address>,3333` |
| Commands.HelloNamesNotificationPort | src/commands.rs:167-177 | the hello payload is the address text, a comma, and text that parses as port 3333 |
| Discovery.FixPrefix | src/discovery_reply.rs:25-38 | input that starts with the broken first line loses exactly the one stray space; any other input is unchanged |
| Discovery.FixPrefixOfBroken | src/discovery_reply.rs:25-38 | the broken first line followed by anything becomes the fixed first line followed by the same rest |
| Discovery.LastValue | src/discovery_reply.rs:63-106 | no headers give no value, and a header with the name at the end decides the value |
| Discovery.FirstError | src/discovery_reply.rs:74-92 | the only errors the headers raise are an invalid port number and an invalid address |
| Discovery.HeaderFields | src/discovery_reply.rs:63-106 | the fold fails exactly when some header raises an error, and then only with one of those two errors |
| Discovery.LastValueIsLast | src/discovery_reply.rs:63-106 | the value collected for a name is absent iff no header has that name, and otherwise is the value of the last header with that name |
| Discovery.Assemble | src/discovery_reply.rs:108-120 | the record is built exactly when all ten values were seen, field by field; otherwise the error is a missing known header |
| Discovery.FirstMissing | src/discovery_reply.rs:108-120 | the position found is the first known header whose value was not seen, every one before it having been seen |
| Discovery.AssembleReportsFirstMissing | src/discovery_reply.rs:108-120 | the header reported missing is the first absent one in the order DeviceName, DeviceID, DeviceState, PORT, ZoneID, Creator, IPAddr, ColorCode, FWVersion, StereoPairID |
| Discovery.Interpret | src/discovery_reply.rs:44-120 | a method other than NOTIFY and then a path other than `*` are errors; on success every field equals the value of the last header of its name, with the port and the address parsed |
| Discovery.FirstErrorAt | src/discovery_reply.rs:63-92 | the header fold fails with the error of the first bad `PORT` or `IPAddr` header |
| Discovery.NoFirstError | src/discovery_reply.rs:63-106 | with no bad `PORT` or `IPAddr` header the fold does not fail |
| Discovery.LastValueSkipsOther | src/discovery_reply.rs:63-106 | a header of another name does not affect the value collected for a name |
| Discovery.FirstErrorSkipsOther | src/discovery_reply.rs:63-106 | a header that raises no error does not affect which error the fold raises |
| Discovery.UnknownHeaderIgnored | src/discovery_reply.rs:102-104 | removing a header whose name is none of the ten known names does not change the parse result |
| Discovery.LaterHeaderWins | src/discovery_reply.rs:63-106 | a header appended with a known name replaces that name's value; another name leaves it |
| Discovery.SomeFirstError | src/discovery_reply.rs:74-92 | any bad `PORT` or `IPAddr` header makes the fold fail |
| Discovery.BadPortFails | src/discovery_reply.rs:74-79 | a `PORT` value that is not a decimal u16 fails the whole parse, whatever the other headers hold |
| Discovery.MissingHeaderFails | src/discovery_reply.rs:108-120 | if any of the ten names has no header, the parse fails |
| Discovery.CompleteSucceeds | src/discovery_reply.rs:44-120 | NOTIFY `*` with all ten names present and no bad value parses |
| Discovery.LastValueAt | src/discovery_reply.rs:63-106 | the value collected is that of the header with the name after which no header has the name |
| Discovery.AnnouncementNoError | src/discovery_reply.rs:63-106 | an announcement written from a record raises no header error when its address text parses to the record's address |
| Discovery.AnnouncementIdentity | src/discovery_reply.rs:63-106 | in such an announcement the device name, id, state, port and zone headers carry the record's values |
| Discovery.AnnouncementDetails | src/discovery_reply.rs:63-106 | in such an announcement the creator, address, colour, firmware and stereo-pair headers carry the record's values |
| Discovery.AnnouncementRoundTrip | src/discovery_reply.rs:128-162 | a NOTIFY `*` announcement with `HOST`, `PROTOCOL` and `NTS` headers of any values, then the ten named headers of any record, parses to that record; empty values give empty fields |
| Discovery.Parse | src/discovery_reply.rs:21-121 | an HTTP-level parse failure of the fixed input is an error; otherwise the result is the method/path/headers interpretation of what the HTTP parser returned |
| Discovery.FoldHeaders | src/discovery_reply.rs:52-106 | the loop over the headers computes exactly the specified fold: the first bad `PORT`/`IPAddr` error, or each field's last value |
| Devices.NewDevice | src/device.rs:31-43 | a new device has the given id and address and none of the reported values |
| Devices.FieldFor | src/device.rs:423-466 | an id updates no field exactly when it is none of the eight routed ids (six reply ids, the battery notification id and the pre-channel get id); otherwise the first arm, in the source's order, whose id matches decides the field, and each field is updated only by its own ids (battery level by its reply and its notification) |
| Devices.Decode | src/device.rs:419-468 | a successful decode produces a value of the field that was decoded |
| Devices.Store | src/device.rs:419-468 | assigning a value sets that one field and leaves every other field as it was |
| Devices.UpdateDevice | src/device.rs:419-468 | an unrecognised id gives `None`. A recognised id gives the same error as its decoder when the decoder fails, and otherwise gives the device with only that field changed, to the decoded value |
| Devices.VolumeReplySetsVolume | src/device.rs:430-435 | a volume reply carrying the decimal text of v sets the volume to v and changes nothing else |
| Devices.ConnectedMembers | src/device.rs:327-338 | after a send the listeners kept are exactly the live ones, and none is added |
| Devices.ConnectedAppend | src/device.rs:327-338 | the listeners kept from a joined list are the parts' survivors, in the same order |
| Devices.DeliveriesAppend | src/device.rs:330-334 | the deliveries to a joined list are the parts' deliveries in order |
| Devices.ConnectedAll | src/device.rs:327-338 | when every listener is alive none is removed |
| Devices.DeliveriesFollowConnected | src/device.rs:330-334 | one delivery per surviving listener, the i-th to the i-th survivor |
| Devices.FailedIndices | src/device.rs:328-334 | the failed indices collected are all below the count of listeners tried |
| Devices.FailedIncreasing | src/device.rs:328-334 | the indices collected are increasing, and each is that of a listener whose send failed |
| Devices.FailedPosition | src/device.rs:328-334 | every listener whose send failed has its index among those collected, and the position returned holds it |
| Devices.FailedComplete | src/device.rs:328-334 | a listener whose index was not collected was reached |
| Devices.FailedGap | src/device.rs:336-338 | between two consecutive failed indices every listener is alive |
| Devices.FailedNoneBefore | src/device.rs:336-338 | before the first failed index every listener is alive |
| Devices.DeliveriesStep | src/device.rs:330-334 | one more listener tried adds its delivery exactly when it is alive |
| Devices.RemoveAt | src/device.rs:337 | `Vec::remove` drops the element at the index: those before it stay, those after it move down by one |
| Devices.PendingStart | src/device.rs:336-338 | before any removal the listener list is untouched |
| Devices.RemovalStep | src/device.rs:336-338 | removing the highest failed index still present keeps the part before it and extends the filtered part down to it |
| Devices.RemovalDone | src/device.rs:336-338 | once every failed index is removed, the list left is the survivors in their original order |
| Devices.ConnectedFrom | src/device.rs:336-338 | removing one dead listener before a run of live ones is filtering that stretch |
| Devices.Emit | src/device.rs:327-338 | broadcasting keeps the devices, keeps exactly the live listeners, and delivers one copy per live listener |
| Devices.Incoming | src/device.rs:406-416 | a packet changes only the chosen device and only the field its id names. An error or an unrecognised id changes nothing, and an error arises exactly when decoding fails. Every device stays filed under its own id |
| Devices.IncomingAnnounces | src/device.rs:406-416 | a recognised packet that decodes stores the decoded value and announces the updated device to every live listener |
| Devices.DeviceManagerData.constructor | src/device.rs:132-136 | a new registry has no listeners, no devices and has sent nothing |
| Devices.DeviceManagerData.Offer | src/device.rs:328-334 | the event is delivered to each live listener in order, and the indices returned are exactly the failed ones, increasing |
| Devices.DeviceManagerData.SendEvent | src/device.rs:327-338 | every live listener receives the event in order, and exactly the listeners whose send failed are removed, the others keeping their order |
| Devices.DeviceManagerData.RegisterDevice | src/device.rs:341-350 | a known id changes nothing and emits nothing; a new id files a blank device with that id and address and broadcasts exactly one `DeviceDiscovered` |
| Devices.DeviceManagerData.Transmit | src/protocol.rs:69-76 | a send that succeeds appends the datagram; one that fails appends nothing and is an error |
| Devices.DeviceManagerData.SendPacket | src/device.rs:352-363 | an unknown id is an error and sends nothing; a known id sends to the device's address at port 7777 |
| Devices.DeviceManagerData.HandleIncomingPacket | src/device.rs:401-417 | with no device at the sender's address nothing changes; otherwise some device at that address is updated as `Incoming` says |
| Devices.DeviceManagerData.HandleNotification | src/device.rs:365-385 | first acknowledges to the sender's port 3334 with command 2, the same type and no payload; a failed acknowledgement is an error before any registry change; then the packet is handled as an incoming packet |
| Devices.DeviceManagerData.HandleCommandResponse | src/device.rs:387-399 | a command reply is handled as an incoming packet |
| Devices.InfoFetchesAreFetches | src/device.rs:302-308 | `fetch_info` sends seven payload-less fetches: name, volume, play control, play info, then charging state, battery level and pre-channels |
| Devices.Advanced | src/device.rs:302-308 | one more successful fetch extends the outbox by that fetch |
| Devices.DeviceManager.constructor | src/device.rs:130-181 | the manager starts with an empty registry whose devices are keyed by their own ids |
| Devices.FreshChannel | src/device.rs:289-297 | the id found is above every listener's, so it names a channel no listener has |
| Devices.DeviceManager.Listen | src/device.rs:289-297 | a new live listener, on a channel no existing listener has, is appended after the existing ones, and its channel is returned; the devices stay keyed by their ids |
| Devices.DeviceManager.FetchInfo | src/device.rs:299-311 | an unknown id sends nothing. For a known id the fetches go in order to port 7777, stopping at the first refused send: the outbox gains exactly the accepted prefix, and the result is Ok only if all seven went; the devices stay keyed by their ids |
| Devices.DeviceManager.FetchStep | src/device.rs:302-308 | one `?`-checked fetch: a refused send ends the run with `SendFailed` and the outbox holds exactly the accepted fetches so far; the devices stay keyed by their ids |
| Devices.DeviceManager.SetVolume | src/device.rs:313-317 | sends a volume set for the requested volume clamped to 100; a refused send is the error `SendFailed`; the devices stay keyed by their ids |
| Devices.DeviceManager.SendPacket | src/device.rs:319-323 | an unknown id is `UnknownDeviceId` and sends nothing; a known id sends to the device at port 7777, and a refused send is `SendFailed`; the devices stay keyed by their ids |
| Devices.SetVolumeSendsValidVolume | src/device.rs:316 | the clamped volume is at most 100, equals the request when that is at most 100, and its payload decodes back to it |
| Fake.Channel.constructor | src/fake.rs:27-28 | a new channel holds no messages |
| Fake.Channel.Send | src/fake.rs:81 | a message sent is queued after the earlier ones |
| Fake.Enqueue | src/fake.rs:78-83 | queueing a message adds it at the end of its port's queue, creating an empty queue first if needed, and leaves other ports alone |
| Fake.FakeSocketMap.constructor | src/fake.rs:52-56 | the socket map starts empty |
| Fake.FakeSocketMap.Entry | src/fake.rs:22-45 | an existing port returns its channel and leaves the map unchanged; a missing port gets a fresh, empty channel filed at that port only |
| Fake.FakeSocketMap.Sender | src/fake.rs:23-32 | the same get-or-create, for the sending half |
| Fake.FakeSocketMap.Receiver | src/fake.rs:34-44 | the same get-or-create, for the receiving half, so receiver and sender of one port share a channel |
| Fake.FetchReply | src/fake.rs:90-113 | a name or volume fetch is answered with a set carrying the fake's name or its volume, sent to the packet's destination address at port 7778; no other fetch is answered |
| Fake.FakeReply | src/fake.rs:85-162 | an answer, when there is one, goes to the packet's destination address with type 2, on port 7778 for a fetch and on port 3333 for a set |
| Fake.FakePacketSender.constructor | src/fake.rs:60-65 | the fake speaker starts not playing, on a socket map whose channels are distinct |
| Fake.FakePacketSender.Reply | src/fake.rs:78-83 | a reply is queued on the channel of its destination port and no other queue changes; any channel filed now that was not filed before is new |
| Fake.FakePacketSender.SendPacket | src/fake.rs:85-162 | the queues change by exactly the reply `FakeReply` gives, `playing` becomes `NextPlaying`, the whole datagram's length is returned, and only new channels are added, so another send can follow |
| Fake.FakePacketSender.AnswerFetch | src/fake.rs:90-113 | the fetch arm queues exactly the answer `FetchReply` gives, adding only new channels |
| Fake.FakePacketSender.AnswerPlayControl | src/fake.rs:128-154 | the play-control arm updates the state first and then notifies the new state, adding only new channels |
| Fake.FetchNameAndVolume | src/fake.rs:85-113 | two sends in one session, a name fetch and then a volume fetch, queue their two answers in that order and leave `playing` alone |
| Fake.ReplyArms | src/fake.rs:88-127 | fetches are answered by `FetchReply`, a volume set is echoed as notification 64 with its own payload, and any other packet but a play-control set gets no answer; none of these changes `playing` |
| Fake.PlayControlReply | src/fake.rs:128-154 | a play-control set is answered on port 3333 by notification 51 carrying 48 when the new state is playing and 49 otherwise |
| Fake.OtherPacketsIgnored | src/fake.rs:88-158 | any other type and command gets no answer and leaves `playing` unchanged |
| Fake.Follow | src/fake.rs:135-140 | only the fake's own words `PLAY`, `PAUSE`, `STOP` and `TOGGL` can change the playing state |
| Fake.FakeWordsSpelled | src/fake.rs:136-138 | the fake's four words are the capital-letter texts `PLAY`, `PAUSE`, `STOP` and `TOGGL` |
| Fake.NextPlaying | src/fake.rs:128-140 | only a play-control set can change the playing state |
| Fake.FollowWord | src/fake.rs:135-140 | the client's words for the four controls are the fake's own words, so the word of `Play` sets playing, those of `Pause` and `Stop` clear it, that of `Toggle` flips it, and every other control's word leaves it |
| Fake.PlayControlSetEffect | src/fake.rs:128-140 | the client's set packet for any control changes the fake's playing state by that control's effect |
| Fake.ToggleTwice | src/fake.rs:139 | toggling twice restores the playing state |
| Fake.PlayNotificationReportsState | src/fake.rs:128-154 | the play-control answer goes to port 3333 with command 51, and its one byte decodes to Play when now playing and to Stop otherwise |
| Fake.VolumeSetEchoed | src/fake.rs:117-127 | a volume set is echoed to port 3333 as notification 64 with the identical payload |
| Fake.FetchNameAnswer | src/fake.rs:91-100 | the name fetch is answered on port 7778 with id 90, and the payload reads as the name "Pretty name" |
| Fake.FakeVolumeIsDecimal | src/fake.rs:102-112 | the fake's volume text "35" is exactly what the client writes for volume 35 |
| Fake.FetchVolumeAnswer | src/fake.rs:102-112 | the volume fetch is answered on port 7778 with id 64, and the payload decodes to 35 |
| UiAppState.Label | src/ui/appstate.rs:15-17 | the label is the name when there is one, and the id otherwise |
| UiAppState.FromDevice | src/ui/appstate.rs:20-29 | the conversion keeps the id and the name, shows the address as text, and leaves the volume unknown |
| UiAppState.FromDeviceLabel | src/ui/appstate.rs:15-29 | a converted device is labelled by the registry's name once known, by its id before |
| UiAppState.Upsert | src/ui/appstate.rs:43-45 | after an upsert the record is filed under its id and every other entry is unchanged |
| UiAppState.UpsertIdempotent | src/ui/appstate.rs:43-45 | upserting twice is upserting once |
| UiAppState.Modify | src/ui/appstate.rs:47-50 | the keys are unchanged; a present id's entry becomes f of it; every other entry is unchanged |
| UiAppState.ModifyAbsent | src/ui/appstate.rs:47-50 | modifying an absent id leaves the map as it was and inserts nothing |
| UiAppState.AppState.constructor | src/ui/appstate.rs:53-57 | the state holds the given route and devices |
| UiAppState.AppState.CurrentDeviceId | src/ui/appstate.rs:64-69 | the current id is present iff a device page is shown, and then is that page's id |
| UiAppState.AppState.ShowDevice | src/ui/appstate.rs:60-62 | after showing a device, its page is shown and it is the current device |
| UiAppState.AppState.UpsertDevice | src/ui/appstate.rs:43-45 | the state's map is upserted |
| UiAppState.AppState.ModifyDevice | src/ui/appstate.rs:47-50 | the state's map is modified |
| UiDelegate.SetVolumeEffect | src/ui/delegate.rs:17-21 | a volume command sets the volume of that device only if it exists, changes no other entry and inserts nothing |
| UiDelegate.Command | src/ui/delegate.rs:9-29 | a device page or the list changes only the route; a volume or device update changes only the map, by modify or upsert; any other command is not handled and changes nothing |

## Left out

- Threads and locking are not modelled: the supervisor and worker threads, and the `Arc`/`Mutex` wrapping. Each registry operation is one sequential method on one object.
- Real sockets and multicast discovery (`RealNetworkImpl`, `SSDPDiscovery`, the `UdpSocket` sender and receiver) are not modelled. A send is an outbox append whose success is a parameter.
- `mpsc` channels are reduced to a listener identity and a liveness flag that the environment gives. The blocking `recv` of `FakePacketReceiver` and the sleeping thread of `FakeDeviceDiscovery` are left out.
- The HTTP parser (including its 16-header cap), JSON decoding, `IpAddr` parsing and formatting are function parameters and are not modelled further. The lossy UTF-8 conversion is the identity on bytes: invalid UTF-8 is not replaced.
- The debug formatting helpers (`format`, `format_reply`, `format_notification`) and the `println!` logging are left out. They are for logging only.
- The `Capabilities`, `PowerMode` and `FirmwareUpdate` decoders and `PlayInfo`'s JSON are not modelled. Only their ids are in the command table.
- The widget code, the selectors in `src/ui/commands.rs`, `ui/src/delegate.rs`, `src/fake/device.rs` and the entry points are not part of this model.
- Devices.Device: a device updated through `&mut` inside the map is modelled as a new value that replaces the old one in the map.
- Devices.DeviceManagerData.HandleIncomingPacket: the source takes the first device in hash order at the sender's address. The model takes some such device and reports which one in a ghost result.
- Devices.DeviceManager.FetchInfo: the network's behaviour is reduced to how many sends it accepts before the first refusal. A send that is refused ends the run, as in the source, so nothing beyond that count is observable.
- Devices.ExtraCommands: the reply ids and the commands that this version of the command table does not define are parameters, with no values of their own.
- Commands.MarshalVolume, Commands.SetPacket: the source panics when asked to marshal a volume above 100. The model makes `volume <= 100` a precondition instead, so the panic itself is not modelled.
- Fake.FakePacketSender.SendPacket: the sender's `Result` error path is not modelled, because the fake never fails; a missing play-control payload is a precondition, since the source panics there.
