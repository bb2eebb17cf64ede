/**
 * The fake network used to run the client without speakers: a map from
 * port to an in-memory socket, and a packet sender that answers a few
 * commands the way a speaker would, remembering whether it is playing.
 */
module Fake {
  import opened Wrappers
  import opened Bytes
  import opened Protocol
  import opened Commands

  /** What a fake socket carries: the address a packet was sent to, and the packet. */
  datatype Message = Message(to: SocketAddr, packet: Packet)

  /**
   * A fake socket: the two halves of one channel. The model keeps the
   * messages sent into it and not yet received.
   */
  class Channel {
    var queue: seq<Message>

    constructor ()
      ensures queue == []
    {
      queue := [];
    }

    method Send(m: Message)
      modifies this
      ensures queue == old(queue) + [m]
    {
      queue := queue + [m];
    }
  }

  /** The queues a map of channels holds, by port. */
  function Enqueue(queues: map<U16, seq<Message>>, port: U16, m: Message): (r: map<U16, seq<Message>>)
    ensures r.Keys == queues.Keys + {port}
    ensures r[port] == (if port in queues then queues[port] else []) + [m]
    ensures forall q | q in queues && q != port :: r[q] == queues[q]
  {
    queues[port := (if port in queues then queues[port] else []) + [m]]
  }

  /** `FakeSocketMap`: one channel per port, created the first time the port is asked for. */
  class FakeSocketMap {
    var sockets: map<U16, Channel>

    /** No two ports share a channel. */
    ghost predicate Valid()
      reads this
    {
      forall p, q | p in sockets && q in sockets && p != q :: sockets[p] != sockets[q]
    }

    /** Every channel filed now was filed before or has been made since. */
    twostate predicate Grown()
      reads this
    {
      forall c | c in sockets.Values :: c in old(sockets.Values) || fresh(c)
    }

    ghost function Queues(): map<U16, seq<Message>>
      reads this, sockets.Values
    {
      map p | p in sockets :: sockets[p].queue
    }

    constructor ()
      ensures Valid() && sockets == map[]
    {
      sockets := map[];
    }

    /**
     * `entry(port).or_insert_with(..)`: the port's channel, made and filed
     * only when the port has none.
     */
    method Entry(port: U16) returns (c: Channel)
      requires Valid()
      modifies this
      ensures Valid()
      ensures port in old(sockets) ==> c == old(sockets)[port] && sockets == old(sockets)
      ensures port !in old(sockets) ==> fresh(c) && c.queue == [] && sockets == old(sockets)[port := c]
    {
      if port in sockets {
        c := sockets[port];
      } else {
        c := new Channel();
        sockets := sockets[port := c];
      }
    }

    /** `sender`: the sending half of the port's channel. */
    method Sender(port: U16) returns (c: Channel)
      requires Valid()
      modifies this
      ensures Valid()
      ensures port in old(sockets) ==> c == old(sockets)[port] && sockets == old(sockets)
      ensures port !in old(sockets) ==> fresh(c) && c.queue == [] && sockets == old(sockets)[port := c]
    {
      c := Entry(port);
    }

    /** `receiver`: the receiving half of the same channel. */
    method Receiver(port: U16) returns (c: Channel)
      requires Valid()
      modifies this
      ensures Valid()
      ensures port in old(sockets) ==> c == old(sockets)[port] && sockets == old(sockets)
      ensures port !in old(sockets) ==> fresh(c) && c.queue == [] && sockets == old(sockets)[port := c]
    {
      c := Entry(port);
    }
  }

  /** The name the fake speaker reports. */
  const PrettyName: Text := Ascii("Pretty name")
  /** The volume the fake speaker reports. */
  const FakeVolume: Text := Ascii("35")

  /** A set of the play control; the fake panics when such a packet has no payload. */
  predicate PlayControlSet(p: Packet) {
    p.commandType == CommandTypeSet && p.command == Ids(PlayControl).setId
  }

  /** The words the fake speaker acts on, as it spells them: `PLAY`, `PAUSE`, `STOP` and `TOGGL`. */
  const FakePlay: Text := [80, 76, 65, 89]
  const FakePause: Text := [80, 65, 85, 83, 69]
  const FakeStop: Text := [83, 84, 79, 80]
  const FakeToggle: Text := [84, 79, 71, 71, 76]

  /** The fake's words are the capital-letter words `PLAY`, `PAUSE`, `STOP` and `TOGGL`. */
  lemma FakeWordsSpelled()
    ensures FakePlay == Capitals("PLAY") && FakePause == Capitals("PAUSE")
    ensures FakeStop == Capitals("STOP") && FakeToggle == Capitals("TOGGL")
  {
  }

  /**
   * The playing state after a play-control word: `PLAY` starts, `PAUSE` or
   * `STOP` stops, `TOGGL` flips; any other word leaves it.
   */
  function Follow(playing: bool, word: Text): (r: bool)
    ensures r != playing ==>
              || word == FakePlay || word == FakePause
              || word == FakeStop || word == FakeToggle
  {
    if word == FakePlay then true
    else if word == FakePause || word == FakeStop then false
    else if word == FakeToggle then !playing
    else playing
  }

  /** The playing state after a packet: only a play-control set changes it. */
  function NextPlaying(playing: bool, p: Packet): (r: bool)
    requires PlayControlSet(p) ==> p.commandData.Some?
    ensures r != playing ==> PlayControlSet(p)
  {
    if PlayControlSet(p) then Follow(playing, p.commandData.value) else playing
  }

  /** The answer to a fetch of `command`: the fake's name or volume, as a set to the response port. */
  function FetchReply(command: U16, to: SocketAddr): (r: Option<Message>)
    ensures r.Some? ==> r.value.to == SocketAddr(to.ip, CmdRespPort) && r.value.packet.commandType == CommandTypeSet
  {
    if command == Ids(DeviceName).getId then
      Some(Message(SocketAddr(to.ip, CmdRespPort), Packet(CommandTypeSet, Ids(DeviceName).setId, Some(PrettyName))))
    else if command == Ids(Volume).getId then
      Some(Message(SocketAddr(to.ip, CmdRespPort), Packet(CommandTypeSet, Ids(Volume).setId, Some(FakeVolume))))
    else None
  }

  /**
   * The fake speaker's answer to a packet sent to `to`, as the message put
   * in the channel of the answer's port: name and volume fetches are
   * answered on the command reply port, volume and play-control sets by a
   * notification on the notification port.
   */
  function FakeReply(playing: bool, p: Packet, to: SocketAddr): (r: Option<Message>)
    requires PlayControlSet(p) ==> p.commandData.Some?
    ensures r.Some? ==> r.value.to.ip == to.ip && r.value.packet.commandType == CommandTypeSet
    ensures r.Some? ==> r.value.to.port == (if p.commandType == CommandTypeFetch then CmdRespPort else NotifRecvPort)
  {
    if p.commandType == CommandTypeFetch then FetchReply(p.command, to)
    else if p.commandType == CommandTypeSet then
      if p.command == Ids(Volume).setId then
        Some(Message(SocketAddr(to.ip, NotifRecvPort), Packet(CommandTypeSet, Ids(Volume).notifyId, p.commandData)))
      else if p.command == Ids(PlayControl).setId then
        var data: Byte := if NextPlaying(playing, p) then 48 else 49;
        Some(Message(SocketAddr(to.ip, NotifRecvPort), Packet(CommandTypeSet, Ids(PlayControl).notifyId, Some([data]))))
      else None
    else None
  }

  /** `FakePacketSender`: answers through `replySenders`; `playing` is the speaker's one bit of state. */
  class FakePacketSender {
    const replySenders: FakeSocketMap
    var playing: bool

    ghost predicate Valid()
      reads this, replySenders
    {
      replySenders.Valid()
    }

    constructor (replySenders: FakeSocketMap)
      requires replySenders.Valid()
      ensures Valid()
      ensures this.replySenders == replySenders && !playing
    {
      this.replySenders := replySenders;
      playing := false;
    }

    /** `reply`: puts the message in the channel of the destination's port. */
    method Reply(to: SocketAddr, p: Packet)
      requires Valid()
      modifies replySenders, replySenders.sockets.Values
      ensures Valid()
      ensures replySenders.Queues() == Enqueue(old(replySenders.Queues()), to.port, Message(to, p))
      ensures replySenders.Grown()
    {
      var c := replySenders.Sender(to.port);
      c.Send(Message(to, p));
    }

    /**
     * `send_packet`: answers as `FakeReply` says, updates `playing` as
     * `NextPlaying` says, and reports the whole datagram as sent.
     */
    method SendPacket(p: Packet, to: SocketAddr) returns (n: nat)
      requires Valid()
      requires PlayControlSet(p) ==> p.commandData.Some?
      modifies this`playing, replySenders, replySenders.sockets.Values
      ensures Valid()
      ensures n == |Data(p)|
      ensures playing == NextPlaying(old(playing), p)
      ensures replySenders.Queues() == Answer(old(replySenders.Queues()), FakeReply(old(playing), p, to))
      ensures replySenders.Grown()
    {
      ReplyArms(playing, p, to);
      if p.commandType == CommandTypeFetch {
        AnswerFetch(p, to);
      } else if p.commandType == CommandTypeSet {
        if p.command == Ids(Volume).setId {
          Reply(SocketAddr(to.ip, NotifRecvPort), Packet(CommandTypeSet, Ids(Volume).notifyId, p.commandData));
        } else if p.command == Ids(PlayControl).setId {
          AnswerPlayControl(p, to);
        }
      }
      n := |Data(p)|;
    }

    /** The fetch arm of `send_packet`. */
    method AnswerFetch(p: Packet, to: SocketAddr)
      requires Valid()
      modifies replySenders, replySenders.sockets.Values
      ensures Valid()
      ensures replySenders.Queues() == Answer(old(replySenders.Queues()), FetchReply(p.command, to))
      ensures replySenders.Grown()
    {
      // The name fetch is answered with the fake's name, the volume fetch with its volume.
      var answer := FetchReply(p.command, to);
      if answer.Some? {
        Reply(answer.value.to, answer.value.packet);
      }
    }

    /** The play-control arm of `send_packet`: update the state, then notify it. */
    method AnswerPlayControl(p: Packet, to: SocketAddr)
      requires Valid() && PlayControlSet(p) && p.commandData.Some?
      modifies this`playing, replySenders, replySenders.sockets.Values
      ensures Valid()
      ensures playing == NextPlaying(old(playing), p)
      ensures replySenders.Queues() == Answer(old(replySenders.Queues()), FakeReply(old(playing), p, to))
      ensures replySenders.Grown()
    {
      playing := Follow(playing, p.commandData.value);
      var nowPlaying := playing;
      var notification: Byte := if nowPlaying then 48 else 49;
      PlayControlReply(old(playing), p, to);
      Reply(SocketAddr(to.ip, NotifRecvPort), Packet(CommandTypeSet, Ids(PlayControl).notifyId, Some([notification])));
    }
  }

  /**
   * A session of two sends to one fake speaker, a name fetch and then a
   * volume fetch: each is answered on the command reply port in turn, and
   * the speaker's state is left alone.
   */
  method FetchNameAndVolume(s: FakePacketSender, to: SocketAddr)
    requires s.Valid()
    modifies s, s.replySenders, s.replySenders.sockets.Values
    ensures s.Valid() && s.playing == old(s.playing)
    ensures s.replySenders.Queues()
            == Answer(Answer(old(s.replySenders.Queues()), FetchReply(Ids(DeviceName).getId, to)),
                      FetchReply(Ids(Volume).getId, to))
  {
    var _ := s.SendPacket(FetchPacket(Ids(DeviceName)), to);
    var _ := s.SendPacket(FetchPacket(Ids(Volume)), to);
  }

  /** The queues after an answer, if any, has been put in its port's channel. */
  function Answer(queues: map<U16, seq<Message>>, reply: Option<Message>): map<U16, seq<Message>> {
    match reply
    case None => queues
    case Some(m) => Enqueue(queues, m.to.port, m)
  }

  /** The answer to each packet that is not a play-control set; none of them changes the playing state. */
  lemma ReplyArms(playing: bool, p: Packet, to: SocketAddr)
    requires PlayControlSet(p) ==> p.commandData.Some?
    ensures !PlayControlSet(p) ==> NextPlaying(playing, p) == playing
    ensures p.commandType == CommandTypeFetch ==> FakeReply(playing, p, to) == FetchReply(p.command, to)
    ensures p.commandType == CommandTypeSet && p.command == Ids(Volume).setId ==>
              FakeReply(playing, p, to)
              == Some(Message(SocketAddr(to.ip, NotifRecvPort), Packet(CommandTypeSet, Ids(Volume).notifyId, p.commandData)))
    ensures p.commandType != CommandTypeFetch && !PlayControlSet(p) && !(p.commandType == CommandTypeSet && p.command == Ids(Volume).setId) ==>
              FakeReply(playing, p, to) == None
  {
  }

  /** A play-control set is answered by the notification of the state it leads to. */
  lemma PlayControlReply(playing: bool, p: Packet, to: SocketAddr)
    requires PlayControlSet(p) && p.commandData.Some?
    ensures var data: Byte := if NextPlaying(playing, p) then 48 else 49;
            FakeReply(playing, p, to)
            == Some(Message(SocketAddr(to.ip, NotifRecvPort), Packet(CommandTypeSet, Ids(PlayControl).notifyId, Some([data]))))
  {
  }

  /** The four packets the fake answers. */
  predicate Answered(p: Packet) {
    || (p.commandType == CommandTypeFetch && (p.command == Ids(DeviceName).getId || p.command == Ids(Volume).getId))
    || (p.commandType == CommandTypeSet && (p.command == Ids(Volume).setId || p.command == Ids(PlayControl).setId))
  }

  /** Any other packet is not answered and leaves the playing state alone. */
  lemma OtherPacketsIgnored(playing: bool, p: Packet, to: SocketAddr)
    requires !Answered(p)
    ensures FakeReply(playing, p, to).None?
    ensures NextPlaying(playing, p) == playing
  {
  }

  /** What a control word does to the playing state. */
  function Effect(playing: bool, c: PlayControlCommand): bool {
    match c
    case Play => true
    case Pause => false
    case Stop => false
    case Toggle => !playing
    case _ => playing
  }

  /**
   * Each control's word sets the state as its name says: `PLAY` starts,
   * `PAUSE` and `STOP` stop, `TOGGL` flips, and the other words leave it.
   */
  lemma FollowWord(playing: bool, c: PlayControlCommand)
    ensures Follow(playing, MarshalPlayControl(c)) == Effect(playing, c)
  {
    // The client spells the four controls the fake acts on as the fake does.
    FakeWordsSpelled();
    assert FakePlay == MarshalPlayControl(Play) && FakePause == MarshalPlayControl(Pause);
    assert FakeStop == MarshalPlayControl(Stop) && FakeToggle == MarshalPlayControl(Toggle);
    if c != Play {
      MarshalPlayControlInjective(c, Play);
      if c != Pause {
        MarshalPlayControlInjective(c, Pause);
        if c != Stop {
          MarshalPlayControlInjective(c, Stop);
          if c != Toggle {
            MarshalPlayControlInjective(c, Toggle);
          }
        }
      }
    }
  }

  /** The set packet of a control changes the fake's state by that control's effect. */
  lemma PlayControlSetEffect(playing: bool, c: PlayControlCommand)
    ensures NextPlaying(playing, SetPacket(PlayControlRequest(c))) == Effect(playing, c)
  {
    FollowWord(playing, c);
  }

  /** Toggling twice gives back the state toggling started from. */
  lemma ToggleTwice(playing: bool)
    ensures var t := SetPacket(PlayControlRequest(Toggle));
            NextPlaying(NextPlaying(playing, t), t) == playing
  {
    PlayControlSetEffect(playing, Toggle);
    PlayControlSetEffect(!playing, Toggle);
  }

  /**
   * The notification answering a play-control set reports the new state
   * the way a speaker does: read back, it is `Play` when playing and
   * `Stop` otherwise.
   */
  lemma PlayNotificationReportsState(playing: bool, p: Packet, to: SocketAddr)
    requires PlayControlSet(p) && p.commandData.Some?
    ensures FakeReply(playing, p, to).Some?
    ensures var m := FakeReply(playing, p, to).value;
            && m.to == SocketAddr(to.ip, NotifRecvPort)
            && m.packet.command == Ids(PlayControl).notifyId
            && m.packet.commandData.Some?
            && UnmarshalPlayControl(m.packet.commandData.value) == Ok(if NextPlaying(playing, p) then Play else Stop)
  {
  }

  /** A volume set is echoed, unchanged, as a volume notification. */
  lemma VolumeSetEchoed(playing: bool, v: Byte, to: SocketAddr)
    requires v <= 100
    ensures FakeReply(playing, SetPacket(VolumeRequest(v)), to)
            == Some(Message(SocketAddr(to.ip, NotifRecvPort), Packet(CommandTypeSet, 64, Some(MarshalVolume(v)))))
  {
  }

  /** The name fetch is answered on the reply port with the name "Pretty name". */
  lemma FetchNameAnswer(playing: bool, to: SocketAddr)
    ensures var name := FakeReply(playing, FetchPacket(Ids(DeviceName)), to);
            && name.Some? && name.value.to == SocketAddr(to.ip, CmdRespPort)
            && name.value.packet.command == 90
            && UnmarshalDeviceName(name.value.packet.commandData.value) == Ok(PrettyName)
  {
  }

  /** The reported volume is the decimal text of 35. */
  lemma FakeVolumeIsDecimal()
    ensures FakeVolume == MarshalVolume(35)
  {
    assert Decimal(35) == Decimal(3) + Ascii("5");
  }

  /** The volume fetch is answered on the reply port with a payload that reads as 35. */
  lemma FetchVolumeAnswer(playing: bool, to: SocketAddr)
    ensures var volume := FakeReply(playing, FetchPacket(Ids(Volume)), to);
            && volume.Some? && volume.value.to == SocketAddr(to.ip, CmdRespPort)
            && volume.value.packet.command == 64
            && UnmarshalVolume(volume.value.packet.commandData.value) == Ok(35)
  {
    assert FakeReply(playing, FetchPacket(Ids(Volume)), to)
           == Some(Message(SocketAddr(to.ip, CmdRespPort), Packet(CommandTypeSet, 64, Some(FakeVolume))));
    FakeVolumeIsDecimal();
    VolumeRoundTrip(35);
  }
}
