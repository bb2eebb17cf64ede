/**
 * The datagram codec: a packet is a 10-byte header followed by an optional
 * payload. Header layout, byte by byte:
 *   0-1  0xaa 0xaa
 *   2    command type (1 fetch, 2 set)
 *   3-4  command id, big-endian
 *   5    0x00
 *   6-7  0x12 0x34
 *   8-9  payload length, big-endian
 */
module Protocol {
  import opened Wrappers
  import opened Bytes

  /** The device listens for commands on this port. */
  const CmdSendPort: U16 := 7777
  /** Command replies come back to this port. */
  const CmdRespPort: U16 := 7778
  /** Notifications arrive on this port. */
  const NotifRecvPort: U16 := 3333
  /** Notifications are acknowledged to this port of the device. */
  const NotifAckPort: U16 := 3334

  const HeaderLen: nat := 10

  /** Rust's `IpAddr`; the model never looks inside one. */
  datatype IpAddr = V4(a: Byte, b: Byte, c: Byte, d: Byte) | V6(segments: seq<U16>)

  /** Rust's `SocketAddr`. */
  datatype SocketAddr = SocketAddr(ip: IpAddr, port: U16)

  datatype Packet = Packet(commandType: Byte, command: U16, commandData: Option<seq<Byte>>)

  datatype ParseError = PacketTooShort | IncorrectPacketLength

  function BigEndian(hi: Byte, lo: Byte): U16 {
    hi * 0x100 + lo
  }

  /** The payload length that a header of at least 10 bytes declares. */
  function DeclaredLength(data: seq<Byte>): U16
    requires |data| >= HeaderLen
  {
    BigEndian(data[8], data[9])
  }

  /**
   * `Packet::parse`: refuses a datagram shorter than the header, or one
   * whose declared payload length disagrees with what follows the header.
   * No marker byte is checked.
   */
  function Parse(data: seq<Byte>): (r: Result<Packet, ParseError>)
    ensures |data| < HeaderLen <==> r == Err(PacketTooShort)
    ensures r.Ok? <==> |data| >= HeaderLen && HeaderLen + DeclaredLength(data) == |data|
    ensures r.Ok? ==>
              && r.value.commandType == data[2]
              && r.value.command == BigEndian(data[3], data[4])
              && (r.value.commandData.None? <==> DeclaredLength(data) == 0)
              && (r.value.commandData.Some? ==> r.value.commandData.value == data[HeaderLen..])
  {
    if |data| < HeaderLen then
      Err(PacketTooShort)
    else
      var dataLen := DeclaredLength(data);
      if HeaderLen + dataLen != |data| then
        Err(IncorrectPacketLength)
      else
        var commandData := if dataLen > 0 then Some(data[HeaderLen..]) else None;
        Ok(Packet(data[2], BigEndian(data[3], data[4]), commandData))
  }

  /** The payload `Data` writes: nothing for `None`. */
  function Payload(p: Packet): seq<Byte> {
    if p.commandData.Some? then p.commandData.value else []
  }

  /**
   * `Packet::data`: the header, then the payload. The length field keeps
   * only the low 16 bits of the payload length (`& 0xff00`, `& 0xff`).
   */
  function Data(p: Packet): (r: seq<Byte>)
    ensures |r| == HeaderLen + |Payload(p)|
    ensures r[0] == 0xaa && r[1] == 0xaa
    ensures r[2] == p.commandType && BigEndian(r[3], r[4]) == p.command
    ensures r[5] == 0x00 && r[6] == 0x12 && r[7] == 0x34
    ensures DeclaredLength(r) == |Payload(p)| % 0x1_0000
    ensures r[HeaderLen..] == Payload(p)
  {
    var dataLen := |Payload(p)|;
    LowWord(dataLen);
    var header := [0xaa, 0xaa, p.commandType, p.command / 0x100, p.command % 0x100,
                   0x00, 0x12, 0x34, (dataLen / 0x100) % 0x100, dataLen % 0x100];
    header + Payload(p)
  }

  lemma LowWord(n: nat)
    ensures ((n / 0x100) % 0x100) * 0x100 + n % 0x100 == n % 0x1_0000
  {
    var q, lo := n / 0x100, n % 0x100;
    var t, hi := q / 0x100, q % 0x100;
    assert n == q * 0x100 + lo;
    assert q == t * 0x100 + hi;
    assert n == t * 0x1_0000 + (hi * 0x100 + lo);
    LowRemainder(n, t, hi * 0x100 + lo);
  }

  lemma LowRemainder(n: int, t: int, low: int)
    requires 0 <= low < 0x1_0000 && n == t * 0x1_0000 + low
    ensures n % 0x1_0000 == low
  {
  }

  /** What parsing gives back: an empty payload reads as no payload. */
  function Normalized(p: Packet): Packet {
    if p.commandData == Some([]) then p.(commandData := None) else p
  }

  /**
   * Decoding an encoded packet: the packet comes back (an empty payload as
   * no payload) when the payload fits the 16-bit length field; a longer
   * payload produces a datagram that `Parse` refuses.
   */
  lemma ParseData(p: Packet)
    ensures |Payload(p)| < 0x1_0000 ==> Parse(Data(p)) == Ok(Normalized(p))
    ensures |Payload(p)| >= 0x1_0000 ==> Parse(Data(p)) == Err(IncorrectPacketLength)
  {
    var r := Data(p);
    if |Payload(p)| < 0x1_0000 {
      assert DeclaredLength(r) == |Payload(p)|;
      assert r[HeaderLen..] == Payload(p);
    }
  }

  /** The round trip of the codec, for every packet it can carry unchanged. */
  lemma RoundTrip(p: Packet)
    requires p.commandData.None? || 0 < |p.commandData.value| < 0x1_0000
    ensures Parse(Data(p)) == Ok(p)
  {
    ParseData(p);
  }

  /** Bytes 0, 1, 5, 6 and 7 are never read: changing them changes nothing. */
  lemma ParseIgnoresUnreadBytes(a: seq<Byte>, b: seq<Byte>)
    requires |a| == |b|
    requires forall i | 0 <= i < |a| && i !in {0, 1, 5, 6, 7} :: a[i] == b[i]
    ensures Parse(a) == Parse(b)
  {
    if |a| >= HeaderLen {
      assert a[8] == b[8] && a[9] == b[9];
      assert a[2] == b[2] && a[3] == b[3] && a[4] == b[4];
      assert a[HeaderLen..] == b[HeaderLen..];
    }
  }

  /** The captured datagram from the repository's unit test. */
  lemma ParseSample()
    ensures Parse([0xaa, 0xaa, 0x02, 0x00, 0x0e, 0x01, 0x00, 0x00, 0x00, 0x01, 0x30])
            == Ok(Packet(2, 14, Some([0x30])))
  {
  }
}
