/**
 * The parser of a device's discovery announcement, an HTTP-like `NOTIFY`
 * message whose headers carry the device's identity and address.
 *
 * Splitting the text into method, path and headers is done by an HTTP
 * library; here it is the parameter `httpParse`. Turning an address text
 * into an `IpAddr` is the standard library's and is the parameter `parseIp`.
 */
module Discovery {
  import opened Wrappers
  import opened Bytes
  import opened Protocol

  datatype DiscoveryReply = DiscoveryReply(
    deviceName: Text,
    deviceId: Text,
    deviceState: Text,
    port: U16,
    zoneId: Text,
    creator: Text,
    ipAddress: IpAddr,
    colorCode: Text,
    firmwareVersion: Text,
    stereoPairId: Text)

  datatype Header = Header(name: string, value: Text)

  /** What the HTTP library reports: method and path when it found them, and the headers in order. */
  datatype HttpRequest = HttpRequest(verb: Option<string>, path: Option<string>, headers: seq<Header>)

  datatype ReplyError =
    | HttpParseError
    | UnexpectedMethod(found: Option<string>)
    | UnexpectedPath(foundPath: Option<string>)
    | InvalidPortNumber
    | InvalidIpAddress
    | MissingHeader(name: string)

  /** Devices put a space before the first line break, which the HTTP library refuses. */
  const BrokenNotifyPrefix: Text := Ascii("NOTIFY * HTTP/1.1 \r\n")
  const FixedNotifyPrefix: Text := Ascii("NOTIFY * HTTP/1.1\r\n")

  predicate StartsWith(s: Text, prefix: Text) {
    |prefix| <= |s| && s[..|prefix|] == prefix
  }

  /** Drops the stray space of a broken first line, and leaves every other input alone. */
  function FixPrefix(input: Text): (r: Text)
    ensures StartsWith(input, BrokenNotifyPrefix) ==>
              r == FixedNotifyPrefix + input[|BrokenNotifyPrefix|..] && |r| == |input| - 1
    ensures !StartsWith(input, BrokenNotifyPrefix) ==> r == input
  {
    if StartsWith(input, BrokenNotifyPrefix) then FixedNotifyPrefix + input[|BrokenNotifyPrefix|..] else input
  }

  /** A broken announcement is the fixed first line followed by the rest, untouched. */
  lemma FixPrefixOfBroken(rest: Text)
    ensures FixPrefix(BrokenNotifyPrefix + rest) == FixedNotifyPrefix + rest
  {
    var s := BrokenNotifyPrefix + rest;
    assert s[..|BrokenNotifyPrefix|] == BrokenNotifyPrefix;
    assert s[|BrokenNotifyPrefix|..] == rest;
  }

  /** The ten headers the parser reads. */
  const KnownNames: seq<string> := ["DeviceName", "DeviceID", "DeviceState", "PORT", "ZoneID",
                                    "Creator", "IPAddr", "ColorCode", "FWVersion", "StereoPairID"]

  /** The value of the last header called `name`, if there is one. */
  function LastValue(headers: seq<Header>, name: string): (r: Option<Text>)
    ensures headers == [] ==> r.None?
    ensures headers != [] && headers[|headers| - 1].name == name ==> r == Some(headers[|headers| - 1].value)
  {
    if headers == [] then None
    else if headers[|headers| - 1].name == name then Some(headers[|headers| - 1].value)
    else LastValue(headers[..|headers| - 1], name)
  }

  /**
   * `LastValue` is what its name says: nothing when no header has the name,
   * otherwise the value of a header with that name after which no header
   * has it.
   */
  lemma {:induction false} LastValueIsLast(headers: seq<Header>, name: string)
    ensures LastValue(headers, name).None? <==> forall i | 0 <= i < |headers| :: headers[i].name != name
    ensures LastValue(headers, name).Some? ==> exists i | 0 <= i < |headers| ::
              && headers[i].name == name && headers[i].value == LastValue(headers, name).value
              && forall j | i < j < |headers| :: headers[j].name != name
  {
    if headers != [] && headers[|headers| - 1].name != name {
      var init := headers[..|headers| - 1];
      LastValueIsLast(init, name);
      assert forall j | 0 <= j < |init| :: init[j] == headers[j];
      if LastValue(init, name).Some? {
        var i :| 0 <= i < |init| && init[i].name == name && init[i].value == LastValue(init, name).value
                 && forall j | i < j < |init| :: init[j].name != name;
        assert headers[i] == init[i];
      }
    }
  }

  /** A `PORT` value must read as a `u16`. */
  function ParsePort(v: Text): Option<U16> {
    match ParseUnsigned(v, 0xffff)
    case Some(n) => Some(n)
    case None => None
  }

  /** The error a single header raises: a `PORT` or `IPAddr` whose value does not parse. */
  function HeaderError(h: Header, parseIp: Text -> Option<IpAddr>): Option<ReplyError> {
    if h.name == "PORT" && ParsePort(h.value).None? then Some(InvalidPortNumber)
    else if h.name == "IPAddr" && parseIp(h.value).None? then Some(InvalidIpAddress)
    else None
  }

  /** The error of the first header, in order, that raises one. */
  function FirstError(headers: seq<Header>, parseIp: Text -> Option<IpAddr>): (r: Option<ReplyError>)
    ensures r.Some? ==> r.value == InvalidPortNumber || r.value == InvalidIpAddress
  {
    if headers == [] then None
    else if HeaderError(headers[0], parseIp).Some? then HeaderError(headers[0], parseIp)
    else FirstError(headers[1..], parseIp)
  }

  /** The ten optional values the loop over the headers collects. */
  datatype Fields = Fields(
    deviceName: Option<Text>,
    deviceId: Option<Text>,
    deviceState: Option<Text>,
    port: Option<U16>,
    zoneId: Option<Text>,
    creator: Option<Text>,
    ipAddress: Option<IpAddr>,
    colorCode: Option<Text>,
    firmwareVersion: Option<Text>,
    stereoPairId: Option<Text>)

  function PortOf(v: Option<Text>): Option<U16> {
    if v.Some? then ParsePort(v.value) else None
  }

  function IpOf(v: Option<Text>, parseIp: Text -> Option<IpAddr>): Option<IpAddr> {
    if v.Some? then parseIp(v.value) else None
  }

  /**
   * What reading the headers in order produces: the first bad `PORT` or
   * `IPAddr` value fails the whole read; otherwise each field holds the
   * value of the last header of its name, and other headers play no part.
   */
  function HeaderFields(headers: seq<Header>, parseIp: Text -> Option<IpAddr>): (r: Result<Fields, ReplyError>)
    ensures r.Err? <==> FirstError(headers, parseIp).Some?
    ensures r.Err? ==> r.error == InvalidPortNumber || r.error == InvalidIpAddress
  {
    match FirstError(headers, parseIp)
    case Some(e) => Err(e)
    case None => Ok(Fields(
      LastValue(headers, "DeviceName"),
      LastValue(headers, "DeviceID"),
      LastValue(headers, "DeviceState"),
      PortOf(LastValue(headers, "PORT")),
      LastValue(headers, "ZoneID"),
      LastValue(headers, "Creator"),
      IpOf(LastValue(headers, "IPAddr"), parseIp),
      LastValue(headers, "ColorCode"),
      LastValue(headers, "FWVersion"),
      LastValue(headers, "StereoPairID")))
  }

  predicate Complete(f: Fields) {
    && f.deviceName.Some? && f.deviceId.Some? && f.deviceState.Some? && f.port.Some?
    && f.zoneId.Some? && f.creator.Some? && f.ipAddress.Some? && f.colorCode.Some?
    && f.firmwareVersion.Some? && f.stereoPairId.Some?
  }

  /** Whether the value of `KnownNames[i]` was seen. */
  function SeenAt(f: Fields, i: nat): bool
    requires i < |KnownNames|
  {
    if i == 0 then f.deviceName.Some?
    else if i == 1 then f.deviceId.Some?
    else if i == 2 then f.deviceState.Some?
    else if i == 3 then f.port.Some?
    else if i == 4 then f.zoneId.Some?
    else if i == 5 then f.creator.Some?
    else if i == 6 then f.ipAddress.Some?
    else if i == 7 then f.colorCode.Some?
    else if i == 8 then f.firmwareVersion.Some?
    else f.stereoPairId.Some?
  }

  /**
   * The position, from `i` on, of the first known header whose value was
   * not seen, or the number of known headers when every one was seen.
   */
  function FirstMissing(f: Fields, i: nat): (k: nat)
    requires i <= |KnownNames|
    ensures i <= k <= |KnownNames|
    ensures forall j | i <= j < k :: SeenAt(f, j)
    ensures k < |KnownNames| ==> !SeenAt(f, k)
    decreases |KnownNames| - i
  {
    if i == |KnownNames| || !SeenAt(f, i) then i else FirstMissing(f, i + 1)
  }

  /** An unseen value with only seen ones before it is the first missing. */
  lemma FirstMissingAt(f: Fields, k: nat)
    requires k < |KnownNames| && !SeenAt(f, k) && forall j | 0 <= j < k :: SeenAt(f, j)
    ensures FirstMissing(f, 0) == k
  {
  }

  /** The final check: every one of the ten values must have been seen. */
  function Assemble(f: Fields): (r: Result<DiscoveryReply, ReplyError>)
    ensures r.Ok? <==> Complete(f)
    ensures r.Ok? ==> r.value == DiscoveryReply(
              f.deviceName.value, f.deviceId.value, f.deviceState.value, f.port.value, f.zoneId.value,
              f.creator.value, f.ipAddress.value, f.colorCode.value, f.firmwareVersion.value, f.stereoPairId.value)
    ensures r.Err? ==> r.error.MissingHeader? && r.error.name in KnownNames
  {
    if f.deviceName.None? then Err(MissingHeader("DeviceName"))
    else if f.deviceId.None? then Err(MissingHeader("DeviceID"))
    else if f.deviceState.None? then Err(MissingHeader("DeviceState"))
    else if f.port.None? then Err(MissingHeader("PORT"))
    else if f.zoneId.None? then Err(MissingHeader("ZoneID"))
    else if f.creator.None? then Err(MissingHeader("Creator"))
    else if f.ipAddress.None? then Err(MissingHeader("IPAddr"))
    else if f.colorCode.None? then Err(MissingHeader("ColorCode"))
    else if f.firmwareVersion.None? then Err(MissingHeader("FWVersion"))
    else if f.stereoPairId.None? then Err(MissingHeader("StereoPairID"))
    else Ok(DiscoveryReply(
      f.deviceName.value, f.deviceId.value, f.deviceState.value, f.port.value, f.zoneId.value,
      f.creator.value, f.ipAddress.value, f.colorCode.value, f.firmwareVersion.value, f.stereoPairId.value))
  }

  /** The header `Assemble` reports missing is the first absent one, in the order the source checks them. */
  lemma AssembleReportsFirstMissing(f: Fields)
    ensures Assemble(f).Err? ==>
              FirstMissing(f, 0) < |KnownNames| && Assemble(f) == Err(MissingHeader(KnownNames[FirstMissing(f, 0)]))
  {
    if f.deviceName.None? { FirstMissingAt(f, 0); }
    else if f.deviceId.None? { FirstMissingAt(f, 1); }
    else if f.deviceState.None? { FirstMissingAt(f, 2); }
    else if f.port.None? { FirstMissingAt(f, 3); }
    else if f.zoneId.None? { FirstMissingAt(f, 4); }
    else if f.creator.None? { FirstMissingAt(f, 5); }
    else if f.ipAddress.None? { FirstMissingAt(f, 6); }
    else if f.colorCode.None? { FirstMissingAt(f, 7); }
    else if f.firmwareVersion.None? { FirstMissingAt(f, 8); }
    else if f.stereoPairId.None? { FirstMissingAt(f, 9); }
  }

  /** Everything after the HTTP library has split the message: method, path, headers, final check. */
  function Interpret(req: HttpRequest, parseIp: Text -> Option<IpAddr>): (r: Result<DiscoveryReply, ReplyError>)
    ensures req.verb != Some("NOTIFY") ==> r == Err(UnexpectedMethod(req.verb))
    ensures req.verb == Some("NOTIFY") && req.path != Some("*") ==> r == Err(UnexpectedPath(req.path))
    ensures r.Ok? ==>
              && Some(r.value.deviceName) == LastValue(req.headers, "DeviceName")
              && Some(r.value.deviceId) == LastValue(req.headers, "DeviceID")
              && Some(r.value.deviceState) == LastValue(req.headers, "DeviceState")
              && Some(r.value.port) == PortOf(LastValue(req.headers, "PORT"))
              && Some(r.value.zoneId) == LastValue(req.headers, "ZoneID")
              && Some(r.value.creator) == LastValue(req.headers, "Creator")
              && Some(r.value.ipAddress) == IpOf(LastValue(req.headers, "IPAddr"), parseIp)
              && Some(r.value.colorCode) == LastValue(req.headers, "ColorCode")
              && Some(r.value.firmwareVersion) == LastValue(req.headers, "FWVersion")
              && Some(r.value.stereoPairId) == LastValue(req.headers, "StereoPairID")
  {
    if req.verb != Some("NOTIFY") then Err(UnexpectedMethod(req.verb))
    else if req.path != Some("*") then Err(UnexpectedPath(req.path))
    else match HeaderFields(req.headers, parseIp)
      case Err(e) => Err(e)
      case Ok(f) => Assemble(f)
  }

  lemma {:induction false} FirstErrorAt(headers: seq<Header>, parseIp: Text -> Option<IpAddr>, i: nat)
    requires i < |headers| && HeaderError(headers[i], parseIp).Some?
    requires forall j | 0 <= j < i :: HeaderError(headers[j], parseIp).None?
    ensures FirstError(headers, parseIp) == HeaderError(headers[i], parseIp)
  {
    if i > 0 {
      FirstErrorAt(headers[1..], parseIp, i - 1);
    }
  }

  lemma {:induction false} NoFirstError(headers: seq<Header>, parseIp: Text -> Option<IpAddr>)
    requires forall j | 0 <= j < |headers| :: HeaderError(headers[j], parseIp).None?
    ensures FirstError(headers, parseIp).None?
  {
    if headers != [] {
      NoFirstError(headers[1..], parseIp);
    }
  }

  /** A header whose name is not one of the ten leaves every value alone. */
  lemma {:induction false} LastValueSkipsOther(h1: seq<Header>, u: Header, h2: seq<Header>, name: string)
    requires u.name != name
    ensures LastValue(h1 + [u] + h2, name) == LastValue(h1 + h2, name)
    decreases |h2|
  {
    if h2 == [] {
      assert h1 + [u] + h2 == h1 + [u] && (h1 + [u])[..|h1|] == h1;
      assert h1 + h2 == h1;
    } else {
      var init := h2[..|h2| - 1];
      assert (h1 + [u] + h2)[..|h1 + [u] + h2| - 1] == h1 + [u] + init;
      assert (h1 + h2)[..|h1 + h2| - 1] == h1 + init;
      LastValueSkipsOther(h1, u, init, name);
    }
  }

  lemma {:induction false} FirstErrorSkipsOther(h1: seq<Header>, u: Header, h2: seq<Header>, parseIp: Text -> Option<IpAddr>)
    requires HeaderError(u, parseIp).None?
    ensures FirstError(h1 + [u] + h2, parseIp) == FirstError(h1 + h2, parseIp)
    decreases |h1|
  {
    if h1 == [] {
      assert h1 + [u] + h2 == [u] + h2 && ([u] + h2)[1..] == h2;
      assert h1 + h2 == h2;
    } else {
      assert (h1 + [u] + h2)[1..] == h1[1..] + [u] + h2;
      assert (h1 + h2)[1..] == h1[1..] + h2;
      FirstErrorSkipsOther(h1[1..], u, h2, parseIp);
    }
  }

  /** Headers with names other than the ten known ones do not affect the result. */
  lemma UnknownHeaderIgnored(req: HttpRequest, i: nat, parseIp: Text -> Option<IpAddr>)
    requires i < |req.headers| && req.headers[i].name !in KnownNames
    ensures Interpret(req, parseIp)
            == Interpret(req.(headers := req.headers[..i] + req.headers[i + 1..]), parseIp)
  {
    var h1, u, h2 := req.headers[..i], req.headers[i], req.headers[i + 1..];
    assert req.headers == h1 + [u] + h2;
    FirstErrorSkipsOther(h1, u, h2, parseIp);
    LastValueSkipsOther(h1, u, h2, "DeviceName");
    LastValueSkipsOther(h1, u, h2, "DeviceID");
    LastValueSkipsOther(h1, u, h2, "DeviceState");
    LastValueSkipsOther(h1, u, h2, "PORT");
    LastValueSkipsOther(h1, u, h2, "ZoneID");
    LastValueSkipsOther(h1, u, h2, "Creator");
    LastValueSkipsOther(h1, u, h2, "IPAddr");
    LastValueSkipsOther(h1, u, h2, "ColorCode");
    LastValueSkipsOther(h1, u, h2, "FWVersion");
    LastValueSkipsOther(h1, u, h2, "StereoPairID");
    assert HeaderFields(req.headers, parseIp) == HeaderFields(h1 + h2, parseIp);
  }

  /**
   * A header that repeats a known name overrides every earlier one: adding
   * it at the end sets that value and no other.
   */
  lemma LaterHeaderWins(headers: seq<Header>, h: Header, name: string)
    ensures LastValue(headers + [h], name) == if h.name == name then Some(h.value) else LastValue(headers, name)
  {
    assert (headers + [h])[..|headers|] == headers;
  }

  /** A bad `PORT` or `IPAddr` value fails the whole parse, however good the other headers are. */
  lemma {:induction false} SomeFirstError(headers: seq<Header>, parseIp: Text -> Option<IpAddr>, i: nat)
    requires i < |headers| && HeaderError(headers[i], parseIp).Some?
    ensures FirstError(headers, parseIp) == Some(InvalidPortNumber)
            || FirstError(headers, parseIp) == Some(InvalidIpAddress)
  {
    if HeaderError(headers[0], parseIp).None? {
      SomeFirstError(headers[1..], parseIp, i - 1);
    }
  }

  lemma BadPortFails(req: HttpRequest, parseIp: Text -> Option<IpAddr>, i: nat)
    requires req.verb == Some("NOTIFY") && req.path == Some("*")
    requires i < |req.headers| && req.headers[i].name == "PORT" && ParsePort(req.headers[i].value).None?
    ensures Interpret(req, parseIp) == Err(InvalidPortNumber) || Interpret(req, parseIp) == Err(InvalidIpAddress)
  {
    SomeFirstError(req.headers, parseIp, i);
  }

  /** A missing known header fails the parse. */
  lemma MissingHeaderFails(req: HttpRequest, parseIp: Text -> Option<IpAddr>, name: string)
    requires name in KnownNames
    requires forall i | 0 <= i < |req.headers| :: req.headers[i].name != name
    ensures Interpret(req, parseIp).Err?
  {
    LastValueIsLast(req.headers, name);
  }

  /** Conversely, with the right method and path, all ten headers present and all values readable, the parse succeeds. */
  lemma CompleteSucceeds(req: HttpRequest, parseIp: Text -> Option<IpAddr>)
    requires req.verb == Some("NOTIFY") && req.path == Some("*")
    requires forall i | 0 <= i < |req.headers| :: HeaderError(req.headers[i], parseIp).None?
    requires forall name | name in KnownNames :: exists i | 0 <= i < |req.headers| :: req.headers[i].name == name
    ensures Interpret(req, parseIp).Ok?
  {
    var hs := req.headers;
    NoFirstError(hs, parseIp);
    forall name | name in KnownNames
      ensures LastValue(hs, name).Some?
    {
      LastValueIsLast(hs, name);
    }
    LastValueIsLast(hs, "PORT");
    var i :| 0 <= i < |hs| && hs[i].name == "PORT" && hs[i].value == LastValue(hs, "PORT").value;
    assert HeaderError(hs[i], parseIp).None?;
    LastValueIsLast(hs, "IPAddr");
    var j :| 0 <= j < |hs| && hs[j].name == "IPAddr" && hs[j].value == LastValue(hs, "IPAddr").value;
    assert HeaderError(hs[j], parseIp).None?;
  }

  /**
   * The headers of an announcement for `r` in the order the speakers send
   * them: the transport headers `HOST`, `PROTOCOL` and `NTS` first, each
   * with its own value, then the ten known ones, the port written in
   * decimal and the address as `ipText`.
   */
  function Announcement(r: DiscoveryReply, ipText: Text, host: Text, protocol: Text, nts: Text): seq<Header> {
    [ Header("HOST", host),
      Header("PROTOCOL", protocol),
      Header("NTS", nts),
      Header("DeviceName", r.deviceName),
      Header("DeviceID", r.deviceId),
      Header("DeviceState", r.deviceState),
      Header("PORT", Decimal(r.port)),
      Header("ZoneID", r.zoneId),
      Header("Creator", r.creator),
      Header("IPAddr", ipText),
      Header("ColorCode", r.colorCode),
      Header("FWVersion", r.firmwareVersion),
      Header("StereoPairID", r.stereoPairId) ]
  }

  /** The header at `k` is the last one called `name`, so its value is the one kept. */
  lemma {:induction false} LastValueAt(headers: seq<Header>, name: string, k: nat)
    requires k < |headers| && headers[k].name == name
    requires forall j | k < j < |headers| :: headers[j].name != name
    ensures LastValue(headers, name) == Some(headers[k].value)
  {
    if k < |headers| - 1 {
      var init := headers[..|headers| - 1];
      assert init[k] == headers[k];
      assert forall j | k < j < |init| :: init[j] == headers[j];
      LastValueAt(init, name, k);
    }
  }

  lemma AnnouncementNoError(r: DiscoveryReply, ipText: Text, host: Text, protocol: Text, nts: Text, parseIp: Text -> Option<IpAddr>)
    requires parseIp(ipText) == Some(r.ipAddress)
    ensures FirstError(Announcement(r, ipText, host, protocol, nts), parseIp).None?
  {
    var hs := Announcement(r, ipText, host, protocol, nts);
    ParseDecimal(r.port, 0xffff);
    assert forall j | 0 <= j < |hs| :: HeaderError(hs[j], parseIp).None?;
    NoFirstError(hs, parseIp);
  }

  lemma AnnouncementIdentity(r: DiscoveryReply, ipText: Text, host: Text, protocol: Text, nts: Text)
    ensures var hs := Announcement(r, ipText, host, protocol, nts);
            && LastValue(hs, "DeviceName") == Some(r.deviceName)
            && LastValue(hs, "DeviceID") == Some(r.deviceId)
            && LastValue(hs, "DeviceState") == Some(r.deviceState)
            && LastValue(hs, "PORT") == Some(Decimal(r.port))
            && LastValue(hs, "ZoneID") == Some(r.zoneId)
  {
    var hs := Announcement(r, ipText, host, protocol, nts);
    LastValueAt(hs, "DeviceName", 3);
    LastValueAt(hs, "DeviceID", 4);
    LastValueAt(hs, "DeviceState", 5);
    LastValueAt(hs, "PORT", 6);
    LastValueAt(hs, "ZoneID", 7);
  }

  lemma AnnouncementDetails(r: DiscoveryReply, ipText: Text, host: Text, protocol: Text, nts: Text)
    ensures var hs := Announcement(r, ipText, host, protocol, nts);
            && LastValue(hs, "Creator") == Some(r.creator)
            && LastValue(hs, "IPAddr") == Some(ipText)
            && LastValue(hs, "ColorCode") == Some(r.colorCode)
            && LastValue(hs, "FWVersion") == Some(r.firmwareVersion)
            && LastValue(hs, "StereoPairID") == Some(r.stereoPairId)
  {
    var hs := Announcement(r, ipText, host, protocol, nts);
    LastValueAt(hs, "Creator", 8);
    LastValueAt(hs, "IPAddr", 9);
    LastValueAt(hs, "ColorCode", 10);
    LastValueAt(hs, "FWVersion", 11);
    LastValueAt(hs, "StereoPairID", 12);
  }

  /**
   * A well-formed announcement is read back as the record it announces,
   * whatever the transport headers say, provided the address text parses
   * to the announced address.
   */
  lemma AnnouncementRoundTrip(r: DiscoveryReply, ipText: Text, host: Text, protocol: Text, nts: Text, parseIp: Text -> Option<IpAddr>)
    requires parseIp(ipText) == Some(r.ipAddress)
    ensures Interpret(HttpRequest(Some("NOTIFY"), Some("*"), Announcement(r, ipText, host, protocol, nts)), parseIp) == Ok(r)
  {
    AnnouncementNoError(r, ipText, host, protocol, nts, parseIp);
    AnnouncementIdentity(r, ipText, host, protocol, nts);
    AnnouncementDetails(r, ipText, host, protocol, nts);
    ParseDecimal(r.port, 0xffff);
  }

  /**
   * `DiscoveryReply::parse`: repairs the first line, hands the text to the
   * HTTP library, checks method and path, folds the headers into the ten
   * values and fails unless all of them were seen.
   */
  method Parse(input: Text, httpParse: Text -> Result<HttpRequest, ()>, parseIp: Text -> Option<IpAddr>)
    returns (r: Result<DiscoveryReply, ReplyError>)
    ensures httpParse(FixPrefix(input)).Err? ==> r == Err(HttpParseError)
    ensures httpParse(FixPrefix(input)).Ok? ==> r == Interpret(httpParse(FixPrefix(input)).value, parseIp)
  {
    var fixed := FixPrefix(input);
    var parsed := httpParse(fixed);
    if parsed.Err? {
      return Err(HttpParseError);
    }
    var req := parsed.value;
    if req.verb != Some("NOTIFY") {
      return Err(UnexpectedMethod(req.verb));
    }
    if req.path != Some("*") {
      return Err(UnexpectedPath(req.path));
    }
    var fields := FoldHeaders(req.headers, parseIp);
    match fields
    case Err(e) => r := Err(e);
    case Ok(f) => r := Assemble(f);
  }

  /**
   * The loop over the headers: a known name overwrites its value, a `PORT`
   * or `IPAddr` value that does not parse returns the error at once, and
   * any other name is skipped.
   */
  method FoldHeaders(headers: seq<Header>, parseIp: Text -> Option<IpAddr>) returns (r: Result<Fields, ReplyError>)
    ensures r == HeaderFields(headers, parseIp)
  {
    var deviceName: Option<Text> := None;
    var deviceId: Option<Text> := None;
    var deviceState: Option<Text> := None;
    var port: Option<U16> := None;
    var zoneId: Option<Text> := None;
    var creator: Option<Text> := None;
    var ipAddress: Option<IpAddr> := None;
    var colorCode: Option<Text> := None;
    var firmwareVersion: Option<Text> := None;
    var stereoPairId: Option<Text> := None;

    var i := 0;
    while i < |headers|
      invariant 0 <= i <= |headers|
      invariant forall j | 0 <= j < i :: HeaderError(headers[j], parseIp).None?
      invariant deviceName == LastValue(headers[..i], "DeviceName")
      invariant deviceId == LastValue(headers[..i], "DeviceID")
      invariant deviceState == LastValue(headers[..i], "DeviceState")
      invariant port == PortOf(LastValue(headers[..i], "PORT"))
      invariant zoneId == LastValue(headers[..i], "ZoneID")
      invariant creator == LastValue(headers[..i], "Creator")
      invariant ipAddress == IpOf(LastValue(headers[..i], "IPAddr"), parseIp)
      invariant colorCode == LastValue(headers[..i], "ColorCode")
      invariant firmwareVersion == LastValue(headers[..i], "FWVersion")
      invariant stereoPairId == LastValue(headers[..i], "StereoPairID")
    {
      var header := headers[i];
      assert headers[..i + 1][..i] == headers[..i];
      if header.name == "DeviceName" {
        deviceName := Some(header.value);
      } else if header.name == "DeviceID" {
        deviceId := Some(header.value);
      } else if header.name == "DeviceState" {
        deviceState := Some(header.value);
      } else if header.name == "PORT" {
        var p := ParsePort(header.value);
        if p.None? {
          FirstErrorAt(headers, parseIp, i);
          return Err(InvalidPortNumber);
        }
        port := p;
      } else if header.name == "ZoneID" {
        zoneId := Some(header.value);
      } else if header.name == "Creator" {
        creator := Some(header.value);
      } else if header.name == "IPAddr" {
        var ip := parseIp(header.value);
        if ip.None? {
          FirstErrorAt(headers, parseIp, i);
          return Err(InvalidIpAddress);
        }
        ipAddress := ip;
      } else if header.name == "ColorCode" {
        colorCode := Some(header.value);
      } else if header.name == "FWVersion" {
        firmwareVersion := Some(header.value);
      } else if header.name == "StereoPairID" {
        stereoPairId := Some(header.value);
      }
      i := i + 1;
    }
    assert headers[..i] == headers;
    NoFirstError(headers, parseIp);
    r := Ok(Fields(deviceName, deviceId, deviceState, port, zoneId,
                   creator, ipAddress, colorCode, firmwareVersion, stereoPairId));
  }
}
