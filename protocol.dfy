/** The KNXnet/IP tunnelling exchange of one invocation, as values: the
    endpoint strings the client parses, the decoded frames the gateway sends
    back, the datagrams the client sends, and the transcript (datagrams sent
    plus how the run ends) that the code produces for a given sequence of
    gateway replies. `AsWritten` is the transcript of the code as it stands;
    `Corrected` is the transcript once its two defects are repaired. */
module Protocol {
  import opened Common
  import opened PyText
  import opened Commands

  /** An (ip, port) pair, as built from an "ip:port" string. */
  datatype Endpoint = Endpoint(ip: string, port: int)

  /** The text between the first ':' and the next one (or the end). */
  function PortText(s: string): string
    requires ':' in s
  {
    var rest := s[IndexOf(s, ':') + 1..];
    if ':' in rest then rest[..IndexOf(rest, ':')] else rest
  }

  /** `s.split(':')`, then piece 0 as the ip and `int` of piece 1 as the port.
      A string without ':' has no piece 1 (IndexError); a piece 1 that is not
      an integer raises ValueError; pieces after the second are ignored. */
  function ParseEndpoint(s: string): (r: Result<Endpoint, PyError>)
    ensures r == Failure(IndexError) <==> ':' !in s
    ensures r == Failure(ValueError) <==> ':' in s && ParseInt(PortText(s)).None?
    ensures r.Failure? ==> r.error == IndexError || r.error == ValueError
    ensures r.Success? ==>
      var ip := r.value.ip;
      |ip| < |s| && s[..|ip|] == ip && s[|ip|] == ':' && ':' !in ip
    ensures r.Success? ==> r.value.port == ParseInt(PortText(s)).value
  {
    var pieces := Split(s, ':');
    if |pieces| < 2 then Failure(IndexError)
    else
      var rest := s[IndexOf(s, ':') + 1..];
      SplitHead(rest, ':');
      assert pieces[1] == PortText(s);
      match ParseInt(pieces[1])
      case None => Failure(ValueError)
      case Some(port) => Success(Endpoint(pieces[0], port))
  }

  /** Formatting an endpoint as "ip:port" and parsing it gives it back. */
  lemma EndpointRoundTrip(ip: string, port: int)
    requires ':' !in ip
    ensures ParseEndpoint(ip + ":" + IntToString(port)) == Success(Endpoint(ip, port))
  {
    var p := IntToString(port);
    NoColonInIntToString(port);
    assert ip + ":" + p == ip + [':'] + p;
    SplitAtFirst(ip, ':', p);
    ParseIntOfIntToString(port);
  }

  /** Only the first two pieces are read: "ip:port:anything" parses as "ip:port". */
  lemma EndpointIgnoresExtraPieces(ip: string, port: string, rest: string)
    requires ':' !in ip && ':' !in port
    ensures ParseEndpoint(ip + ":" + port + ":" + rest) == ParseEndpoint(ip + ":" + port)
  {
    var tail := port + [':'] + rest;
    var long, short := ip + [':'] + tail, ip + [':'] + port;
    assert ip + ":" + port + ":" + rest == long;
    assert ip + ":" + port == short;
    SplitAtFirst(ip, ':', tail);
    SplitAtFirst(port, ':', rest);
    SplitAtFirst(ip, ':', port);
    SameFirstPieces(long, short);
  }

  /** The parse reads nothing but the first two pieces. */
  lemma SameFirstPieces(s1: string, s2: string)
    requires |Split(s1, ':')| >= 2 && |Split(s2, ':')| >= 2
    requires Split(s1, ':')[..2] == Split(s2, ':')[..2]
    ensures ParseEndpoint(s1) == ParseEndpoint(s2)
  {
    assert Split(s1, ':')[1] == Split(s2, ':')[1];
    assert Split(s1, ':')[0] == Split(s2, ':')[0];
  }

  /** The two endpoints, once the port and both endpoint strings parsed. */
  datatype Endpoints = Endpoints(control: Endpoint, data: Endpoint)

  /** The argument conversions that precede any I/O: `int(gateway_port)`,
      then the control endpoint, then the data endpoint. */
  function Setup(gatewayPort: string, controlEndpoint: string, dataEndpoint: string): (r: Result<Endpoints, PyError>)
    ensures r.Success? <==>
      ParseInt(gatewayPort).Some? && ParseEndpoint(controlEndpoint).Success? && ParseEndpoint(dataEndpoint).Success?
    ensures r.Success? ==>
      r.value == Endpoints(ParseEndpoint(controlEndpoint).value, ParseEndpoint(dataEndpoint).value)
    ensures ParseInt(gatewayPort).None? ==> r == Failure(ValueError)
    ensures ParseInt(gatewayPort).Some? && ParseEndpoint(controlEndpoint).Failure? ==>
      r == Failure(ParseEndpoint(controlEndpoint).error)
    ensures ParseInt(gatewayPort).Some? && ParseEndpoint(controlEndpoint).Success? &&
            ParseEndpoint(dataEndpoint).Failure? ==>
      r == Failure(ParseEndpoint(dataEndpoint).error)
  {
    if ParseInt(gatewayPort).None? then Failure(ValueError)
    else
      match ParseEndpoint(controlEndpoint)
      case Failure(e) => Failure(e)
      case Success(control) =>
        match ParseEndpoint(dataEndpoint)
        case Failure(e) => Failure(e)
        case Success(data) => Success(Endpoints(control, data))
  }

  /** The default endpoint string parses to 127.0.0.1:3672. */
  lemma DefaultEndpoint()
    ensures ParseEndpoint("127.0.0.1:3672") == Success(Endpoint("127.0.0.1", 3672))
  {
    assert IntToString(3672) == "3672";
    EndpointRoundTrip("127.0.0.1", 3672);
    assert "127.0.0.1" + ":" + "3672" == "127.0.0.1:3672";
  }

  /** The default arguments parse to 127.0.0.1:3672 for both endpoints. */
  lemma DefaultSetup()
    ensures Setup("3671", "127.0.0.1:3672", "127.0.0.1:3672") ==
      Success(Endpoints(Endpoint("127.0.0.1", 3672), Endpoint("127.0.0.1", 3672)))
  {
    DefaultEndpoint();
    DefaultGatewayPort();
  }

  /** The default gateway port string parses to 3671. */
  lemma DefaultGatewayPort()
    ensures ParseInt("3671") == Some(3671)
  {
    ParseIntOfIntToString(3671);
    assert IntToString(3671) == "3671";
  }

  /** A gateway reply, already decoded: the fields the client reads. */
  datatype Frame = Frame(
    channelId: int,
    status: int,
    dataService: int,        // cEMI message code of a tunnelled frame
    destAddr: GroupAddress,
    dataSize: int,
    apci: int,
    data: int)

  /** cEMI message code L_Data.con: the gateway's confirmation of a frame. */
  const LDataCon: int := 0x2E

  /** A datagram the client sends to the gateway (before encoding). */
  datatype Datagram =
    | ConnectionRequest(control: Endpoint, data: Endpoint)
    | ConnectionStateRequest(channelId: int, control: Endpoint)
    | TunnellingRequest(dest: GroupAddress, channelId: int, payloadData: int, size: int, apci: int)
    | TunnellingAck(channelId: int, status: int)
    | DisconnectRequest(channelId: int, control: Endpoint)

  /** The second component of the `(status, reply)` pair the function returns. */
  datatype Reply = Text(text: string) | Reading(value: int)

  /** How one run of `send_knx_request` ends. */
  datatype Outcome =
    | Exit1                          // `exit(1)` after a non-zero status
    | Returned(ok: bool, reply: Reply)
    | Crashed(error: PyError)        // an uncaught exception
    | Blocked                        // waiting forever for a reply that never comes

  /** Everything observable about one run. */
  datatype Transcript = Transcript(sent: seq<Datagram>, outcome: Outcome)

  const DataServiceError: string := "Error : data service"
  const CorrelationError: string := "Error"

  /** The tunnelling request for the resolved command on a channel: it
      carries the payload's data byte, and an echo confirms it exactly when
      the echo repeats its destination, channel, size and APCI. */
  function TunnelRequest(dest: GroupAddress, payload: Payload, channelId: int): (d: Datagram)
    ensures d.TunnellingRequest? && d.payloadData == payload.data
    ensures forall echo: Frame :: Correlates(d, echo) <==>
      && echo.destAddr == dest
      && echo.channelId == channelId
      && echo.dataSize == payload.size
      && echo.apci == payload.apci
  {
    TunnellingRequest(dest, channelId, payload.data, payload.size, payload.apci)
  }

  /** Python's `&` on two booleans: the bitwise and of their values 1 and 0,
      with both operands evaluated. */
  function BitAnd(a: bool, b: bool): (r: bool)
    ensures r <==> a && b
  {
    var x: bv1 := if a then 1 else 0;
    var y: bv1 := if b then 1 else 0;
    x & y == 1
  }

  /** The code's comparison of the echo with the request sent: the four
      equalities joined by `&`, tested against `False`. It holds exactly when
      destination, channel, data size and APCI all agree. */
  function Correlates(request: Datagram, echo: Frame): (matches: bool)
    requires request.TunnellingRequest?
    ensures matches <==>
      && request.dest == echo.destAddr
      && request.channelId == echo.channelId
      && request.size == echo.dataSize
      && request.apci == echo.apci
  {
    var conjunction :=
      BitAnd(BitAnd(BitAnd(request.dest == echo.destAddr, request.channelId == echo.channelId),
                    request.size == echo.dataSize),
             request.apci == echo.apci);
    !(conjunction == false)
  }

  /** The first `n` replies all carry status 0. */
  predicate StatusesOk(replies: seq<Frame>, n: nat)
    requires n <= |replies|
  {
    forall k | 0 <= k < n :: replies[k].status == 0
  }

  /** The echo (the fourth reply) passes both checks of the code. */
  predicate EchoAccepted(dest: GroupAddress, payload: Payload, replies: seq<Frame>)
    requires |replies| >= 4
  {
    replies[3].dataService == LDataCon &&
    Correlates(TunnelRequest(dest, payload, replies[0].channelId), replies[3])
  }

  /** The transcript of `send_knx_request` as written, once the endpoints are
      parsed, for the gateway replies `replies` (in arrival order). */
  function AsWritten(dest: GroupAddress, payload: Payload, control: Endpoint, data: Endpoint,
                     replies: seq<Frame>): (r: Transcript)
    // at most three datagrams: the connection request, the same connection
    // request again at the state check, and the tunnelling request
    ensures 1 <= |r.sent| <= 3
    ensures forall k | 0 <= k < |r.sent| && k < 2 :: r.sent[k] == ConnectionRequest(control, data)
    ensures |r.sent| == 3 ==>
      |replies| >= 2 && r.sent[2] == TunnelRequest(dest, payload, replies[0].channelId)
    // no acknowledgement, no disconnect request, and no successful return, ever
    ensures forall k | 0 <= k < |r.sent| :: !r.sent[k].TunnellingAck? && !r.sent[k].DisconnectRequest?
    ensures !(r.outcome.Returned? && r.outcome.ok)
    // a non-zero status ends the run at once with exit code 1
    ensures |replies| >= 1 && replies[0].status != 0 ==>
      r == Transcript([ConnectionRequest(control, data)], Exit1)
    ensures |replies| >= 2 && replies[0].status == 0 && replies[1].status != 0 ==>
      r == Transcript([ConnectionRequest(control, data), ConnectionRequest(control, data)], Exit1)
    ensures |replies| >= 3 && StatusesOk(replies, 2) && replies[2].status != 0 ==>
      r == Transcript([ConnectionRequest(control, data), ConnectionRequest(control, data),
                       TunnelRequest(dest, payload, replies[0].channelId)], Exit1)
    ensures r.outcome == Exit1 <==> !StatusesOk(replies, if |replies| < 3 then |replies| else 3)
    // the run blocks exactly when the replies run out with every status 0
    ensures r.outcome == Blocked <==> |replies| < 4 && StatusesOk(replies, |replies|)
    // the echo checks: data service first, then the four-field correlation
    ensures r.outcome == Returned(false, Text(DataServiceError)) <==>
      |replies| >= 4 && StatusesOk(replies, 3) && replies[3].dataService != LDataCon
    ensures r.outcome == Returned(false, Text(CorrelationError)) <==>
      |replies| >= 4 && StatusesOk(replies, 3) && replies[3].dataService == LDataCon &&
      !Correlates(TunnelRequest(dest, payload, replies[0].channelId), replies[3])
    // an accepted echo reaches the acknowledgement, where `tun_ack` is unbound
    ensures r.outcome == Crashed(NameError) <==>
      |replies| >= 4 && StatusesOk(replies, 3) && EchoAccepted(dest, payload, replies)
  {
    var cr := ConnectionRequest(control, data);
    if |replies| < 1 then Transcript([cr], Blocked)
    else if replies[0].status != 0 then Transcript([cr], Exit1)
    else if |replies| < 2 then Transcript([cr, cr], Blocked)
    else if replies[1].status != 0 then Transcript([cr, cr], Exit1)
    else
      var tr := TunnelRequest(dest, payload, replies[0].channelId);
      var trace := [cr, cr, tr];
      if |replies| < 3 then Transcript(trace, Blocked)
      else if replies[2].status != 0 then Transcript(trace, Exit1)
      else if |replies| < 4 then Transcript(trace, Blocked)
      else if replies[3].dataService != LDataCon then Transcript(trace, Returned(false, Text(DataServiceError)))
      else if !Correlates(tr, replies[3]) then Transcript(trace, Returned(false, Text(CorrelationError)))
      else Transcript(trace, Crashed(NameError))
  }

  /** The transcript once the two defects are repaired: the state check sends
      the connection-state request, and the accepted echo is acknowledged,
      followed by the disconnect exchange and a successful return carrying the
      echoed data. Every other branch is the code's. */
  function Corrected(dest: GroupAddress, payload: Payload, control: Endpoint, data: Endpoint,
                     replies: seq<Frame>): (r: Transcript)
    ensures 1 <= |r.sent| <= 5
    ensures r.sent[0] == ConnectionRequest(control, data)
    // every datagram after the connection request carries the channel of the
    // connection response, except the disconnect request, which carries the
    // channel of the connection-state response
    ensures |r.sent| >= 2 ==>
      |replies| >= 1 && r.sent[1] == ConnectionStateRequest(replies[0].channelId, control)
    ensures |r.sent| >= 3 ==>
      |replies| >= 2 && r.sent[2] == TunnelRequest(dest, payload, replies[0].channelId)
    ensures |r.sent| >= 4 ==>
      && |r.sent| == 5 && |replies| >= 4
      && r.sent[3] == TunnellingAck(replies[0].channelId, 0)
      && r.sent[4] == DisconnectRequest(replies[1].channelId, control)
    // the channel is released exactly when the echo was accepted
    ensures |r.sent| == 5 <==> |replies| >= 4 && StatusesOk(replies, 3) && EchoAccepted(dest, payload, replies)
    // success exactly when every step succeeds, with the echoed data as reply
    ensures r.outcome.Returned? && r.outcome.ok <==>
      |replies| >= 5 && StatusesOk(replies, 3) && EchoAccepted(dest, payload, replies) && replies[4].status == 0
    ensures r.outcome.Returned? && r.outcome.ok ==>
      |replies| >= 4 && r.outcome.reply == Reading(replies[3].data)
    ensures !r.outcome.Crashed?
  {
    var cr := ConnectionRequest(control, data);
    if |replies| < 1 then Transcript([cr], Blocked)
    else if replies[0].status != 0 then Transcript([cr], Exit1)
    else
      var csr := ConnectionStateRequest(replies[0].channelId, control);
      if |replies| < 2 then Transcript([cr, csr], Blocked)
      else if replies[1].status != 0 then Transcript([cr, csr], Exit1)
      else
        var tr := TunnelRequest(dest, payload, replies[0].channelId);
        var trace := [cr, csr, tr];
        if |replies| < 3 then Transcript(trace, Blocked)
        else if replies[2].status != 0 then Transcript(trace, Exit1)
        else if |replies| < 4 then Transcript(trace, Blocked)
        else if replies[3].dataService != LDataCon then Transcript(trace, Returned(false, Text(DataServiceError)))
        else if !Correlates(tr, replies[3]) then Transcript(trace, Returned(false, Text(CorrelationError)))
        else
          var full := trace + [TunnellingAck(replies[0].channelId, replies[2].status),
                               DisconnectRequest(replies[1].channelId, control)];
          if |replies| < 5 then Transcript(full, Blocked)
          else if replies[4].status != 0 then Transcript(full, Exit1)
          else Transcript(full, Returned(true, Reading(replies[3].data)))
  }

  /** The repair changes nothing but the second datagram and what follows an
      accepted echo: the two transcripts agree at every other position, and
      on the outcome of every run whose echo is not accepted. */
  lemma CorrectionIsLocal(dest: GroupAddress, payload: Payload, control: Endpoint, data: Endpoint,
                          replies: seq<Frame>)
    ensures var w, c := AsWritten(dest, payload, control, data, replies),
                        Corrected(dest, payload, control, data, replies);
      && |w.sent| <= |c.sent|
      && (forall k | 0 <= k < |w.sent| && k != 1 :: c.sent[k] == w.sent[k])
      && (w.outcome != Crashed(NameError) ==> c.outcome == w.outcome && |c.sent| == |w.sent|)
      && (w.outcome == Crashed(NameError) ==> |c.sent| == 5)
  {
  }

  /** As written, the state check resends the connection request: for any
      accepted connection, the second datagram is not a connection-state
      request. */
  lemma StateCheckResendsConnectionRequest(dest: GroupAddress, payload: Payload, control: Endpoint,
                                           data: Endpoint, replies: seq<Frame>)
    requires |replies| >= 1 && replies[0].status == 0
    ensures var w := AsWritten(dest, payload, control, data, replies);
      |w.sent| >= 2 && w.sent[1] == ConnectionRequest(control, data) && !w.sent[1].ConnectionStateRequest?
  {
  }

  /** As written, a gateway that answers every step with status 0 and echoes
      the request exactly makes the run crash with NameError, after sending
      neither the acknowledgement nor the disconnect request. */
  lemma AcceptedEchoCrashes(dest: GroupAddress, payload: Payload, control: Endpoint, data: Endpoint,
                            channel: int, more: seq<Frame>)
    ensures var ok := Frame(channel, 0, 0, dest, 0, 0, 0);
      var echo := Frame(channel, 0, LDataCon, dest, payload.size, payload.apci, payload.data);
      var w := AsWritten(dest, payload, control, data, [ok, ok, ok, echo] + more);
      && w.outcome == Crashed(NameError)
      && |w.sent| == 3
  {
  }

  /** The whole run as written: the argument conversions, then the exchange. */
  function Expected(dest: GroupAddress, payload: Payload, gatewayPort: string,
                    controlEndpoint: string, dataEndpoint: string, replies: seq<Frame>): (r: Transcript)
    ensures r.sent == [] <==> Setup(gatewayPort, controlEndpoint, dataEndpoint).Failure?
    ensures r.sent == [] ==> r.outcome == Crashed(Setup(gatewayPort, controlEndpoint, dataEndpoint).error)
    ensures !(r.outcome.Returned? && r.outcome.ok)
  {
    match Setup(gatewayPort, controlEndpoint, dataEndpoint)
    case Failure(e) => Transcript([], Crashed(e))
    case Success(ends) => AsWritten(dest, payload, ends.control, ends.data, replies)
  }

  /** The whole run with the two defects repaired. */
  function ExpectedCorrected(dest: GroupAddress, payload: Payload, gatewayPort: string,
                             controlEndpoint: string, dataEndpoint: string, replies: seq<Frame>): (r: Transcript)
    ensures r.sent == [] <==> Setup(gatewayPort, controlEndpoint, dataEndpoint).Failure?
    ensures r.sent == [] ==> r.outcome == Crashed(Setup(gatewayPort, controlEndpoint, dataEndpoint).error)
    ensures r.sent != [] ==> !r.outcome.Crashed?
  {
    match Setup(gatewayPort, controlEndpoint, dataEndpoint)
    case Failure(e) => Transcript([], Crashed(e))
    case Success(ends) => Corrected(dest, payload, ends.control, ends.data, replies)
  }
}
