/** `send_knx_request` as the step-by-step procedure it is: a session object
    owns the socket (the datagrams sent so far and the gateway replies not yet
    received) and the variables the function reassigns from step to step. One
    method per protocol step; `SendKnxRequest` runs them in the code's order and
    is proved to produce the transcript `Protocol.Expected`. */
module Client {
  import opened Common
  import opened Commands
  import opened Protocol

  /** What one step leaves the procedure to do: go on, or finish this way. */
  datatype Step = Continue | Stop(outcome: Outcome)

  class Session {
    const dest: GroupAddress        // `dest_group_addr`
    const payload: Payload          // `data, data_size, apci`
    const control: Endpoint         // `control_endpoint`, parsed
    const dataEndpoint: Endpoint    // `data_endpoint`, parsed

    var sent: seq<Datagram>         // datagrams sent to the gateway, oldest first
    var pending: seq<Frame>         // gateway replies not yet received, in order
    var channelId: int              // `channel_id`
    var status: int                 // `status`
    var connChannel: int            // `conn_resp.channel_id`

    /** A fresh socket: nothing sent, every reply still to come. The three
        variables are unbound in the source until the connection response. */
    constructor (dest: GroupAddress, payload: Payload, control: Endpoint, dataEndpoint: Endpoint,
                 replies: seq<Frame>)
      ensures this.dest == dest && this.payload == payload
      ensures this.control == control && this.dataEndpoint == dataEndpoint
      ensures sent == [] && pending == replies
      ensures channelId == 0 && status == 0 && connChannel == 0
    {
      this.dest, this.payload := dest, payload;
      this.control, this.dataEndpoint := control, dataEndpoint;
      sent, pending := [], replies;
      channelId, status, connChannel := 0, 0, 0;
    }

    /** `sock.sendto(d.frame, gateway)`. */
    method Send(d: Datagram)
      modifies this`sent
      ensures sent == old(sent) + [d]
    {
      sent := sent + [d];
    }

    /** `sock.recvfrom(buf_size)` then `decode_frame`: the next reply, or None
        when the gateway has sent nothing more (the source then blocks). */
    method Receive() returns (reply: Option<Frame>)
      modifies this`pending
      ensures old(pending) == [] ==> reply == None && pending == []
      ensures old(pending) != [] ==> reply == Some(old(pending)[0]) && pending == old(pending)[1..]
    {
      if pending == [] {
        reply := None;
      } else {
        reply := Some(pending[0]);
        pending := pending[1..];
      }
    }

    /** Connect (lines 358-377): send CONNECTION_REQUEST, take channel and
        status from the CONNECTION_RESPONSE, exit 1 on a non-zero status. */
    method Connect() returns (step: Step)
      modifies this`sent, this`pending, this`channelId, this`status, this`connChannel
      ensures sent == old(sent) + [ConnectionRequest(control, dataEndpoint)]
      ensures old(pending) == [] ==>
        step == Stop(Blocked) && pending == [] &&
        channelId == old(channelId) && status == old(status) && connChannel == old(connChannel)
      ensures old(pending) != [] ==>
        var resp := old(pending)[0];
        && pending == old(pending)[1..]
        && channelId == resp.channelId && connChannel == resp.channelId && status == resp.status
        && step == if resp.status == 0 then Continue else Stop(Exit1)
    {
      Send(ConnectionRequest(control, dataEndpoint));
      var reply := Receive();
      if reply.None? {
        return Stop(Blocked);
      }
      var resp := reply.value;
      channelId := resp.channelId;
      connChannel := resp.channelId;
      status := resp.status;
      step := if status == 0 then Continue else Stop(Exit1);
    }

    /** State check as written (lines 382-400): the connection-state request
        is built but the connection request is the datagram sent; channel and
        status are overwritten from the reply; exit 1 on a non-zero status. */
    method CheckState() returns (step: Step)
      modifies this`sent, this`pending, this`channelId, this`status
      ensures sent == old(sent) + [ConnectionRequest(control, dataEndpoint)]
      ensures old(pending) == [] ==>
        step == Stop(Blocked) && pending == [] && channelId == old(channelId) && status == old(status)
      ensures old(pending) != [] ==>
        var resp := old(pending)[0];
        && pending == old(pending)[1..]
        && channelId == resp.channelId && status == resp.status
        && step == if resp.status == 0 then Continue else Stop(Exit1)
    {
      Send(ConnectionRequest(control, dataEndpoint));
      step := AwaitStateResponse();
    }

    /** State check with the connection-state request sent, carrying the
        current channel and the control endpoint. */
    method CheckStateCorrected() returns (step: Step)
      modifies this`sent, this`pending, this`channelId, this`status
      ensures sent == old(sent) + [ConnectionStateRequest(old(channelId), control)]
      ensures old(pending) == [] ==>
        step == Stop(Blocked) && pending == [] && channelId == old(channelId) && status == old(status)
      ensures old(pending) != [] ==>
        var resp := old(pending)[0];
        && pending == old(pending)[1..]
        && channelId == resp.channelId && status == resp.status
        && step == if resp.status == 0 then Continue else Stop(Exit1)
    {
      Send(ConnectionStateRequest(channelId, control));
      step := AwaitStateResponse();
    }

    /** The CONNECTION_STATE_RESPONSE half of the state check (lines 391-400). */
    method AwaitStateResponse() returns (step: Step)
      modifies this`pending, this`channelId, this`status
      ensures old(pending) == [] ==>
        step == Stop(Blocked) && pending == [] && channelId == old(channelId) && status == old(status)
      ensures old(pending) != [] ==>
        var resp := old(pending)[0];
        && pending == old(pending)[1..]
        && channelId == resp.channelId && status == resp.status
        && step == if resp.status == 0 then Continue else Stop(Exit1)
    {
      var reply := Receive();
      if reply.None? {
        return Stop(Blocked);
      }
      channelId := reply.value.channelId;
      status := reply.value.status;
      step := if status == 0 then Continue else Stop(Exit1);
    }

    /** Tunnel (lines 407-426): send the TUNNELLING_REQUEST on the channel of
        the connection response, take the status of the TUNNELLING_ACK, exit 1
        on a non-zero status. */
    method Tunnel() returns (step: Step)
      modifies this`sent, this`pending, this`status
      ensures sent == old(sent) + [TunnelRequest(dest, payload, connChannel)]
      ensures old(pending) == [] ==> step == Stop(Blocked) && pending == [] && status == old(status)
      ensures old(pending) != [] ==>
        && pending == old(pending)[1..]
        && status == old(pending)[0].status
        && step == if status == 0 then Continue else Stop(Exit1)
    {
      Send(TunnelRequest(dest, payload, connChannel));
      var reply := Receive();
      if reply.None? {
        return Stop(Blocked);
      }
      status := reply.value.status;
      step := if status == 0 then Continue else Stop(Exit1);
    }

    /** Echo check (lines 429-437): receive the echoed TUNNELLING_REQUEST;
        a data service other than L_Data.con, or any mismatch with the request
        sent, returns failure. Nothing is sent; `echoData` is the echo's data. */
    method CheckEcho() returns (step: Step, echoData: int)
      modifies this`pending
      ensures old(pending) == [] ==> step == Stop(Blocked) && pending == []
      ensures old(pending) != [] ==>
        var echo := old(pending)[0];
        && pending == old(pending)[1..]
        && echoData == echo.data
        && step == if echo.dataService != LDataCon then Stop(Returned(false, Text(DataServiceError)))
                   else if !Correlates(TunnelRequest(dest, payload, connChannel), echo)
                   then Stop(Returned(false, Text(CorrelationError)))
                   else Continue
    {
      var reply := Receive();
      if reply.None? {
        return Stop(Blocked), 0;
      }
      var echo := reply.value;
      echoData := echo.data;
      if echo.dataService != LDataCon {
        return Stop(Returned(false, Text(DataServiceError))), echoData;
      }
      if !Correlates(TunnelRequest(dest, payload, connChannel), echo) {
        return Stop(Returned(false, Text(CorrelationError))), echoData;
      }
      step := Continue;
    }

    /** Acknowledge the echo as written (lines 440-445): the ack is built
        under the name `tunneling_ack`, but `tun_ack.frame` is sent, and
        `tun_ack` is unbound. Nothing is sent. */
    method AcknowledgeEcho() returns (step: Step)
      ensures step == Stop(Crashed(NameError))
    {
      step := Stop(Crashed(NameError));
    }

    /** Acknowledge the echo with the ack that was built: channel of the
        connection response, current status. */
    method AcknowledgeEchoCorrected()
      modifies this`sent
      ensures sent == old(sent) + [TunnellingAck(connChannel, status)]
    {
      Send(TunnellingAck(connChannel, status));
    }

    /** Disconnect (lines 451-470): send DISCONNECT_REQUEST on the current
        `channel_id`, take the status of the DISCONNECT_RESPONSE, exit 1 on a
        non-zero status. Unreachable in the code as written. */
    method Disconnect() returns (step: Step)
      modifies this`sent, this`pending, this`status
      ensures sent == old(sent) + [DisconnectRequest(channelId, control)]
      ensures old(pending) == [] ==> step == Stop(Blocked) && pending == [] && status == old(status)
      ensures old(pending) != [] ==>
        && pending == old(pending)[1..]
        && status == old(pending)[0].status
        && step == if status == 0 then Continue else Stop(Exit1)
    {
      Send(DisconnectRequest(channelId, control));
      var reply := Receive();
      if reply.None? {
        return Stop(Blocked);
      }
      status := reply.value.status;
      step := if status == 0 then Continue else Stop(Exit1);
    }
  }

  /** `send_knx_request` as written, with the socket's replies given up front. */
  method SendKnxRequest(dest: GroupAddress, payload: Payload, gatewayPort: string,
                        controlEndpoint: string, dataEndpoint: string, replies: seq<Frame>)
    returns (sent: seq<Datagram>, outcome: Outcome)
    ensures Transcript(sent, outcome) ==
      Expected(dest, payload, gatewayPort, controlEndpoint, dataEndpoint, replies)
  {
    var ends := Setup(gatewayPort, controlEndpoint, dataEndpoint);
    if ends.Failure? {
      return [], Crashed(ends.error);
    }
    sent, outcome := Exchange(dest, payload, ends.value.control, ends.value.data, replies);
  }

  /** The socket part of `send_knx_request` as written, once the endpoints
      are parsed: connect, state check, tunnel, echo, acknowledgement. */
  method Exchange(dest: GroupAddress, payload: Payload, control: Endpoint, data: Endpoint,
                  replies: seq<Frame>)
    returns (sent: seq<Datagram>, outcome: Outcome)
    ensures Transcript(sent, outcome) == AsWritten(dest, payload, control, data, replies)
  {
    var session := new Session(dest, payload, control, data, replies);
    var step := session.Connect();
    if step.Stop? {
      return session.sent, step.outcome;
    }
    step := session.CheckState();
    if step.Stop? {
      return session.sent, step.outcome;
    }
    step := session.Tunnel();
    if step.Stop? {
      return session.sent, step.outcome;
    }
    var echoData;
    step, echoData := session.CheckEcho();
    if step.Stop? {
      return session.sent, step.outcome;
    }
    step := session.AcknowledgeEcho();
    sent, outcome := session.sent, step.outcome;
  }

  /** `send_knx_request` with the state-check request and the echo
      acknowledgement repaired, running on to the disconnect exchange and
      returning `(True, data of the echo)`. */
  method SendKnxRequestCorrected(dest: GroupAddress, payload: Payload, gatewayPort: string,
                                 controlEndpoint: string, dataEndpoint: string, replies: seq<Frame>)
    returns (sent: seq<Datagram>, outcome: Outcome)
    ensures Transcript(sent, outcome) ==
      ExpectedCorrected(dest, payload, gatewayPort, controlEndpoint, dataEndpoint, replies)
  {
    var ends := Setup(gatewayPort, controlEndpoint, dataEndpoint);
    if ends.Failure? {
      return [], Crashed(ends.error);
    }
    sent, outcome := ExchangeCorrected(dest, payload, ends.value.control, ends.value.data, replies);
  }

  /** The repaired socket part: connect, state check, tunnel, echo,
      acknowledgement, disconnect. */
  method ExchangeCorrected(dest: GroupAddress, payload: Payload, control: Endpoint, data: Endpoint,
                           replies: seq<Frame>)
    returns (sent: seq<Datagram>, outcome: Outcome)
    ensures Transcript(sent, outcome) == Corrected(dest, payload, control, data, replies)
  {
    var session := new Session(dest, payload, control, data, replies);
    var step := session.Connect();
    if step.Stop? {
      return session.sent, step.outcome;
    }
    step := session.CheckStateCorrected();
    if step.Stop? {
      return session.sent, step.outcome;
    }
    step := session.Tunnel();
    if step.Stop? {
      return session.sent, step.outcome;
    }
    var echoData;
    step, echoData := session.CheckEcho();
    if step.Stop? {
      return session.sent, step.outcome;
    }
    session.AcknowledgeEchoCorrected();
    step := session.Disconnect();
    if step.Stop? {
      return session.sent, step.outcome;
    }
    sent, outcome := session.sent, Returned(true, Reading(echoData));
  }
}
