# KNXnet/IP tunnelling client, modelled in Dafny

A model of the one-shot KNXnet/IP tunnelling client `knx/knx_client_script.py`.
Each invocation resolves one building-automation command (for example "open
blind 4/1") into a KNX group address and a `(data, size, apci)` payload. It then
runs one tunnelling exchange with a KNX/IP gateway over UDP:

1. connection request and response;
2. connection-state check;
3. tunnelling request and its acknowledgement;
4. check of the echoed tunnelling request;
5. acknowledgement of the echo;
6. disconnect.

The project has five modules:

- `Common` (common.dfy): `Option`, `Result`, and the Python exceptions the code
  raises, as values (`PyError`).
- `PyText` (pytext.dfy): the two Python built-ins the code relies on. These are
  `str.split(':')` (`Split`, with its inverse `Join`) and `int()` on a decimal
  string (`ParseInt`, with its inverse `IntToString`).
- `Commands` (commands.dfy): the command table `cmmnd_ref`,
  `validate_percent_int`, the rescale of a percent to a byte, and
  `build_target_command`.
- `Protocol` (protocol.dfy): the exchange as values. It holds endpoint parsing,
  decoded gateway frames and the datagrams the client sends. `AsWritten` is the
  reference transcript of the code: the datagrams sent, plus how the run ends
  (`Exit1`, `Returned(ok, reply)`, `Crashed(exception)`, or `Blocked` when the
  replies run out). `Corrected` is the transcript once the two defects under
  "## Findings" are repaired.
- `Client` (client.dfy): `send_knx_request` as the step-by-step procedure it is.
  A `Session` object stands for the socket: the datagrams sent so far and the
  replies not yet received. It also holds the variables the function reassigns
  (`channel_id`, `status`, `conn_resp.channel_id`). There is one method per
  protocol step. `Exchange` runs the steps in the code's order and is proved to
  produce exactly `Protocol.AsWritten`; `SendKnxRequest` does the argument
  conversions first and is proved to produce exactly `Protocol.Expected`.
  `ExchangeCorrected` and `SendKnxRequestCorrected` do the same with the
  repaired steps, against `Protocol.Corrected` and `Protocol.ExpectedCorrected`.

The gateway's replies are an input: a sequence of already-decoded frames,
consumed in order. Nothing else about I/O is modelled.

Four behaviours of the code are easy to misread; the model keeps each as the
code has it:

- The rescale truncates toward zero. So `blind set 4/1 30` gives data 76;
  rounding to the nearest byte would give 77 (`Commands.BlindSetExamples`).
- A non-zero status in the connection-state response exits with status 1 at
  once. No disconnect request is sent, so the channel opened by the connection
  is never released.
- A failed echo correlation returns `(False, "Error")` at once. No disconnect
  request is sent on that path either.
- A non-zero status in the disconnect response exits with status 1, although
  the tunnelled command was already confirmed by then.

The corrected transcript keeps all four of these behaviours. It repairs only
the two evident defects.

## Model

| member | source | states |
|---|---|---|
| `Commands.Lookup` | knx/knx_client_script.py:205-246 | an entry exists exactly for blind get/set/open/close and valve get/set (anything else is the KeyError case); only 'set' leaves data to the caller and has size 2, all others size 1; 'get' alone reads (APCI 0) with the don't-care data 1234, 'open' writes 0, 'close' writes 1; a blind's main group is 4 for 'get', 3 for 'set', 1 for 'open'/'close', a valve's is 0 |
| `Commands.ValidatePercentInt` | knx/knx_client_script.py:249-262 | succeeds exactly when `int(s)` parses and lies in [0, 100], and then returns that integer unchanged; ValueError when `int` fails, ArgumentTypeError when out of range |
| `Commands.ValidatePercentOfInt` | knx/knx_client_script.py:258-262 | on the decimal spelling of any integer v, the result is v when 0 <= v <= 100 and ArgumentTypeError otherwise |
| `Commands.Rescale` | knx/knx_client_script.py:297 | the result is `v*255/100` truncated toward zero (a floor bound for v >= 0, a ceiling bound for v < 0), and lies in [0, 255] for v in [0, 100] |
| `Commands.RescaleSpansByte` | knx/knx_client_script.py:296-297 | 0 maps to 0, 100 maps to 255, and the rescale is monotone on [0, 100] |
| `Commands.BuildTargetCommand` | knx/knx_client_script.py:265-301 | raw mode passes address and payload through with no lookup. A key missing from the table gives KeyError, and 'set' without a value gives ValueError (both if and only if). A target command resolves exactly when it is in the table and, for 'set', has a value. No exception other than KeyError, AttributeError and ValueError is raised. On success the action is the table's, floor/bloc are the caller's, size/apci are the table's, and data is the table's or the rescaled value |
| `Commands.SetPayloadInByteRange` | knx/knx_client_script.py:293-299 | a 'set' with a percent in [0, 100] always resolves, with data in [0, 255], size 2 and APCI 2 |
| `Commands.BlindOpenExample` | knx/knx_client_script.py:288-292 | `blind open 4/1` resolves to address 1/4/1 and payload [0, 1, 2] |
| `Commands.BlindSetExamples` | knx/knx_client_script.py:293-299 | `blind set 4/1` gives data 76 for 30, 0 for 0 and 255 for 100, and ValueError without a value |
| `Commands.ValveExamples` | knx/knx_client_script.py:232-245 | `valve get` uses action 0 with the don't-care data; `valve open` and an unknown valve command raise KeyError |
| `PyText.Split` | knx/knx_client_script.py:346 | always at least one piece, no piece holds the separator, and one piece exactly when the separator is absent |
| `PyText.JoinSplit` | knx/knx_client_script.py:346 | joining the pieces of a split with the separator gives back the original string |
| `PyText.SplitAtFirst` | knx/knx_client_script.py:346 | the text before the first separator is the first piece, and the rest splits on its own |
| `PyText.SplitHead` | knx/knx_client_script.py:346 | the first piece is the text before the first separator, or the whole string when there is none |
| `PyText.ParseInt` | knx/knx_client_script.py:347 | `int()` succeeds exactly on a digit, or a '+'/'-' sign followed by at least one more character, where every character after the first is a digit; a parsed string is free of ':', and a negative result comes from a leading '-' |
| `PyText.ParseIntOfDigits` | knx/knx_client_script.py:347 | a non-empty digit string, bare, after '+' or after '-', converts to its decimal value, or to its negation after '-' |
| `PyText.ParseIntSignAndZeros` | knx/knx_client_script.py:347 | a '+' sign and any run of leading zeros leave the value unchanged: "+7", "007" and "-007" convert to 7, 7 and -7 |
| `PyText.ParseIntRejects` | knx/knx_client_script.py:347 | a character that is neither a digit nor a sign, or a sign after the first position, makes `int()` fail |
| `PyText.ParseIntOfIntToString` | knx/knx_client_script.py:347 | `int(str(n)) == n` for every integer n |
| `Protocol.ParseEndpoint` | knx/knx_client_script.py:346-349 | IndexError exactly when the string has no ':'; ValueError exactly when it has one but the text between the first ':' and the next (or the end) is not an integer; no other error; on success the ip is exactly the text before the first ':' and the port is `int` of that text |
| `Protocol.EndpointRoundTrip` | knx/knx_client_script.py:346-349 | parsing "ip:port" gives back (ip, port) for any ip without ':' and any integer port |
| `Protocol.EndpointIgnoresExtraPieces` | knx/knx_client_script.py:346-349 | "ip:port:anything" parses exactly as "ip:port", since only pieces 0 and 1 are read |
| `Protocol.SameFirstPieces` | knx/knx_client_script.py:346-349 | two strings whose splits agree on the first two pieces parse to the same result |
| `Protocol.Setup` | knx/knx_client_script.py:344-349 | the conversions succeed exactly when the gateway port and both endpoints parse, giving the two parsed endpoints; they run in order, so the first failure is reported: ValueError for a bad gateway port, else the control endpoint's error, else the data endpoint's |
| `Protocol.DefaultGatewayPort` | knx/knx_client_script.py:309 | the default gateway port "3671" converts to 3671 |
| `Protocol.DefaultEndpoint` | knx/knx_client_script.py:310-311 | the default endpoint string "127.0.0.1:3672" parses to ip 127.0.0.1 and port 3672 |
| `Protocol.DefaultSetup` | knx/knx_client_script.py:308-311 | the default arguments give 127.0.0.1:3672 for both endpoints |
| `Protocol.TunnelRequest` | knx/knx_client_script.py:407-414 | the tunnelling request carries the payload's data value (1234 for a read, the rescaled value for 'set'), and an echo correlates with it exactly when it repeats the destination address, the channel of the connection response, the data size and the APCI |
| `Protocol.BitAnd` | knx/knx_client_script.py:436 | Python's `&` on two booleans, as the bitwise and of 1 and 0, is true exactly when both operands are |
| `Protocol.Correlates` | knx/knx_client_script.py:436 | the four comparisons joined by `&` and tested against `False` pass exactly when destination address, channel, data size and APCI are all equal; `&` evaluates every comparison, and as none has an effect the outcome is that of a short-circuit conjunction |
| `Protocol.AsWritten` | knx/knx_client_script.py:357-445 | At most three datagrams are sent: the connection request, the same request again at the state check, and the tunnelling request on the connection response's channel. No ack, no disconnect and no successful return ever happen. A non-zero status at any of the first three replies stops the run with exit 1, with exactly the datagrams sent so far. The run blocks exactly when the replies run out with every status 0. A wrong data service and a correlation mismatch each give their own `(False, ...)` return (if and only if). An accepted echo ends in NameError |
| `Protocol.Corrected` | knx/knx_client_script.py:357-470 | The state check sends the connection-state request on the connection response's channel. An accepted echo is followed by the ack on that channel and a disconnect request on the state response's channel. The disconnect is sent exactly when the echo is accepted. Success happens exactly when every step succeeds, and returns the echoed data. The run never crashes |
| `Protocol.CorrectionIsLocal` | knx/knx_client_script.py:382-470 | the repaired transcript differs from the code's only at the second datagram and after an accepted echo; otherwise outcome and length agree |
| `Protocol.StateCheckResendsConnectionRequest` | knx/knx_client_script.py:381-387 | once a connection is accepted, the second datagram sent is the connection request, not a connection-state request |
| `Protocol.AcceptedEchoCrashes` | knx/knx_client_script.py:429-445 | a gateway that says status 0 everywhere and echoes the request exactly makes the code crash with NameError after three datagrams |
| `Protocol.Expected` | knx/knx_client_script.py:342-445 | nothing is sent exactly when an argument conversion fails, and the run then crashes with that conversion's exception; the code never returns success |
| `Protocol.ExpectedCorrected` | knx/knx_client_script.py:342-470 | nothing is sent exactly when a conversion fails; past the conversions the repaired run never crashes |
| `Client.Session.constructor` | knx/knx_client_script.py:354-355 | a fresh socket: nothing sent, every reply still pending |
| `Client.Session.Send` | knx/knx_client_script.py:364 | the datagram is appended to the datagrams sent |
| `Client.Session.Receive` | knx/knx_client_script.py:368-369 | returns the next pending reply and drops it from the queue, or nothing (blocked) when none is left |
| `Client.Session.Connect` | knx/knx_client_script.py:357-377 | sends the connection request; on a reply, `channel_id`, `conn_resp.channel_id` and `status` are the reply's, and the step continues exactly when the status is 0 |
| `Client.Session.CheckState` | knx/knx_client_script.py:381-400 | sends the connection request (not the state request); `channel_id` and `status` are overwritten from the reply; continues exactly on status 0 |
| `Client.Session.CheckStateCorrected` | knx/knx_client_script.py:382-386 | sends the connection-state request with the current channel and the control endpoint, then behaves as the state response step |
| `Client.Session.AwaitStateResponse` | knx/knx_client_script.py:389-400 | `channel_id` and `status` come from the state response; exit 1 on a non-zero status |
| `Client.Session.Tunnel` | knx/knx_client_script.py:406-426 | sends the tunnelling request on `conn_resp.channel_id` with the payload's data, size and APCI; the ack's status decides whether the run continues or exits 1 |
| `Client.Session.CheckEcho` | knx/knx_client_script.py:428-437 | sends nothing; a data service other than 0x2E returns `(False, "Error : data service")`; any mismatch of address, channel, size or APCI returns `(False, "Error")`; otherwise it continues |
| `Client.Session.AcknowledgeEcho` | knx/knx_client_script.py:439-445 | sends nothing and stops with NameError |
| `Client.Session.AcknowledgeEchoCorrected` | knx/knx_client_script.py:440-444 | sends the ack on `conn_resp.channel_id` with the current status |
| `Client.Session.Disconnect` | knx/knx_client_script.py:450-470 | sends the disconnect request on the current `channel_id` (the state response's); exit 1 on a non-zero disconnect status |
| `Client.SendKnxRequest` | knx/knx_client_script.py:305-349 | a failed argument conversion crashes with its exception before anything is sent; otherwise the run is the exchange below, so the datagrams sent and the outcome are exactly `Protocol.Expected` for every argument and reply sequence |
| `Client.Exchange` | knx/knx_client_script.py:354-445 | the session's steps in the code's order send exactly the datagrams and end exactly as `Protocol.AsWritten` says, for every reply sequence |
| `Client.SendKnxRequestCorrected` | knx/knx_client_script.py:305-349 | the same conversions, then the repaired exchange: the datagrams sent and the outcome are exactly `Protocol.ExpectedCorrected` for every argument and reply sequence |
| `Client.ExchangeCorrected` | knx/knx_client_script.py:354-470 | the repaired steps (state request, echo ack, disconnect, return of the echoed data) send exactly the datagrams and end exactly as `Protocol.Corrected` says |

## Left out

- Sockets are not modelled: creation, `bind` on the control endpoint's port,
  `sendto`, `recvfrom` and the 1024-byte buffer. The replies are a given
  sequence and the datagrams sent are a trace. The destination
  `(gateway_ip, gateway_port)` is not recorded, since every datagram goes to
  it. Errors raised by `bind` or `sendto` (a port out of range, an address in
  use) are not modelled either.
- The `knxnet` frame codec is not part of this model (`create_frame`,
  `decode_frame`, `GroupAddress.from_str`). Replies are decoded records, and a
  decoding failure or a frame without one of the fields read is not modelled.
  A group address is an integer triple: the raw-mode address string and the
  target-mode "floor/bloc" string arrive already parsed, and their range checks
  are not modelled. Decoded fields, `dest_addr_group` among them, are taken to
  compare by value. A group-address object compared by identity would make the
  echo check at line 436 report 'Error' on every echo.
- Commands.Rescale: this is the exact quotient `v*255/100` truncated toward
  zero, in place of the float expression `int(v/100*255)`. The model assumes
  that float rounding never carries the product across an integer.
- PyText.ParseInt: this accepts an optional sign followed by ASCII digits.
  Python's `int()` also accepts surrounding whitespace, underscores between
  digits and non-ASCII digits; those inputs are not modelled.
- Exception message texts, `print` and logging output are not modelled. The
  module-level `logger` is `None` at line 202 and bound only under `__main__`
  (line 484). The model takes it to be set, so the `logger.debug` calls at
  lines 282, 289, 363 and 367 have no effect. Unset, the call at line 363 would
  raise AttributeError before the first datagram is sent.
- The argument parser (lines 479-646) is not modelled. The command-line layer
  restricts commands to the table's keys and runs `validate_percent_int` on
  the value; the model takes the parsed target and namespace as `Args`.
- The result formatting in `__main__` is not modelled (lines 669-677): it
  applies `int()` to an arbitrary reply and computes a float percentage.
- Receive timeouts do not exist in the source. A reply that never comes is the
  `Blocked` outcome.

## Findings

| source | as written | input that shows it | evidently intended | confidence | as-written member | corrected member |
|---|---|---|---|---|---|---|
| knx/knx_client_script.py:387 | the state check sends `conn_req.frame`, so the connection request goes out a second time | any connection response with status 0: the second datagram sent is a CONNECTION_REQUEST | send the CONNECTION_STATE_REQUEST built at lines 382-386, carrying the channel and the control endpoint | high; not executed | `Protocol.StateCheckResendsConnectionRequest` | `Protocol.Corrected` |
| knx/knx_client_script.py:445 | sends `tun_ack.frame`, but only `tunneling_ack` is bound. Every accepted echo raises NameError, so the echo ack, the disconnect at lines 451-470 and any return value are never reached. The function has no `return` after the disconnect either | status 0 in the first three replies, and an echo with data service 0x2E and the sent address, channel, size and APCI | send the ack built at lines 440-444, disconnect, and return `(True, reply)` as the docstring promises at lines 335-340. The docstring calls the reply a number for 'get' and a textual status code for anything else; `Protocol.Corrected` returns the echo's data (`Reading`) for every command | high; not executed | `Protocol.AcceptedEchoCrashes` | `Protocol.Corrected` |
