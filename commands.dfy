/** Command resolution: the static command table, the percent validator used
    for the optional VALUE argument, and the resolver that turns either a raw
    group address and payload, or a (target, command, floor/bloc, value)
    request, into a group address and a (data, size, apci) payload. */
module Commands {
  import opened Common
  import opened PyText

  /** A KNX three-level group address "action/floor/bloc". */
  datatype GroupAddress = GroupAddress(action: int, floor: int, bloc: int)

  /** The caller's "floor/bloc" half of a group address (target mode). */
  datatype FloorBloc = FloorBloc(floor: int, bloc: int)

  /** The `[data, size, apci]` list handed to the tunnelling session. */
  datatype Payload = Payload(data: int, size: int, apci: int)

  /** One entry of the command table; `data` is None for 'set', whose data is
      supplied by the caller. */
  datatype CommandDef = CommandDef(data: Option<int>, size: int, apci: int, action: int)

  /** The value of `data` for read commands, which the gateway ignores. */
  const DontCare: int := 1234

  /** APCI service codes: group value read and group value write. */
  const ApciRead: int := 0
  const ApciWrite: int := 2

  /** `cmmnd_ref`: target -> command -> definition. */
  const CommandTable: map<string, map<string, CommandDef>> := map[
    "blind" := map[
      "get"   := CommandDef(Some(DontCare), 1, ApciRead, 4),
      "set"   := CommandDef(None, 2, ApciWrite, 3),
      "open"  := CommandDef(Some(0), 1, ApciWrite, 1),
      "close" := CommandDef(Some(1), 1, ApciWrite, 1)
    ],
    "valve" := map[
      "get"   := CommandDef(Some(DontCare), 1, ApciRead, 0),
      "set"   := CommandDef(None, 2, ApciWrite, 0)
    ]
  ]

  /** `cmmnd_ref[target][command]`, or None where Python raises KeyError.
      Six pairs are defined. Only 'set' leaves its data to the caller and
      carries two bytes; 'get' alone reads (APCI 0), with the don't-care data;
      'open' writes 0 and 'close' writes 1. A blind's main group is 4 for
      reads, 3 for 'set' and 1 for 'open'/'close'; a valve's is always 0. */
  function Lookup(target: string, command: string): (d: Option<CommandDef>)
    ensures d.Some? <==>
      || (target == "blind" && command in {"get", "set", "open", "close"})
      || (target == "valve" && command in {"get", "set"})
    ensures d.Some? ==>
      && (d.value.data.None? <==> command == "set")
      && (d.value.size == (if command == "set" then 2 else 1))
      && (d.value.apci == (if command == "get" then ApciRead else ApciWrite))
      && (command == "get" ==> d.value.data == Some(DontCare))
      && (command == "open" ==> d.value.data == Some(0))
      && (command == "close" ==> d.value.data == Some(1))
      && 0 <= d.value.action <= 31
    ensures d.Some? && target == "valve" ==> d.value.action == 0
    ensures d.Some? && target == "blind" ==>
      d.value.action == (if command == "get" then 4 else if command == "set" then 3 else 1)
  {
    if target in CommandTable && command in CommandTable[target]
    then Some(CommandTable[target][command])
    else None
  }

  /** `validate_percent_int`: `int(s)` must parse (else ValueError) and lie in
      [0, 100] (else ArgumentTypeError); the value is returned unchanged. */
  function ValidatePercentInt(s: string): (r: Result<int, PyError>)
    ensures r.Success? <==> ParseInt(s).Some? && 0 <= ParseInt(s).value <= 100
    ensures r.Success? ==> r.value == ParseInt(s).value
    ensures ParseInt(s).None? ==> r == Failure(ValueError)
    ensures ParseInt(s).Some? && !(0 <= ParseInt(s).value <= 100) ==> r == Failure(ArgumentTypeError)
  {
    match ParseInt(s)
    case None => Failure(ValueError)
    case Some(value) =>
      if value < 0 || value > 100 then Failure(ArgumentTypeError)
      else Success(value)
  }

  /** On the decimal spelling of an integer, the validator accepts exactly the
      integers of [0, 100] and returns them unchanged. */
  lemma ValidatePercentOfInt(v: int)
    ensures ValidatePercentInt(IntToString(v)) ==
      if 0 <= v <= 100 then Success(v) else Failure(ArgumentTypeError)
  {
    ParseIntOfIntToString(v);
  }

  /** The rescale `int(value / 100 * 255)`: the exact quotient v * 255 / 100
      truncated toward zero, as Python's `int()` truncates a float. */
  function Rescale(v: int): (d: int)
    ensures v >= 0 ==> 0 <= d && d * 100 <= v * 255 < d * 100 + 100
    ensures v < 0 ==> d <= 0 && d * 100 - 100 < v * 255 <= d * 100
    ensures 0 <= v <= 100 ==> 0 <= d <= 255
  {
    if v >= 0 then v * 255 / 100 else -((-v) * 255 / 100)
  }

  /** A percent in [0, 100] spans the whole byte: 0 is 0, 100 is 255, and a
      larger percent never gives a smaller byte. */
  lemma RescaleSpansByte(a: int, b: int)
    requires 0 <= a <= b <= 100
    ensures Rescale(0) == 0 && Rescale(100) == 255
    ensures Rescale(a) <= Rescale(b)
  {
  }

  /** The arguments of one invocation: the 'raw' subcommand's namespace, or
      the namespace of a target subcommand ('blind' or 'valve'). */
  datatype Args =
    | RawArgs(groupAddress: GroupAddress, payload: Payload)
    | TargetArgs(command: string, address: FloorBloc, value: Option<int>)

  /** What `build_target_command` returns: the address and the payload. */
  datatype Resolved = Resolved(address: GroupAddress, payload: Payload)

  /** `build_target_command(target, args)`. */
  function BuildTargetCommand(target: string, args: Args): (r: Result<Resolved, PyError>)
    // raw mode: no lookup, address and payload pass through unchanged
    ensures target == "raw" ==>
      r == if args.RawArgs? then Success(Resolved(args.groupAddress, args.payload))
           else Failure(AttributeError)
    // target mode: a pair missing from the table raises KeyError
    ensures target != "raw" ==>
      (r == Failure(KeyError) <==>
        target !in CommandTable || (args.TargetArgs? && Lookup(target, args.command).None?))
    // `args.command` is read only once the target is known to the table
    ensures target != "raw" ==>
      (r == Failure(AttributeError) <==> target in CommandTable && args.RawArgs?)
    // 'set' without a value raises ValueError
    ensures target != "raw" ==>
      (r == Failure(ValueError) <==>
        args.TargetArgs? && Lookup(target, args.command).Some? &&
        args.command == "set" && args.value.None?)
    // a defined command resolves, a 'set' only when it has a value
    ensures target != "raw" ==>
      (r.Success? <==>
        && target in CommandTable && args.TargetArgs? && Lookup(target, args.command).Some?
        && (args.command == "set" ==> args.value.Some?))
    // no other exception is raised
    ensures r.Failure? ==> r.error == KeyError || r.error == AttributeError || r.error == ValueError
    // on success the action comes from the table and floor/bloc from the caller,
    // size and apci are the table's, and data is the table's or the rescaled value
    ensures target != "raw" && r.Success? ==>
      && args.TargetArgs?
      && Lookup(target, args.command).Some?
      && var d := Lookup(target, args.command).value;
      && r.value.address == GroupAddress(d.action, args.address.floor, args.address.bloc)
      && r.value.payload.size == d.size
      && r.value.payload.apci == d.apci
      && (args.command == "set" ==> args.value.Some? && r.value.payload.data == Rescale(args.value.value))
      && (args.command != "set" ==> d.data == Some(r.value.payload.data))
  {
    if target == "raw" then
      match args
      case RawArgs(groupAddress, payload) => Success(Resolved(groupAddress, payload))
      case TargetArgs(_, _, _) => Failure(AttributeError)
    else if target !in CommandTable then Failure(KeyError)
    else
      match args
      case RawArgs(_, _) => Failure(AttributeError)
      case TargetArgs(command, address, value) =>
        match Lookup(target, command)
        case None => Failure(KeyError)
        case Some(d) =>
          var gaddress := GroupAddress(d.action, address.floor, address.bloc);
          if command == "set" then
            match value
            case None => Failure(ValueError)
            case Some(v) => Success(Resolved(gaddress, Payload(Rescale(v), d.size, d.apci)))
          else
            Success(Resolved(gaddress, Payload(d.data.value, d.size, d.apci)))
  }

  /** A 'set' with a validated percent always succeeds with a data byte in
      [0, 255] and the table's size 2 and APCI 2. */
  lemma SetPayloadInByteRange(target: string, address: FloorBloc, v: int)
    requires target in CommandTable && 0 <= v <= 100
    ensures var r := BuildTargetCommand(target, TargetArgs("set", address, Some(v)));
      && r.Success?
      && 0 <= r.value.payload.data <= 255
      && r.value.payload.size == 2 && r.value.payload.apci == ApciWrite
      && r.value.address.floor == address.floor && r.value.address.bloc == address.bloc
  {
  }

  /** `blind open '4/1'` gives 1/4/1 and [0, 1, 2]. */
  lemma BlindOpenExample()
    ensures BuildTargetCommand("blind", TargetArgs("open", FloorBloc(4, 1), None))
      == Success(Resolved(GroupAddress(1, 4, 1), Payload(0, 1, 2)))
  {
  }

  /** `blind set '4/1' 30` gives data 76: truncation, not rounding to 77. */
  lemma BlindSetExamples()
    ensures BuildTargetCommand("blind", TargetArgs("set", FloorBloc(4, 1), Some(30)))
      == Success(Resolved(GroupAddress(3, 4, 1), Payload(76, 2, 2)))
    ensures BuildTargetCommand("blind", TargetArgs("set", FloorBloc(4, 1), Some(0)))
      == Success(Resolved(GroupAddress(3, 4, 1), Payload(0, 2, 2)))
    ensures BuildTargetCommand("blind", TargetArgs("set", FloorBloc(4, 1), Some(100)))
      == Success(Resolved(GroupAddress(3, 4, 1), Payload(255, 2, 2)))
    ensures BuildTargetCommand("blind", TargetArgs("set", FloorBloc(4, 1), None))
      == Failure(ValueError)
  {
  }

  /** Valves share action 0 for reads and writes, and have no 'open'. */
  lemma ValveExamples()
    ensures BuildTargetCommand("valve", TargetArgs("get", FloorBloc(0, 1), None))
      == Success(Resolved(GroupAddress(0, 0, 1), Payload(DontCare, 1, 0)))
    ensures BuildTargetCommand("valve", TargetArgs("open", FloorBloc(0, 1), None))
      == Failure(KeyError)
    ensures BuildTargetCommand("valve", TargetArgs("unknown", FloorBloc(0, 1), None))
      == Failure(KeyError)
  {
  }
}
