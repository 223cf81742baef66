/** What each call of the engine does to the whole state. Exec, Complete, TryStart, StartGroup
    and StartLoop are mutually recursive, as in the source: completing an operation may start a
    deferred group, and starting a group may complete an operation at once. */
module EngineSpec {
  import opened Protocol
  import opened EngineState
  import StatusReply

  // ---------- Starting and completing ----------

  /** executeCommandImmediately; `sent` is the outcome of a local VOLUME transmission. */
  function Exec(s: State, a: Address, cmd: Command, suppress: bool, sent: bool): (r: State)
    ensures |r.pending| <= |s.pending|
    ensures s.hist.hollow ==> r.hist.hollow
    ensures r.queues == s.queues
    ensures r.hist.requests == s.hist.requests && r.hist.disconnected == s.hist.disconnected
    ensures s.hist.completions <= r.hist.completions && s.hist.starts <= r.hist.starts
    decreases |s.pending|, 3, 1
  {
    if !Available(s, a) then Drop(s, cmd)
    else Begun(Begin(s, a, cmd, suppress), a, cmd, suppress, sent)
  }

  // The rest of executeCommandImmediately, once the context is installed.
  function Begun(s: State, a: Address, cmd: Command, suppress: bool, sent: bool): (r: State)
    requires Live(s, a)
    ensures |r.pending| <= |s.pending|
    ensures s.hist.hollow ==> r.hist.hollow
    ensures r.queues == s.queues
    ensures r.hist.requests == s.hist.requests && r.hist.disconnected == s.hist.disconnected
    ensures s.hist.completions <= r.hist.completions && s.hist.starts <= r.hist.starts
    decreases |s.pending|, 3, 0
  {
    if EmptyRequest(s, cmd) then Complete(s, a, false, NotBuilt)
    else if !suppress && cmd.tech.VOLUME?
    then Complete(Unstage(s), a, sent, if sent then VolumeSent else VolumeNotSent)
    else Arm(s, a)
  }

  /** completeOperation. */
  function Complete(s: State, a: Address, ok: bool, msg: Message): (r: State)
    ensures |r.pending| <= |s.pending|
    ensures s.hist.hollow ==> r.hist.hollow
    ensures r.queues == s.queues
    ensures r.hist.requests == s.hist.requests && r.hist.disconnected == s.hist.disconnected
    ensures s.hist.completions <= r.hist.completions && s.hist.starts <= r.hist.starts
    decreases |s.pending|, 2, 0
  {
    hide Finish, Settle;
    if !Live(s, a) then s
    else Release(TryStart(Settle(Finish(s, a, ok, msg), a, ok)))
  }

  // With no group left, the commands waiting at address 0 are released by a posted poll.
  function Release(s: State): State { if GroupsOpen(s) then s else Post(s) }

  /** tryStartPendingGroupCommands: at most the front group is started. */
  function TryStart(s: State): (r: State)
    ensures |r.pending| <= |s.pending|
    ensures s.hist.hollow ==> r.hist.hollow
    ensures r.queues == s.queues
    ensures r.hist.requests == s.hist.requests && r.hist.disconnected == s.hist.disconnected
    ensures s.hist.completions <= r.hist.completions && s.hist.starts <= r.hist.starts
    decreases |s.pending|, 1, 0
  {
    if s.pending == [] || !CanStart(s, s.pending[0].mask) then s
    else StartGroup(PopPending(s), s.pending[0])
  }

  /** startGroupCommand for a mask that can start. */
  function StartGroup(s: State, g: Group): (r: State)
    ensures |r.pending| <= |s.pending|
    ensures s.hist.hollow ==> r.hist.hollow
    ensures r.queues == s.queues
    ensures r.hist.requests == s.hist.requests && r.hist.disconnected == s.hist.disconnected
    ensures s.hist.completions <= r.hist.completions && s.hist.starts <= r.hist.starts
    decreases |s.pending|, 5, 0
  {
    StartLoop(OpenGroup(s, g), Targets(g.mask), g)
  }

  function StartLoop(s: State, todo: seq<Address>, g: Group): (r: State)
    ensures |r.pending| <= |s.pending|
    ensures s.hist.hollow ==> r.hist.hollow
    ensures r.queues == s.queues
    ensures r.hist.requests == s.hist.requests && r.hist.disconnected == s.hist.disconnected
    ensures s.hist.completions <= r.hist.completions && s.hist.starts <= r.hist.starts
    decreases |s.pending|, 4, |todo|
  {
    if todo == [] then s
    else StartLoop(Exec(Create(s), todo[0], NewCommand(s, g.tech, None, g.id), true, false), todo[1..], g)
  }

  // ---------- Submissions ----------

  /** Both overloads of executeCommand. */
  function Submit(s: State, tech: TechCommand, data: Option<seq<byte>>, a: Address, sent: bool): State {
    if data.None? && !Known(tech) then s
    else
      var cmd := NewCommand(s, tech, data, 0);
      if (a == 0 && GroupsOpen(s)) || !Available(s, a) then Enqueue(Create(s), a, cmd)
      else Exec(Create(s), a, cmd, false, sent)
  }

  /** executeGroupCommand. */
  function SubmitGroup(s: State, tech: TechCommand, mask: Address): State {
    if mask == 0 || !Known(tech) then s
    else
      var g := Group(s.nextGroupId, tech, mask);
      if CanStart(s, mask) then StartGroup(AcceptGroup(s, tech, mask), g) else Defer(AcceptGroup(s, tech, mask), g)
  }

  /** connectToPPB queues a status request. */
  function Connect(s: State, a: Address): State { Enqueue(Create(s), a, NewCommand(s, TS, None, 0)) }

  // ---------- Queues ----------

  /** processNextCommandForAddress: no gate for address 0 here. */
  function ProcessNext(s: State, a: Address, sent: bool): State {
    if !StateOf(s, a).Ready? || QueueOf(s, a) == [] then s
    else Exec(Dequeue(s, a), a, QueueOf(s, a)[0], false, sent)
  }

  function ProcessOne(s: State, a: Address, sent: bool): State {
    if (a == 0 && GroupsOpen(s)) || !Available(s, a) || QueueOf(s, a) == [] then s
    else Exec(Dequeue(s, a), a, QueueOf(s, a)[0], false, sent)
  }

  /** processCommandQueue over the addresses of the queue map, in the order of its hash table. */
  function ProcessQueue(s: State, order: seq<Address>, sent: set<Address>): State
    decreases |order|
  {
    if order == [] then s
    else ProcessQueue(ProcessOne(s, order[0], order[0] in sent), order[1..], sent)
  }

  function Elements(order: seq<Address>): set<Address> { set a | a in order }

  predicate Orders(s: State, order: seq<Address>) { Distinct(order) && Elements(order) == s.queues.Keys }

  // ---------- Replies ----------

  function LittleEndian(bytes: seq<byte>): nat {
    if bytes == [] then 0 else bytes[0] + 256 * LittleEndian(bytes[1..])
  }

  // The parser of each command, over the data after the three-byte header.
  function ParsePayload(cmd: Command, payload: seq<byte>, prior: Data): Parse {
    var failed := Parse(false, NotParsed(cmd.tech), prior);
    var parsed := (data: Data) => Parse(true, Parsed(cmd.tech), data);
    if cmd.data.Some? then parsed(NoData)
    else
      match cmd.tech
      case TS =>
        (match StatusReply.Parse(payload)
         case None => failed
         case Some(status) => parsed(StatusData(status)))
      case VERS | CHECKSUM | DROP | FactoryNumber =>
        if |payload| < 2 then failed else parsed(Number(LittleEndian(payload[..2])))
      case BER_T | BER_F =>
        if |payload| < 4 then failed else parsed(Number(LittleEndian(payload[..4])))
      case IS_YOU =>
        if |payload| < 2 then failed else parsed(MaskData(Word(payload[0], payload[1])))
      case PRBS_S2M =>
        if |payload| / 2 != 512 then failed else parsed(Packets(512))
      case TC | VOLUME | PROGRAMM | CLEAN | UPDATE | PRBS_M2S => parsed(NoData)
  }

  // Commands whose OK handler completes the operation itself.
  predicate CompletesOnOk(cmd: Command) {
    cmd.data.Some? || cmd.tech in {VOLUME, PROGRAMM, CLEAN, UPDATE, DROP, PRBS_M2S}
  }

  // The only command whose data handler completes the operation itself.
  predicate CompletesOnData(cmd: Command) { cmd.data.None? && cmd.tech.PRBS_S2M? }

  function OnOk(s: State, a: Address): State
    requires Live(s, a)
  {
    var cmd := s.contexts[a].command;
    var s' := if cmd.data.None? && cmd.tech.VOLUME? then Unstage(s) else s;
    var s'' := if CompletesOnOk(cmd) then Complete(s', a, true, Acknowledged(cmd.tech)) else s';
    Complete(s'', a, true, Done)
  }

  function OnData(s: State, a: Address, payload: seq<byte>): State
    requires Live(s, a)
  {
    var cmd := s.contexts[a].command;
    var p := ParsePayload(cmd, payload, s.contexts[a].parsed.data);
    var s' := SetParse(s, a, p);
    var s'' := if CompletesOnData(cmd) then Complete(s', a, p.ok, p.message) else s';
    if Live(s'', a) then Complete(s'', a, s''.contexts[a].parsed.ok, s''.contexts[a].parsed.message) else s''
  }

  function Report(s: State, a: Address, p: Parse): State
    requires Live(s, a)
  {
    Complete(SetParse(s, a, p), a, p.ok, p.message)
  }

  // A bridge reply to IS_YOU on the address of the datagram.
  function IsYouReport(reply: BridgeReply): Parse {
    match reply
    case BridgeMask(mask) => Parse(true, MaskReport(mask), MaskData(mask))
    case BridgeError => Parse(false, BridgeErr, NoData)
    case BridgeStatus(_, _, _) => Parse(false, BridgeUnknown, NoData)
  }

  // A bridge reply to a command on the address of the reply.
  function BridgeReport(cmd: Command, reply: BridgeReply): Parse {
    match reply
    case BridgeMask(mask) => Parse(cmd.tech.IS_YOU?, MaskReport(mask), MaskData(mask))
    case BridgeError => Parse(false, BridgeErr, NoData)
    case BridgeStatus(_, _, status) =>
      var ok := status == 1 || cmd.tech.IS_YOU?;
      Parse(ok, if ok then Done else BridgeFailure, NoData)
  }

  function OnTUReply(s: State, a: Address, reply: Reply): State
    requires Live(s, a)
  {
    match reply
    case ErrorReply(_, status) => Complete(s, a, false, DeviceError(status))
    case OkReply(_, echo) => if echo.Some? && echo.value != Code(s.contexts[a].command.tech) then s else OnOk(s, a)
    case DataReply(_, payload) => OnData(s, a, payload)
  }

  function OnBridgeReply(s: State, reply: BridgeReply): State {
    var b := BridgeAddress(reply);
    if Live(s, b) then Report(s, b, BridgeReport(s.contexts[b].command, reply))
    else
      match reply
      case BridgeStatus(a, command, status) => ReportFu(s, a, command, status == 1)
      case _ => ReportFu(s, 0, 0, false)
  }

  /** onDataReceived. */
  function Receive(s: State, data: seq<byte>): State {
    if |data| < 2 then s
    else
      var a := Word(data[0], data[1]);
      var tu := ParseTUResponse(data);
      var bridge := ParseBridgeResponse(data);
      if Live(s, a) && s.contexts[a].command.tech.IS_YOU? && bridge.Some? then Report(s, a, IsYouReport(bridge.value))
      else if Live(s, a) && tu.Some? then OnTUReply(s, a, tu.value)
      else if Live(s, a) && bridge.Some? then Complete(s, a, false, UnexpectedBridge)
      else if bridge.Some? then OnBridgeReply(s, bridge.value)
      else s
  }

  /** onOperationTimeout. */
  function Timeout(s: State, a: Address): State { Complete(s, a, false, TimedOut) }

  // ---------- Runs ----------

  datatype Step =
    | SubmitStep(tech: TechCommand, data: Option<seq<byte>>, address: Address, sent: bool)
    | GroupStep(tech: TechCommand, mask: Address)
    | ConnectStep(address: Address)
    | DatagramStep(bytes: seq<byte>)
    | TimeoutStep(address: Address)
    | TickStep(order: seq<Address>, delivered: set<Address>)
    | WakeUpStep(address: Address, sent: bool)
    | DrainStep(order: seq<Address>, delivered: set<Address>)
    | ClearStep(address: Address)
    | DisconnectStep
    | StageStep

  predicate Submission(step: Step) { step.SubmitStep? || step.GroupStep? || step.ConnectStep? }

  /** A timeout needs a running timer, a posted call needs to be outstanding, and a poll visits
      the queue map once. */
  predicate Enabled(s: State, step: Step) {
    match step
    case TimeoutStep(a) => Live(s, a) && s.contexts[a].armed
    case TickStep(order, _) => Orders(s, order)
    case WakeUpStep(a, _) => WakeUp(a) in s.posted
    case DrainStep(order, _) => Drain in s.posted && Orders(s, order)
    case _ => true
  }

  function Apply(s: State, step: Step): State {
    match step
    case SubmitStep(tech, data, a, sent) => Submit(s, tech, data, a, sent)
    case GroupStep(tech, mask) => SubmitGroup(s, tech, mask)
    case ConnectStep(a) => Connect(s, a)
    case DatagramStep(bytes) => Receive(s, bytes)
    case TimeoutStep(a) => Timeout(s, a)
    case TickStep(order, delivered) => ProcessQueue(s, order, delivered)
    case WakeUpStep(a, sent) => ProcessNext(Take(s, WakeUp(a)), a, sent)
    case DrainStep(order, delivered) => ProcessQueue(Take(s, Drain), order, delivered)
    case ClearStep(a) => ClearQueue(s, a)
    case DisconnectStep => Disconnect(s)
    case StageStep => Stage(s)
  }

  function Final(run: seq<Step>): State {
    if run == [] then NewEngine else Apply(Final(run[..|run| - 1]), run[|run| - 1])
  }

  predicate ValidRun(run: seq<Step>) {
    run == [] || (ValidRun(run[..|run| - 1]) && Enabled(Final(run[..|run| - 1]), run[|run| - 1]))
  }
}
