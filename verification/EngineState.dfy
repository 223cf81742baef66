/** The state of the command engine and its elementary updates: everything one call changes
    before it hands control to another function of the engine. */
module EngineState {
  import opened Protocol
  import StatusReply

  datatype PPBState = Idle | Ready | Sending

  /** One command object. `serial` is its identity and `group` the group it was created for
      (0 for a command of its own); `data` is present for a DataCommand. */
  datatype Command = Command(tech: TechCommand, data: Option<seq<byte>>, serial: nat, group: nat)

  datatype Message =
    | NoText | TimedOut | Done | Acknowledged(tech: TechCommand) | NotBuilt | VolumeSent | VolumeNotSent
    | DeviceError(status: byte) | UnexpectedBridge | MaskReport(mask: Address) | BridgeErr | BridgeUnknown
    | BridgeFailure | Parsed(tech: TechCommand) | NotParsed(tech: TechCommand)

  datatype Data =
    | NoData | MaskData(mask: Address) | StatusData(status: StatusReply.Status) | Number(value: nat) | Packets(count: nat)

  datatype Parse = Parse(ok: bool, message: Message, data: Data)

  const NoParse := Parse(false, NoText, NoData)

  datatype Context = Context(command: Command, completed: bool, armed: bool, suppressSend: bool, parsed: Parse)

  datatype GroupInfo = GroupInfo(waiting: set<Address>, results: map<Address, bool>)

  datatype Group = Group(id: nat, tech: TechCommand, mask: Address)

  // The zero-delay calls a run still owes: processNextCommandForAddress and processCommandQueue.
  datatype Posted = WakeUp(address: Address) | Drain

  // ---------- History ----------

  datatype Fate =
    | InHand(queued: bool)
    | Queued(address: Address)
    | Active(address: Address)
    | Finished(address: Address, ok: bool)
    | Cleared            // removed with its queue by clearCommandQueue
    | Disconnected       // removed with its queue by disconnect
    | Dropped            // refused by executeCommandImmediately
    | Overwritten        // its context was taken over by another command

  datatype Start = Start(address: Address, command: Command, queued: bool, groupsOpen: bool)
  datatype Completion = Completion(address: Address, command: Command, ok: bool, message: Message, data: Data)
  datatype Verdict = Verdict(id: nat, ok: bool, results: map<Address, bool>)
  datatype FuReport = FuReport(address: Address, command: byte, ok: bool)

  /** What a run has done so far: the fate of every command, the signals emitted, the groups asked
      for, the deferred groups released in order, and whether a group without a request was ever
      started (`hollow`) or a disconnect ever happened. */
  datatype History = History(
    fate: map<nat, Fate>,
    serials: nat,
    starts: seq<Start>,
    completions: seq<Completion>,
    requests: map<nat, Group>,
    verdicts: seq<Verdict>,
    abandoned: set<nat>,
    released: seq<nat>,
    fuReports: seq<FuReport>,
    hollow: bool,
    disconnected: bool)

  datatype State = State(
    states: map<Address, PPBState>,
    contexts: map<Address, Context>,
    queues: map<Address, seq<Command>>,
    groups: map<nat, GroupInfo>,
    pending: seq<Group>,
    nextGroupId: nat,
    busy: bool,
    staged: bool,
    posted: multiset<Posted>,
    hist: History)

  const NewHistory := History(map[], 0, [], [], map[], [], {}, [], [], false, false)
  const NewEngine := State(map[], map[], map[], map[], [], 1, false, false, multiset{}, NewHistory)

  // ---------- Queries ----------

  function StateOf(s: State, a: Address): PPBState { if a in s.states then s.states[a] else Idle }

  predicate Available(s: State, a: Address) { !StateOf(s, a).Sending? }

  predicate Live(s: State, a: Address) { a in s.contexts && !s.contexts[a].completed }

  predicate GroupsOpen(s: State) { s.groups != map[] || s.pending != [] }

  function QueueOf(s: State, a: Address): seq<Command> { if a in s.queues then s.queues[a] else [] }

  predicate CanStart(s: State, mask: Address) {
    mask != 0 && forall a | a in Targets(mask) :: Available(s, a)
  }

  // A plain VOLUME command has no request until volume data are staged.
  predicate EmptyRequest(s: State, cmd: Command) { cmd.tech.VOLUME? && cmd.data.None? && !s.staged }

  predicate Hollow(s: State, tech: TechCommand) { tech.VOLUME? && !s.staged }

  // ---------- Elementary updates ----------

  function Refresh(s: State): State {
    s.(busy := exists a | a in s.contexts :: !s.contexts[a].completed)
  }

  // transitionState: leaving for Idle forgets the context, becoming Ready posts a wake-up.
  function Transition(s: State, a: Address, next: PPBState): State {
    if StateOf(s, a) == next then s
    else
      var s' := match next
        case Idle => s.(contexts := s.contexts - {a})
        case Ready => s.(posted := s.posted + multiset{WakeUp(a)})
        case Sending => s;
      s'.(states := s'.states[a := next])
  }

  function NewCommand(s: State, tech: TechCommand, data: Option<seq<byte>>, group: nat): Command {
    Command(tech, data, s.hist.serials, group)
  }

  function Create(s: State): State {
    s.(hist := s.hist.(fate := s.hist.fate[s.hist.serials := InHand(false)], serials := s.hist.serials + 1))
  }

  function Enqueue(s: State, a: Address, cmd: Command): State {
    s.(queues := s.queues[a := QueueOf(s, a) + [cmd]],
       hist := s.hist.(fate := s.hist.fate[cmd.serial := Queued(a)]))
  }

  function Dequeue(s: State, a: Address): State
    requires QueueOf(s, a) != []
  {
    var q := s.queues[a];
    s.(queues := if |q| == 1 then s.queues - {a} else s.queues[a := q[1..]],
       hist := s.hist.(fate := s.hist.fate[q[0].serial := InHand(true)]))
  }

  function Drop(s: State, cmd: Command): State {
    s.(hist := s.hist.(fate := s.hist.fate[cmd.serial := Dropped]))
  }

  function FromQueue(s: State, cmd: Command): bool {
    cmd.serial in s.hist.fate && s.hist.fate[cmd.serial] == InHand(true)
  }

  // The fates after `cmd` takes the context of `a`: a live command there is lost.
  function Installed(s: State, a: Address, cmd: Command): map<nat, Fate> {
    (if Live(s, a) then s.hist.fate[s.contexts[a].command.serial := Overwritten] else s.hist.fate)
      [cmd.serial := Active(a)]
  }

  /** executeCommandImmediately up to updateBusyState: the move assignment keeps the parse
      results of the context it overwrites. */
  function Begin(s: State, a: Address, cmd: Command, suppress: bool): (r: State)
    ensures r == s.(contexts := r.contexts, states := r.states, busy := r.busy, hist := r.hist)
    ensures r.hist == s.hist.(fate := r.hist.fate, starts := r.hist.starts) && s.hist.starts <= r.hist.starts
  {
    var parsed := if a in s.contexts then s.contexts[a].parsed else NoParse;
    var s' := s.(contexts := s.contexts[a := Context(cmd, false, false, suppress, parsed)],
                 hist := s.hist.(fate := Installed(s, a, cmd),
                                 starts := s.hist.starts + [Start(a, cmd, FromQueue(s, cmd), GroupsOpen(s))]));
    Refresh(Transition(s', a, Sending))
  }

  function Arm(s: State, a: Address): State
    requires a in s.contexts
  {
    s.(contexts := s.contexts[a := s.contexts[a].(armed := true)])
  }

  function SetParseResult(s: State, a: Address, ok: bool, message: Message): State
    requires a in s.contexts
  {
    s.(contexts := s.contexts[a := s.contexts[a].(parsed := s.contexts[a].parsed.(ok := ok, message := message))])
  }

  function SetParseData(s: State, a: Address, data: Data): State
    requires a in s.contexts
  {
    s.(contexts := s.contexts[a := s.contexts[a].(parsed := s.contexts[a].parsed.(data := data))])
  }

  function SetParse(s: State, a: Address, p: Parse): State
    requires a in s.contexts
  {
    SetParseData(SetParseResult(s, a, p.ok, p.message), a, p.data)
  }

  /** completeOperation up to transitionState: the timer stops, the signals carry the parse
      results, the results are cleared and the address leaves Sending. */
  function Finish(s: State, a: Address, ok: bool, msg: Message): (r: State)
    requires Live(s, a)
    ensures r == s.(contexts := r.contexts, states := r.states, busy := r.busy, posted := r.posted, hist := r.hist)
    ensures r.hist == s.hist.(fate := r.hist.fate, completions := r.hist.completions)
    ensures s.hist.completions <= r.hist.completions
  {
    var ctx := s.contexts[a];
    var text := if ctx.parsed.message == NoText then msg else ctx.parsed.message;
    var s' := s.(contexts := s.contexts[a := ctx.(completed := true, armed := false, parsed := NoParse)],
                 hist := s.hist.(fate := s.hist.fate[ctx.command.serial := Finished(a, ok)],
                                 completions := s.hist.completions + [Completion(a, ctx.command, ok, text, ctx.parsed.data)]));
    Transition(Refresh(s'), a, if ok then Ready else Idle)
  }

  // One group after the result of `a` is recorded in it.
  function Record(g: GroupInfo, a: Address, ok: bool): GroupInfo {
    if a in g.waiting then GroupInfo(g.waiting - {a}, g.results[a := ok]) else g
  }

  predicate Closes(g: GroupInfo, a: Address) { g.waiting == {a} }

  predicate AllTrue(results: map<Address, bool>) { forall a | a in results :: results[a] }

  // The verdicts of the groups `a` closes, for ids in [from, to), in ascending order.
  function Verdicts(groups: map<nat, GroupInfo>, a: Address, ok: bool, from: nat, to: nat): seq<Verdict>
    decreases to - from
  {
    if from >= to then []
    else
      var rest := Verdicts(groups, a, ok, from + 1, to);
      if from in groups && Closes(groups[from], a)
      then var results := Record(groups[from], a, ok).results; [Verdict(from, AllTrue(results), results)] + rest
      else rest
  }

  /** The group loop of completeOperation. */
  function Settle(s: State, a: Address, ok: bool): (r: State)
    ensures r == s.(groups := r.groups, hist := s.hist.(verdicts := r.hist.verdicts))
    ensures s.hist.verdicts <= r.hist.verdicts
  {
    s.(groups := map id | id in s.groups && !Closes(s.groups[id], a) :: Record(s.groups[id], a, ok),
       hist := s.hist.(verdicts := s.hist.verdicts + Verdicts(s.groups, a, ok, 0, s.nextGroupId)))
  }

  // A group becomes active: every target is still to answer.
  function OpenGroup(s: State, g: Group): State {
    s.(groups := s.groups[g.id := GroupInfo(TargetSet(g.mask), map[])],
       hist := s.hist.(hollow := s.hist.hollow || Hollow(s, g.tech)))
  }

  function PopPending(s: State): State
    requires s.pending != []
  {
    s.(pending := s.pending[1..], hist := s.hist.(released := s.hist.released + [s.pending[0].id]))
  }

  function AcceptGroup(s: State, tech: TechCommand, mask: Address): State {
    var g := Group(s.nextGroupId, tech, mask);
    s.(nextGroupId := s.nextGroupId + 1, hist := s.hist.(requests := s.hist.requests[g.id := g]))
  }

  function Defer(s: State, g: Group): State { s.(pending := s.pending + [g]) }

  function Post(s: State): State { s.(posted := s.posted + multiset{Drain}) }

  function Take(s: State, p: Posted): State { s.(posted := s.posted - multiset{p}) }

  function Unstage(s: State): State { s.(staged := false) }

  function Stage(s: State): State { s.(staged := true) }

  function ReportFu(s: State, a: Address, command: byte, ok: bool): State {
    s.(hist := s.hist.(fuReports := s.hist.fuReports + [FuReport(a, command, ok)]))
  }

  // The fates after the commands of one queue are removed.
  function Removed(fate: map<nat, Fate>, a: Address): map<nat, Fate> {
    map n | n in fate :: if fate[n] == Queued(a) then Cleared else fate[n]
  }

  function ClearQueue(s: State, a: Address): State {
    s.(queues := s.queues - {a}, hist := s.hist.(fate := Removed(s.hist.fate, a)))
  }

  /** disconnect: queues, groups and states go, contexts and timers stay. */
  function Disconnect(s: State): State {
    s.(queues := map[], pending := [], groups := map[], states := map[],
       hist := s.hist.(
         fate := map n | n in s.hist.fate :: if s.hist.fate[n].Queued? then Disconnected else s.hist.fate[n],
         abandoned := s.hist.abandoned + s.groups.Keys + (set g | g in s.pending :: g.id),
         disconnected := true))
  }
}
