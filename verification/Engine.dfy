/** The command engine as the source has it: one object whose methods update its maps, queues and
    flags in place and call each other. Every method is proved to do exactly what EngineSpec says,
    so the theorems about runs are theorems about this object. */
module Engine {
  import opened Protocol
  import opened EngineState
  import Spec = EngineSpec

  lemma {:induction false} VerdictsSplit(groups: map<nat, GroupInfo>, a: Address, ok: bool, from: nat, mid: nat, to: nat)
    requires from <= mid <= to
    ensures Verdicts(groups, a, ok, from, to) == Verdicts(groups, a, ok, from, mid) + Verdicts(groups, a, ok, mid, to)
    decreases mid - from
  {
    if from < mid {
      VerdictsSplit(groups, a, ok, from + 1, mid, to);
    }
  }

  // The groups after the loop has passed the ids below `id`.
  function SettledBelow(before: map<nat, GroupInfo>, a: Address, ok: bool, id: nat): map<nat, GroupInfo> {
    map x | x in before && !(x < id && Closes(before[x], a)) :: if x < id then Record(before[x], a, ok) else before[x]
  }

  lemma SettledStep(before: map<nat, GroupInfo>, a: Address, ok: bool, id: nat)
    ensures var at, next := SettledBelow(before, a, ok, id), SettledBelow(before, a, ok, id + 1);
      && (id in at <==> id in before) && (id in at ==> at[id] == before[id])
      && (if id in before && a in before[id].waiting then
            next == if Closes(before[id], a) then at - {id} else at[id := Record(before[id], a, ok)]
          else next == at)
    ensures Verdicts(before, a, ok, 0, id + 1) == Verdicts(before, a, ok, 0, id) +
      (if id in before && Closes(before[id], a)
       then [Verdict(id, AllTrue(Record(before[id], a, ok).results), Record(before[id], a, ok).results)] else [])
  {
    VerdictsSplit(before, a, ok, 0, id, id + 1);
    assert Verdicts(before, a, ok, id + 1, id + 1) == [];
  }

  lemma SettledNone(before: map<nat, GroupInfo>, a: Address, ok: bool)
    ensures SettledBelow(before, a, ok, 0) == before && Verdicts(before, a, ok, 0, 0) == []
  {
  }

  lemma SettledAll(before: map<nat, GroupInfo>, a: Address, ok: bool, next: nat)
    requires forall x :: x in before ==> x < next
    ensures SettledBelow(before, a, ok, next) == map x | x in before && !Closes(before[x], a) :: Record(before[x], a, ok)
  {
  }

  class CommunicationEngine {
    var states: map<Address, PPBState>
    var contexts: map<Address, Context>
    var queues: map<Address, seq<Command>>
    var groups: map<nat, GroupInfo>
    var pending: seq<Group>
    var nextGroupId: nat
    var busy: bool
    var staged: bool
    var posted: multiset<Posted>
    var hist: History

    function Model(): State
      reads this
    {
      State(states, contexts, queues, groups, pending, nextGroupId, busy, staged, posted, hist)
    }

    // Every group held was issued its id before.
    ghost predicate Valid()
      reads this
    {
      (forall id :: id in groups ==> id < nextGroupId) && (forall g :: g in pending ==> g.id < nextGroupId)
    }

    constructor ()
      ensures Valid() && Model() == NewEngine
    {
      states, contexts, queues, groups, pending := map[], map[], map[], map[], [];
      nextGroupId, busy, staged, posted := 1, false, false, multiset{};
      hist := NewHistory;
    }

    // ---------- Queues, states, contexts ----------

    method CreateCommand(tech: TechCommand, data: Option<seq<byte>>, group: nat) returns (cmd: Command)
      requires Valid()
      modifies this
      ensures Valid() && Model() == Create(old(Model())) && cmd == NewCommand(old(Model()), tech, data, group)
    {
      cmd := Command(tech, data, hist.serials, group);
      hist := hist.(fate := hist.fate[hist.serials := InHand(false)], serials := hist.serials + 1);
    }

    method EnqueueCommand(a: Address, cmd: Command)
      requires Valid()
      modifies this
      ensures Valid() && Model() == Enqueue(old(Model()), a, cmd)
    {
      queues := queues[a := (if a in queues then queues[a] else []) + [cmd]];
      hist := hist.(fate := hist.fate[cmd.serial := Queued(a)]);
    }

    method DequeueCommand(a: Address) returns (cmd: Command)
      requires Valid() && QueueOf(Model(), a) != []
      modifies this
      ensures Valid() && Model() == Dequeue(old(Model()), a) && cmd == QueueOf(old(Model()), a)[0]
    {
      cmd := queues[a][0];
      var rest := queues[a][1..];
      if rest == [] {
        queues := queues - {a};
      } else {
        queues := queues[a := rest];
      }
      hist := hist.(fate := hist.fate[cmd.serial := InHand(true)]);
    }

    method TransitionState(a: Address, next: PPBState)
      requires Valid()
      modifies this
      ensures Valid() && Model() == Transition(old(Model()), a, next)
    {
      var oldState := if a in states then states[a] else Idle;
      if oldState == next {
        return;
      }
      match next {
        case Idle => contexts := contexts - {a};
        case Ready => posted := posted + multiset{WakeUp(a)};
        case Sending =>
      }
      states := states[a := next];
    }

    // updateBusyState: the contexts are scanned until an uncompleted one is found.
    method UpdateBusyState()
      requires Valid()
      modifies this
      ensures Valid() && Model() == Refresh(old(Model()))
    {
      var found := false;
      var rest := contexts.Keys;
      while rest != {} && !found
        invariant rest <= contexts.Keys && Model() == old(Model()) && Valid()
        invariant found ==> exists a | a in contexts :: !contexts[a].completed
        invariant !found ==> forall a | a in contexts && !contexts[a].completed :: a in rest
        decreases rest, !found
      {
        var a :| a in rest;
        if !contexts[a].completed {
          found := true;
        }
        rest := rest - {a};
      }
      busy := found;
    }

    method SetCommandParseResult(a: Address, ok: bool, message: Message)
      requires Valid() && a in contexts
      modifies this
      ensures Valid() && Model() == SetParseResult(old(Model()), a, ok, message)
    {
      contexts := contexts[a := contexts[a].(parsed := contexts[a].parsed.(ok := ok, message := message))];
    }

    method SetCommandParseData(a: Address, data: Data)
      requires Valid() && a in contexts
      modifies this
      ensures Valid() && Model() == SetParseData(old(Model()), a, data)
    {
      contexts := contexts[a := contexts[a].(parsed := contexts[a].parsed.(data := data))];
    }

    // canStartGroupCommand: the mask is scanned bit by bit, up to the first busy address.
    method CanStartGroupCommand(mask: Address) returns (can: bool)
      ensures can == CanStart(Model(), mask)
    {
      var m: nat, unit: nat := mask, 1;
      while unit <= 0x8000
        invariant 0 < unit
        invariant CanAll(Model(), Targets(mask)) == CanAll(Model(), TargetsFrom(m, unit))
        decreases 0x1_0000 - unit
      {
        if m % 2 == 1 && StateOf(Model(), unit).Sending? {
          assert unit in TargetsFrom(m, unit);
          return false;
        }
        ghost var rest := TargetsFrom(m / 2, unit * 2);
        assert m % 2 == 1 ==> TargetsFrom(m, unit) == [unit] + rest;
        m, unit := m / 2, unit * 2;
      }
      return mask != 0;
    }

    ghost predicate CanAll(s: State, todo: seq<Address>) { forall a | a in todo :: Available(s, a) }

    // ---------- Starting and completing ----------

    method ExecuteCommandImmediately(a: Address, cmd: Command, suppress: bool, sent: bool)
      requires Valid()
      modifies this
      ensures Valid() && Model() == Spec.Exec(old(Model()), a, cmd, suppress, sent)
      decreases |pending|, 3, 1
    {
      if !Available(Model(), a) {
        hist := hist.(fate := hist.fate[cmd.serial := Dropped]);
        return;
      }
      BeginCommand(a, cmd, suppress);
      RunCommand(a, cmd, suppress, sent);
    }

    // The rest of executeCommandImmediately: build the request, send it, arm the timer.
    method RunCommand(a: Address, cmd: Command, suppress: bool, sent: bool)
      requires Valid() && Live(Model(), a)
      modifies this
      ensures Valid() && Model() == Spec.Begun(old(Model()), a, cmd, suppress, sent)
      decreases |pending|, 3, 0
    {
      hide GroupsOpen, NewCommand, Create, Begin, Finish, Settle, OpenGroup;
      if cmd.tech.VOLUME? && cmd.data.None? && !staged {
        CompleteOperation(a, false, NotBuilt);
      } else if !suppress && cmd.tech.VOLUME? {
        staged := false;
        CompleteOperation(a, sent, if sent then VolumeSent else VolumeNotSent);
      } else {
        contexts := contexts[a := contexts[a].(armed := true)];
      }
    }

    // The fresh context keeps the parse results of the one it overwrites.
    method BeginCommand(a: Address, cmd: Command, suppress: bool)
      requires Valid()
      modifies this
      ensures Valid() && Model() == Begin(old(Model()), a, cmd, suppress)
    {
      hide Transition;
      hist := hist.(fate := Installed(Model(), a, cmd),
                    starts := hist.starts + [Start(a, cmd, FromQueue(Model(), cmd), GroupsOpen(Model()))]);
      var parsed := if a in contexts then contexts[a].parsed else NoParse;
      contexts := contexts[a := Context(cmd, false, false, suppress, parsed)];
      TransitionState(a, Sending);
      UpdateBusyState();
    }

    method CompleteOperation(a: Address, ok: bool, msg: Message)
      requires Valid()
      modifies this
      ensures Valid() && Model() == Spec.Complete(old(Model()), a, ok, msg)
      decreases |pending|, 2, 0
    {
      if !(a in contexts && !contexts[a].completed) {
        return;
      }
      FinishOperation(a, ok, msg);
      SettleGroups(a, ok);
      TryStartPendingGroupCommands();
      ReleaseQueues();
    }

    // Without a group left, a poll is posted for the commands held back at address 0.
    method ReleaseQueues()
      requires Valid()
      modifies this
      ensures Valid() && Model() == Spec.Release(old(Model()))
    {
      if groups == map[] && pending == [] {
        posted := posted + multiset{Drain};
      }
    }

    method FinishOperation(a: Address, ok: bool, msg: Message)
      requires Valid() && Live(Model(), a)
      modifies this
      ensures Valid() && Model() == Finish(old(Model()), a, ok, msg)
    {
      hide Transition, Refresh;
      var ctx := contexts[a].(completed := true, armed := false);
      var text := if ctx.parsed.message == NoText then msg else ctx.parsed.message;
      hist := hist.(completions := hist.completions + [Completion(a, ctx.command, ok, text, ctx.parsed.data)],
                    fate := hist.fate[ctx.command.serial := Finished(a, ok)]);
      contexts := contexts[a := ctx.(parsed := NoParse)];
      UpdateBusyState();
      TransitionState(a, if ok then Ready else Idle);
    }

    // The group loop of completeOperation, in ascending id order as std::map iterates.
    method SettleGroups(a: Address, ok: bool)
      requires Valid()
      modifies this
      ensures Valid() && Model() == Settle(old(Model()), a, ok)
    {
      hide Verdicts, SettledBelow;
      ghost var before := groups;
      SettledNone(before, a, ok);
      for id := 0 to nextGroupId
        invariant Valid() && (forall x :: x in before ==> x < nextGroupId)
        invariant Model() == old(Model()).(groups := groups, hist := hist)
        invariant groups == SettledBelow(before, a, ok, id)
        invariant hist == old(hist).(verdicts := old(hist).verdicts + Verdicts(before, a, ok, 0, id))
      {
        SettledStep(before, a, ok, id);
        if id in groups && a in groups[id].waiting {
          var g := GroupInfo(groups[id].waiting - {a}, groups[id].results[a := ok]);
          if g.waiting == {} {
            hist := hist.(verdicts := hist.verdicts + [Verdict(id, AllTrue(g.results), g.results)]);
            groups := groups - {id};
          } else {
            groups := groups[id := g];
          }
        }
      }
      SettledAll(before, a, ok, nextGroupId);
    }

    method TryStartPendingGroupCommands()
      requires Valid()
      modifies this
      ensures Valid() && Model() == Spec.TryStart(old(Model()))
      decreases |pending|, 1, 0
    {
      if pending == [] {
        return;
      }
      var can := CanStartGroupCommand(pending[0].mask);
      if !can {
        return;
      }
      var g := pending[0];
      assert g in pending;
      hist := hist.(released := hist.released + [g.id]);
      pending := pending[1..];
      // The mask was just checked, so the start cannot be refused.
      var started := StartGroupCommand(g);
      assert started;
    }

    method StartGroupCommand(g: Group) returns (started: bool)
      requires Valid() && g.id < nextGroupId
      modifies this
      ensures Valid() && started == CanStart(old(Model()), g.mask)
      ensures Model() == if started then Spec.StartGroup(old(Model()), g) else old(Model())
      decreases |pending|, 5, 0
    {
      started := CanStartGroupCommand(g.mask);
      if !started {
        return;
      }
      hist := hist.(hollow := hist.hollow || Hollow(Model(), g.tech));
      groups := groups[g.id := GroupInfo(TargetSet(g.mask), map[])];
      var todo := Targets(g.mask);
      ghost var goal := Spec.StartLoop(Model(), todo, g);
      while todo != []
        invariant Valid() && Spec.StartLoop(Model(), todo, g) == goal && |pending| <= |old(pending)|
        decreases |todo|
      {
        var cmd := CreateCommand(g.tech, None, g.id);
        ExecuteCommandImmediately(todo[0], cmd, true, false);
        todo := todo[1..];
      }
    }

    // ---------- Calls from outside ----------

    // Both overloads of executeCommand.
    method ExecuteCommand(tech: TechCommand, data: Option<seq<byte>>, a: Address, sent: bool)
      requires Valid()
      modifies this
      ensures Valid() && Model() == Spec.Submit(old(Model()), tech, data, a, sent)
    {
      if data.None? && !Known(tech) {
        return;
      }
      var gated := a == 0 && (groups != map[] || pending != []);
      var cmd := CreateCommand(tech, data, 0);
      if gated || !Available(Model(), a) {
        EnqueueCommand(a, cmd);
      } else {
        ExecuteCommandImmediately(a, cmd, false, sent);
      }
    }

    // Returns 0 when the group is refused.
    method ExecuteGroupCommand(tech: TechCommand, mask: Address) returns (id: nat)
      requires Valid()
      modifies this
      ensures Valid() && Model() == Spec.SubmitGroup(old(Model()), tech, mask)
      ensures id == if mask == 0 || !Known(tech) then 0 else old(nextGroupId)
    {
      hide Spec.StartGroup;
      if mask == 0 || !Known(tech) {
        return 0;
      }
      id := nextGroupId;
      var g := Group(id, tech, mask);
      nextGroupId := nextGroupId + 1;
      hist := hist.(requests := hist.requests[id := g]);
      var can := CanStartGroupCommand(mask);
      if !can {
        pending := pending + [g];
        return;
      }
      // The mask was just checked, so the start cannot be refused.
      var started := StartGroupCommand(g);
      assert started;
    }

    method ConnectToPPB(a: Address)
      requires Valid()
      modifies this
      ensures Valid() && Model() == Spec.Connect(old(Model()), a)
    {
      var cmd := CreateCommand(TS, None, 0);
      EnqueueCommand(a, cmd);
    }

    method ProcessNextCommandForAddress(a: Address, sent: bool)
      requires Valid()
      modifies this
      ensures Valid() && Model() == Spec.ProcessNext(old(Model()), a, sent)
    {
      if !StateOf(Model(), a).Ready? || !(a in queues && queues[a] != []) {
        return;
      }
      var cmd := DequeueCommand(a);
      ExecuteCommandImmediately(a, cmd, false, sent);
    }

    // `order` is the order in which the hash table lists the addresses.
    method ProcessCommandQueue(order: seq<Address>, delivered: set<Address>)
      requires Valid()
      modifies this
      ensures Valid() && Model() == Spec.ProcessQueue(old(Model()), order, delivered)
    {
      ghost var goal := Spec.ProcessQueue(Model(), order, delivered);
      var rest := order;
      while rest != []
        invariant Valid() && Spec.ProcessQueue(Model(), rest, delivered) == goal
        decreases |rest|
      {
        var a := rest[0];
        if !(a == 0 && (groups != map[] || pending != [])) {
          if Available(Model(), a) && a in queues && queues[a] != [] {
            var cmd := DequeueCommand(a);
            ExecuteCommandImmediately(a, cmd, false, a in delivered);
          }
        }
        rest := rest[1..];
      }
    }

    method OnOperationTimeout(a: Address)
      requires Valid()
      modifies this
      ensures Valid() && Model() == Spec.Timeout(old(Model()), a)
    {
      if !(a in contexts && !contexts[a].completed) {
        return;
      }
      CompleteOperation(a, false, TimedOut);
    }

    method ClearCommandQueue(a: Address)
      requires Valid()
      modifies this
      ensures Valid() && Model() == ClearQueue(old(Model()), a)
    {
      if a in queues {
        queues := queues - {a};
      }
      hist := hist.(fate := Removed(hist.fate, a));
    }

    method DisconnectAll()
      requires Valid()
      modifies this
      ensures Valid() && Model() == Disconnect(old(Model()))
    {
      hist := Disconnect(Model()).hist;
      queues, pending, groups, states := map[], [], map[], map[];
    }

    // ---------- Datagrams ----------

    method ReportParse(a: Address, p: Parse)
      requires Valid() && Live(Model(), a)
      modifies this
      ensures Valid() && Model() == Spec.Report(old(Model()), a, p)
    {
      SetCommandParseResult(a, p.ok, p.message);
      SetCommandParseData(a, p.data);
      CompleteOperation(a, p.ok, p.message);
    }

    method OnOkReceived(a: Address)
      requires Valid() && Live(Model(), a)
      modifies this
      ensures Valid() && Model() == Spec.OnOk(old(Model()), a)
    {
      var cmd := contexts[a].command;
      if cmd.data.None? && cmd.tech.VOLUME? {
        staged := false;
      }
      if Spec.CompletesOnOk(cmd) {
        CompleteOperation(a, true, Acknowledged(cmd.tech));
      }
      CompleteOperation(a, true, Done);
    }

    method OnCommandData(a: Address, payload: seq<byte>)
      requires Valid() && Live(Model(), a)
      modifies this
      ensures Valid() && Model() == Spec.OnData(old(Model()), a, payload)
    {
      var cmd := contexts[a].command;
      var p := Spec.ParsePayload(cmd, payload, contexts[a].parsed.data);
      SetCommandParseResult(a, p.ok, p.message);
      SetCommandParseData(a, p.data);
      if Spec.CompletesOnData(cmd) {
        CompleteOperation(a, p.ok, p.message);
      }
      if a in contexts && !contexts[a].completed {
        CompleteOperation(a, contexts[a].parsed.ok, contexts[a].parsed.message);
      }
    }

    method OnDataReceived(data: seq<byte>)
      requires Valid()
      modifies this
      ensures Valid() && Model() == Spec.Receive(old(Model()), data)
    {
      hide Targets, ParseTUResponse, ParseBridgeResponse, Available, GroupsOpen, CanStart, EmptyRequest, NewCommand,
        Begin, SetParse, Finish, Settle, PopPending;
      if |data| < 2 {
        return;
      }
      var a := Word(data[0], data[1]);
      var bridge := ParseBridgeResponse(data);
      if a in contexts && !contexts[a].completed {
        var cmd := contexts[a].command;
        if cmd.tech.IS_YOU? && bridge.Some? {
          ReportParse(a, Spec.IsYouReport(bridge.value));
          return;
        }
        var reply := ParseTUResponse(data);
        if reply.Some? {
          match reply.value {
            case ErrorReply(_, status) => CompleteOperation(a, false, DeviceError(status));
            case OkReply(_, echo) =>
              if echo.Some? && echo.value != Code(cmd.tech) {
                return;
              }
              OnOkReceived(a);
            case DataReply(_, payload) => OnCommandData(a, payload);
          }
          return;
        }
        if bridge.Some? {
          CompleteOperation(a, false, UnexpectedBridge);
          return;
        }
      }
      if bridge.Some? {
        OnBridgeResponse(bridge.value);
      }
    }

    method OnBridgeResponse(reply: BridgeReply)
      requires Valid()
      modifies this
      ensures Valid() && Model() == Spec.OnBridgeReply(old(Model()), reply)
    {
      var b := BridgeAddress(reply);
      if b in contexts && !contexts[b].completed {
        ReportParse(b, Spec.BridgeReport(contexts[b].command, reply));
      } else {
        var report := match reply
          case BridgeStatus(x, command, status) => FuReport(x, command, status == 1)
          case _ => FuReport(0, 0, false);
        hist := hist.(fuReports := hist.fuReports + [report]);
      }
    }

    // ---------- Any step of a run ----------

    // setCurrentVolumeData, called by the controller between the engine's own calls.
    method StageVolume()
      requires Valid()
      modifies this
      ensures Valid() && Model() == Stage(old(Model()))
    {
      staged := true;
    }

    // The event loop delivers a call posted earlier.
    method TakePosted(p: Posted)
      requires Valid()
      modifies this
      ensures Valid() && Model() == Take(old(Model()), p)
    {
      posted := posted - multiset{p};
    }

    /** Whatever the event loop delivers, the object takes that step of the run: what is proved of
        runs holds of every history of this object. */
    method Perform(step: Spec.Step)
      requires Valid() && Spec.Enabled(Model(), step)
      modifies this
      ensures Valid() && Model() == Spec.Apply(old(Model()), step)
    {
      hide Valid, Spec.Submit, Spec.SubmitGroup, Spec.Connect, Spec.Receive, Spec.ProcessQueue, Spec.ProcessNext;
      match step {
        case SubmitStep(tech, data, a, sent) => ExecuteCommand(tech, data, a, sent);
        case GroupStep(tech, mask) =>
          var id := ExecuteGroupCommand(tech, mask);
        case ConnectStep(a) => ConnectToPPB(a);
        case DatagramStep(bytes) => OnDataReceived(bytes);
        case TimeoutStep(a) => OnOperationTimeout(a);
        case TickStep(order, delivered) => ProcessCommandQueue(order, delivered);
        case WakeUpStep(a, sent) =>
          TakePosted(WakeUp(a));
          ProcessNextCommandForAddress(a, sent);
        case DrainStep(order, delivered) =>
          TakePosted(Drain);
          ProcessCommandQueue(order, delivered);
        case ClearStep(a) => ClearCommandQueue(a);
        case DisconnectStep => DisconnectAll();
        case StageStep => StageVolume();
      }
    }
  }
}
