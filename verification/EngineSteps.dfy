/** Every step of a run leads from rest to rest by legal actions. */
module EngineSteps {
  import opened Protocol
  import opened EngineState
  import opened EngineSpec
  import opened EngineTrace
  import opened EngineReplay

  // The actions between two states at rest.
  ghost predicate Moves(s: State, acts: seq<Action>, t: State) { Leads(AtRest(s), acts, AtRest(t)) }

  lemma Chain(s: State, xs: seq<Action>, t: State, ys: seq<Action>, u: State)
    requires Ids(AtRest(s)) && Moves(s, xs, t) && Moves(t, ys, u)
    ensures Moves(s, xs + ys, u) && Ids(AtRest(u))
  {
    Join(AtRest(s), xs, AtRest(t), ys, AtRest(u));
    IdsFold(AtRest(s), xs + ys, AtRest(u));
  }

  lemma CompleteMoves(s: State, a: Address, ok: bool, msg: Message) returns (acts: seq<Action>)
    requires Ids(AtRest(s))
    ensures Internal(acts) && Moves(s, acts, Complete(s, a, ok, msg)) && Ids(AtRest(Complete(s, a, ok, msg)))
    ensures Live(s, a) ==> acts != [] && acts[0].DoFinish?
  {
    if Live(s, a) {
      acts := CompleteReplay(AtRest(s), a, ok, msg);
      IdsFold(AtRest(s), acts, AtRest(Complete(s, a, ok, msg)));
    } else {
      acts := [];
    }
  }

  // Setting parse results and completing with them.
  lemma ReportMoves(s: State, a: Address, p: Parse, ok: bool, msg: Message) returns (acts: seq<Action>)
    requires Ids(AtRest(s)) && Live(s, a)
    ensures Internal(acts) && Moves(s, acts, Complete(SetParse(s, a, p), a, ok, msg))
    ensures Ids(AtRest(Complete(SetParse(s, a, p), a, ok, msg)))
  {
    var parse := DoParse(a, p);
    var c := Do(AtRest(s), parse);
    One(AtRest(s), parse);
    IdsKept(AtRest(s), parse);
    var rest := CompleteReplay(c, a, ok, msg);
    var t := Complete(SetParse(s, a, p), a, ok, msg);
    assert c.(st := t, begun := None, parsing := None) == AtRest(t);
    Join(AtRest(s), [parse], c, rest, AtRest(t));
    acts := [parse] + rest;
    IdsFold(AtRest(s), acts, AtRest(t));
  }

  // A fresh or dequeued command of its own is started.
  lemma ExecMoves(s: State, first: Action, sent: bool) returns (acts: seq<Action>)
    requires Ids(AtRest(s)) && Guard(AtRest(s), first) && (first.DoCreate? || first.DoDequeue?)
    requires first.DoDequeue? ==> QueueOf(s, first.address)[0].group == 0
    requires Available(s, first.address) && (first.address == 0 ==> !GroupsOpen(s) || (first.DoDequeue? && first.woken))
    ensures acts != [] && acts[0] == first && Internal(acts[1..])
    ensures
      var c := Do(AtRest(s), first);
      var t := Exec(c.st, c.hand.value.address, c.hand.value.command, false, sent);
      Moves(s, acts, t) && Ids(AtRest(t))
  {
    var c := Do(AtRest(s), first);
    One(AtRest(s), first);
    IdsKept(AtRest(s), first);
    var rest := ExecReplay(c, false, sent);
    var t := Exec(c.st, c.hand.value.address, c.hand.value.command, false, sent);
    assert Placed(c).(st := t) == AtRest(t);
    Join(AtRest(s), [first], c, rest, AtRest(t));
    acts := [first] + rest;
    assert acts[1..] == rest;
    IdsFold(AtRest(s), acts, AtRest(t));
  }

  // Queues hold commands of their own only.
  predicate PlainQueues(s: State) { forall a | a in s.queues :: forall cmd | cmd in s.queues[a] :: cmd.group == 0 }

  // No group is accepted and nothing is disconnected.
  predicate Plain(acts: seq<Action>) { forall act | act in acts :: !act.DoOpen? && !act.DoDefer? && !act.DoDisconnect? }

  // The first action accepts the group, the rest is plain.
  predicate Accepting(acts: seq<Action>, tech: TechCommand, mask: Address) {
    acts == [] || (acts[0] in {DoOpen(tech, mask), DoDefer(tech, mask)} && Plain(acts[1..]))
  }

  lemma SubmitMoves(s: State, tech: TechCommand, data: Option<seq<byte>>, a: Address, sent: bool) returns (acts: seq<Action>)
    requires Ids(AtRest(s))
    ensures Moves(s, acts, Submit(s, tech, data, a, sent)) && Plain(acts)
  {
    hide Exec;
    if data.None? && !Known(tech) {
      acts := [];
    } else if (a == 0 && GroupsOpen(s)) || !Available(s, a) {
      acts := EnqueueMoves(s, tech, data, a);
    } else {
      acts := ExecMoves(s, DoCreate(tech, data, a), sent);
      assert acts == [acts[0]] + acts[1..];
    }
  }

  lemma EnqueueMoves(s: State, tech: TechCommand, data: Option<seq<byte>>, a: Address) returns (acts: seq<Action>)
    ensures Moves(s, acts, Enqueue(Create(s), a, NewCommand(s, tech, data, 0))) && Plain(acts)
  {
    var create := DoCreate(tech, data, a);
    var c := Do(AtRest(s), create);
    One(AtRest(s), create);
    One(c, DoEnqueue);
    Join(AtRest(s), [create], c, [DoEnqueue], Do(c, DoEnqueue));
    acts := [create] + [DoEnqueue];
    assert Do(c, DoEnqueue) == AtRest(Do(c, DoEnqueue).st);
  }

  lemma GroupMoves(s: State, tech: TechCommand, mask: Address) returns (acts: seq<Action>)
    requires Ids(AtRest(s))
    ensures Moves(s, acts, SubmitGroup(s, tech, mask)) && Accepting(acts, tech, mask)
  {
    if mask == 0 || !Known(tech) {
      acts := [];
    } else if CanStart(s, mask) {
      acts := OpenMoves(s, tech, mask);
    } else {
      acts := [DoDefer(tech, mask)];
      One(AtRest(s), acts[0]);
    }
  }

  lemma OpenMoves(s: State, tech: TechCommand, mask: Address) returns (acts: seq<Action>)
    requires Ids(AtRest(s)) && CanStart(s, mask)
    ensures Moves(s, acts, StartGroup(AcceptGroup(s, tech, mask), NewGroup(s, tech, mask))) && Accepting(acts, tech, mask)
  {
    var g := NewGroup(s, tech, mask);
    var open := DoOpen(tech, mask);
    var c := Do(AtRest(s), open);
    One(AtRest(s), open);
    IdsKept(AtRest(s), open);
    TargetsSound(mask);
    var rest := StartLoopReplay(c, Targets(mask), g);
    var t := StartLoop(c.st, Targets(mask), g);
    assert c.(st := t, owed := c.owed - Owed(g)) == AtRest(t);
    Join(AtRest(s), [open], c, rest, AtRest(t));
    acts := [open] + rest;
    assert acts[1..] == rest;
  }

  lemma OneMoves(s: State, act: Action, t: State)
    requires Ids(AtRest(s)) && Guard(AtRest(s), act) && Do(AtRest(s), act) == AtRest(t)
    ensures Moves(s, [act], t) && Ids(AtRest(t))
  {
    One(AtRest(s), act);
    IdsKept(AtRest(s), act);
  }

  // processNextCommandForAddress after the posted call was taken.
  lemma NextMoves(s: State, a: Address, sent: bool) returns (acts: seq<Action>)
    requires Ids(AtRest(s)) && PlainQueues(s) && WakeUp(a) in s.posted
    ensures Internal(acts) && Moves(s, acts, ProcessNext(Take(s, WakeUp(a)), a, sent))
  {
    if !StateOf(s, a).Ready? || QueueOf(s, a) == [] {
      acts := [DoTake(WakeUp(a))];
      OneMoves(s, acts[0], Take(s, WakeUp(a)));
    } else {
      acts := ExecMoves(s, DoDequeue(a, true), sent);
    }
  }

  predicate Runnable(s: State, a: Address) { !(a == 0 && GroupsOpen(s)) && Available(s, a) && QueueOf(s, a) != [] }

  lemma {:induction false} QueueMoves(s: State, order: seq<Address>, delivered: set<Address>) returns (acts: seq<Action>)
    requires Ids(AtRest(s)) && PlainAlong(s, order)
    ensures Internal(acts) && Moves(s, acts, ProcessQueue(s, order, delivered))
    ensures order != [] && Runnable(s, order[0]) ==> acts != [] && acts[0].DoDequeue?
    decreases |order|
  {
    if order == [] {
      acts := [];
    } else {
      var a := order[0];
      var t := ProcessOne(s, a, a in delivered);
      var first := [];
      if Runnable(s, a) {
        first := ExecMoves(s, DoDequeue(a, false), a in delivered);
      }
      HeadsKept(s, order, delivered);
      var rest := QueueMoves(t, order[1..], delivered);
      Chain(s, first, t, rest, ProcessQueue(s, order, delivered));
      acts := first + rest;
    }
  }

  predicate PlainAlong(s: State, order: seq<Address>) {
    Distinct(order) && forall a | a in order && QueueOf(s, a) != [] :: QueueOf(s, a)[0].group == 0
  }

  lemma HeadsKept(s: State, order: seq<Address>, delivered: set<Address>)
    requires PlainAlong(s, order) && order != []
    ensures PlainAlong(ProcessOne(s, order[0], order[0] in delivered), order[1..])
  {
    var a := order[0];
    forall b | b in order[1..] ensures b != a && b in order {
      var i :| 0 <= i < |order[1..]| && order[1..][i] == b;
      assert order[i + 1] == b;
    }
  }

  lemma OnOkMoves(s: State, a: Address) returns (acts: seq<Action>)
    requires Ids(AtRest(s)) && Live(s, a)
    ensures Internal(acts) && Moves(s, acts, OnOk(s, a))
  {
    hide Available, CanStart, Refresh, Transition, FromQueue, Begin, PopPending, Complete, Holding, Gate, Ids;
    var cmd := s.contexts[a].command;
    var t, first := s, [];
    if cmd.data.None? && cmd.tech.VOLUME? {
      t, first := Unstage(s), [DoUnstage];
      OneMoves(s, DoUnstage, t);
    }
    var u, second := t, [];
    if CompletesOnOk(cmd) {
      second := CompleteMoves(t, a, true, Acknowledged(cmd.tech));
      u := Complete(t, a, true, Acknowledged(cmd.tech));
    }
    Chain(s, first, t, second, u);
    var third := CompleteMoves(u, a, true, Done);
    Chain(s, first + second, u, third, Complete(u, a, true, Done));
    acts := first + second + third;
  }

  lemma OnDataMoves(s: State, a: Address, payload: seq<byte>) returns (acts: seq<Action>)
    requires Ids(AtRest(s)) && Live(s, a)
    ensures Internal(acts) && Moves(s, acts, OnData(s, a, payload))
  {
    var cmd := s.contexts[a].command;
    var p := ParsePayload(cmd, payload, s.contexts[a].parsed.data);
    if CompletesOnData(cmd) {
      var t := Complete(SetParse(s, a, p), a, p.ok, p.message);
      acts := ReportMoves(s, a, p, p.ok, p.message);
      if Live(t, a) {
        var q := t.contexts[a].parsed;
        var rest := CompleteMoves(t, a, q.ok, q.message);
        Chain(s, acts, t, rest, Complete(t, a, q.ok, q.message));
        acts := acts + rest;
      }
    } else {
      acts := ReportMoves(s, a, p, p.ok, p.message);
    }
  }

  lemma ReceiveMoves(s: State, data: seq<byte>) returns (acts: seq<Action>)
    requires Ids(AtRest(s))
    ensures Internal(acts) && Moves(s, acts, Receive(s, data))
  {
    acts := [];
    if |data| >= 2 {
      var a := Word(data[0], data[1]);
      var tu, bridge := ParseTUResponse(data), ParseBridgeResponse(data);
      if Live(s, a) && s.contexts[a].command.tech.IS_YOU? && bridge.Some? {
        var p := IsYouReport(bridge.value);
        acts := ReportMoves(s, a, p, p.ok, p.message);
      } else if Live(s, a) && tu.Some? {
        acts := ReplyMoves(s, a, tu.value);
      } else if Live(s, a) && bridge.Some? {
        acts := CompleteMoves(s, a, false, UnexpectedBridge);
      } else if bridge.Some? {
        acts := BridgeMoves(s, bridge.value);
      }
    }
  }

  lemma ReplyMoves(s: State, a: Address, reply: Reply) returns (acts: seq<Action>)
    requires Ids(AtRest(s)) && Live(s, a)
    ensures Internal(acts) && Moves(s, acts, OnTUReply(s, a, reply))
  {
    match reply
    case ErrorReply(_, status) => acts := CompleteMoves(s, a, false, DeviceError(status));
    case OkReply(_, echo) =>
      if echo.Some? && echo.value != Code(s.contexts[a].command.tech) {
        acts := [];
      } else {
        acts := OnOkMoves(s, a);
      }
    case DataReply(_, payload) => acts := OnDataMoves(s, a, payload);
  }

  lemma BridgeMoves(s: State, reply: BridgeReply) returns (acts: seq<Action>)
    requires Ids(AtRest(s))
    ensures Internal(acts) && Moves(s, acts, OnBridgeReply(s, reply))
  {
    var b := BridgeAddress(reply);
    if Live(s, b) {
      var p := BridgeReport(s.contexts[b].command, reply);
      acts := ReportMoves(s, b, p, p.ok, p.message);
    } else {
      var act := if reply.BridgeStatus? then DoReportFu(reply.address, reply.command, reply.status == 1)
                 else DoReportFu(0, 0, false);
      OneMoves(s, act, OnBridgeReply(s, reply));
      acts := [act];
    }
  }

  lemma DrainMoves(s: State, order: seq<Address>, delivered: set<Address>) returns (acts: seq<Action>)
    requires Ids(AtRest(s)) && PlainAlong(s, order) && Drain in s.posted
    ensures Internal(acts) && Moves(s, acts, ProcessQueue(Take(s, Drain), order, delivered))
  {
    var t := Take(s, Drain);
    OneMoves(s, DoTake(Drain), t);
    var rest := QueueMoves(t, order, delivered);
    Chain(s, [DoTake(Drain)], t, rest, ProcessQueue(t, order, delivered));
    acts := [DoTake(Drain)] + rest;
  }

  // Steps that answer an event.
  lemma EventMoves(s: State, step: Step) returns (acts: seq<Action>)
    requires Ids(AtRest(s)) && PlainQueues(s) && Enabled(s, step)
    requires step.DatagramStep? || step.TimeoutStep? || step.TickStep? || step.WakeUpStep? || step.DrainStep?
    ensures Moves(s, acts, Apply(s, step)) && Internal(acts)
    ensures step.TimeoutStep? ==> acts != [] && acts[0].DoFinish?
    ensures step.TickStep? && step.order != [] && Runnable(s, step.order[0]) ==> acts != [] && acts[0].DoDequeue?
  {
    match step {
      case DatagramStep(bytes) => acts := ReceiveMoves(s, bytes);
      case TimeoutStep(a) => acts := CompleteMoves(s, a, false, TimedOut);
      case TickStep(order, delivered) => acts := QueueMoves(s, order, delivered);
      case WakeUpStep(a, sent) => acts := NextMoves(s, a, sent);
      case DrainStep(order, delivered) => acts := DrainMoves(s, order, delivered);
    }
  }

  // Steps that ask for something.
  lemma RequestMoves(s: State, step: Step) returns (acts: seq<Action>)
    requires Ids(AtRest(s))
    requires !(step.DatagramStep? || step.TimeoutStep? || step.TickStep? || step.WakeUpStep? || step.DrainStep?)
    ensures Moves(s, acts, Apply(s, step))
    ensures !Submission(step) ==> forall act | act in acts :: !Submits(act)
    ensures !step.GroupStep? && !step.DisconnectStep? ==> Plain(acts)
    ensures step.GroupStep? ==> Accepting(acts, step.tech, step.mask)
  {
    hide QueueOf, Enqueue, Dequeue, Begin, Finish, PopPending, AcceptGroup, Begun, Complete, StartGroup, Receive, Owed,
      Calm, Holding, Gate, Leads, Ids;
    match step {
      case SubmitStep(tech, data, a, sent) => acts := SubmitMoves(s, tech, data, a, sent);
      case GroupStep(tech, mask) => acts := GroupMoves(s, tech, mask);
      case ConnectStep(a) => acts := EnqueueMoves(s, TS, None, a);
      case ClearStep(a) => OneMoves(s, DoClear(a), Apply(s, step)); acts := [DoClear(a)];
      case DisconnectStep => OneMoves(s, DoDisconnect, Apply(s, step)); acts := [DoDisconnect];
      case StageStep => OneMoves(s, DoStage, Apply(s, step)); acts := [DoStage];
    }
  }

  /** Every enabled step is a legal sequence of actions from rest to rest. */
  lemma StepMoves(s: State, step: Step) returns (acts: seq<Action>)
    requires Ids(AtRest(s)) && PlainQueues(s) && Enabled(s, step)
    ensures Moves(s, acts, Apply(s, step)) && Ids(AtRest(Apply(s, step)))
    ensures !Submission(step) ==> forall act | act in acts :: !Submits(act)
    ensures !step.GroupStep? && !step.DisconnectStep? ==> Plain(acts)
    ensures step.GroupStep? ==> Accepting(acts, step.tech, step.mask)
    ensures step.TimeoutStep? ==> acts != [] && acts[0].DoFinish?
    ensures step.TickStep? && step.order != [] && Runnable(s, step.order[0]) ==> acts != [] && acts[0].DoDequeue?
  {
    if step.DatagramStep? || step.TimeoutStep? || step.TickStep? || step.WakeUpStep? || step.DrainStep? {
      acts := EventMoves(s, step);
    } else {
      acts := RequestMoves(s, step);
    }
    IdsFold(AtRest(s), acts, AtRest(Apply(s, step)));
  }
}
