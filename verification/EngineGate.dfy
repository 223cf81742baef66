/** The gate of address 0, step by step: the one way past an open group. */
module EngineGate {
  import opened Protocol
  import opened EngineState
  import opened EngineSpec
  import opened EngineBarrier
  import EngineProgress

  // Between two states nothing started on address 0 past an open group.
  predicate Gated(s: State, t: State) {
    && s.hist.starts <= t.hist.starts
    && forall i :: |s.hist.starts| <= i < |t.hist.starts| && t.hist.starts[i].address == 0 ==> !t.hist.starts[i].groupsOpen
  }

  lemma Through(s: State, t: State, u: State)
    requires Gated(s, t) && Gated(t, u)
    ensures Gated(s, u)
  {
  }

  lemma BeginGated(s: State, a: Address, cmd: Command, suppress: bool)
    requires a != 0 || !GroupsOpen(s)
    ensures Gated(s, Begin(s, a, cmd, suppress)) && Live(Begin(s, a, cmd, suppress), a)
    ensures Begin(s, a, cmd, suppress).pending == s.pending
  {
  }

  lemma {:induction false} ExecGated(s: State, a: Address, cmd: Command, suppress: bool, sent: bool)
    requires a != 0 || !GroupsOpen(s)
    ensures Gated(s, Exec(s, a, cmd, suppress, sent))
    decreases |s.pending|, 3, 1
  {
    hide Begin, Begun;
    if Available(s, a) {
      BeginGated(s, a, cmd, suppress);
      var b := Begin(s, a, cmd, suppress);
      BegunGated(b, a, cmd, suppress, sent);
      Through(s, b, Begun(b, a, cmd, suppress, sent));
    }
  }

  lemma {:induction false} BegunGated(s: State, a: Address, cmd: Command, suppress: bool, sent: bool)
    requires Live(s, a)
    ensures Gated(s, Begun(s, a, cmd, suppress, sent))
    decreases |s.pending|, 3, 0
  {
    hide Complete;
    if EmptyRequest(s, cmd) {
      CompleteGated(s, a, false, NotBuilt);
    } else if !suppress && cmd.tech.VOLUME? {
      CompleteGated(Unstage(s), a, sent, if sent then VolumeSent else VolumeNotSent);
    }
  }

  lemma FinishedStarts(s: State, a: Address, ok: bool, msg: Message)
    requires Live(s, a)
    ensures var u := Settle(Finish(s, a, ok, msg), a, ok); u.hist.starts == s.hist.starts && u.pending == s.pending
  {
  }

  lemma {:induction false} CompleteGated(s: State, a: Address, ok: bool, msg: Message)
    ensures Gated(s, Complete(s, a, ok, msg))
    decreases |s.pending|, 2, 0
  {
    hide Finish, Settle, TryStart;
    if Live(s, a) {
      FinishedStarts(s, a, ok, msg);
      TryStartGated(Settle(Finish(s, a, ok, msg), a, ok));
    }
  }

  lemma {:induction false} TryStartGated(s: State)
    ensures Gated(s, TryStart(s))
    decreases |s.pending|, 1, 0
  {
    hide StartGroup, CanStart;
    if s.pending != [] && CanStart(s, s.pending[0].mask) {
      StartGroupGated(PopPending(s), s.pending[0]);
    }
  }

  lemma {:induction false} StartGroupGated(s: State, g: Group)
    ensures Gated(s, StartGroup(s, g))
    decreases |s.pending|, 5, 0
  {
    hide StartLoop, Targets;
    TargetsSound(g.mask);
    StartLoopGated(OpenGroup(s, g), Targets(g.mask), g);
  }

  lemma {:induction false} StartLoopGated(s: State, todo: seq<Address>, g: Group)
    requires 0 !in todo
    ensures Gated(s, StartLoop(s, todo, g))
    decreases |s.pending|, 4, |todo|
  {
    hide Exec;
    if todo != [] {
      var cmd := NewCommand(s, g.tech, None, g.id);
      var t := Exec(Create(s), todo[0], cmd, true, false);
      assert todo[0] in todo;
      ExecGated(Create(s), todo[0], cmd, true, false);
      StartLoopGated(t, todo[1..], g);
      Through(s, t, StartLoop(t, todo[1..], g));
    }
  }

  // ---------- Every call ----------

  lemma CreateGated(s: State, a: Address)
    ensures Gated(s, Create(s)) && (GroupsOpen(Create(s)) <==> GroupsOpen(s)) && (Available(Create(s), a) <==> Available(s, a))
  {
  }

  lemma SubmitGated(s: State, tech: TechCommand, data: Option<seq<byte>>, a: Address, sent: bool)
    ensures Gated(s, Submit(s, tech, data, a, sent))
  {
    hide Exec, Available, GroupsOpen;
    CreateGated(s, a);
    var cmd := NewCommand(s, tech, data, 0);
    if !((a == 0 && GroupsOpen(s)) || !Available(s, a)) {
      ExecGated(Create(s), a, cmd, false, sent);
      Through(s, Create(s), Exec(Create(s), a, cmd, false, sent));
    }
  }

  lemma SubmitGroupGated(s: State, tech: TechCommand, mask: Address)
    ensures Gated(s, SubmitGroup(s, tech, mask))
  {
    hide StartGroup, CanStart;
    StartGroupGated(AcceptGroup(s, tech, mask), Group(s.nextGroupId, tech, mask));
  }

  lemma {:induction false} QueueGated(s: State, order: seq<Address>, sent: set<Address>)
    ensures Gated(s, ProcessQueue(s, order, sent))
    decreases |order|
  {
    hide ProcessOne;
    if order != [] {
      var t := ProcessOne(s, order[0], order[0] in sent);
      OneGated(s, order[0], order[0] in sent);
      QueueGated(t, order[1..], sent);
      Through(s, t, ProcessQueue(t, order[1..], sent));
    }
  }

  lemma OneGated(s: State, a: Address, sent: bool)
    ensures Gated(s, ProcessOne(s, a, sent))
  {
    hide Exec;
    if !((a == 0 && GroupsOpen(s)) || !Available(s, a) || QueueOf(s, a) == []) {
      ExecGated(Dequeue(s, a), a, QueueOf(s, a)[0], false, sent);
    }
  }

  lemma OkGated(s: State, a: Address)
    requires Live(s, a)
    ensures Gated(s, OnOk(s, a))
  {
    hide Complete;
    var cmd := s.contexts[a].command;
    var t := if cmd.data.None? && cmd.tech.VOLUME? then Unstage(s) else s;
    var u := if CompletesOnOk(cmd) then Complete(t, a, true, Acknowledged(cmd.tech)) else t;
    CompleteGated(t, a, true, Acknowledged(cmd.tech));
    CompleteGated(u, a, true, Done);
    Through(s, u, Complete(u, a, true, Done));
  }

  lemma DataGated(s: State, a: Address, payload: seq<byte>)
    requires Live(s, a)
    ensures Gated(s, OnData(s, a, payload))
  {
    hide Complete, ParsePayload;
    var cmd := s.contexts[a].command;
    var p := ParsePayload(cmd, payload, s.contexts[a].parsed.data);
    var t := SetParse(s, a, p);
    var u := if CompletesOnData(cmd) then Complete(t, a, p.ok, p.message) else t;
    CompleteGated(t, a, p.ok, p.message);
    if Live(u, a) {
      var q := u.contexts[a].parsed;
      CompleteGated(u, a, q.ok, q.message);
      Through(s, u, Complete(u, a, q.ok, q.message));
    }
  }

  lemma ReportGated(s: State, a: Address, p: Parse)
    requires Live(s, a)
    ensures Gated(s, Report(s, a, p))
  {
    hide Complete;
    CompleteGated(SetParse(s, a, p), a, p.ok, p.message);
  }

  lemma ReceiveGated(s: State, data: seq<byte>)
    ensures Gated(s, Receive(s, data))
  {
    hide Complete, OnOk, OnData, Report, ParseTUResponse, ParseBridgeResponse, Word;
    if |data| >= 2 {
      var a := Word(data[0], data[1]);
      var tu, bridge := ParseTUResponse(data), ParseBridgeResponse(data);
      if Live(s, a) {
        if bridge.Some? {
          ReportGated(s, a, IsYouReport(bridge.value));
        }
        if tu.Some? {
          ReplyGated(s, a, tu.value);
        }
        CompleteGated(s, a, false, UnexpectedBridge);
      }
      if bridge.Some? {
        BridgeGated(s, bridge.value);
      }
    }
  }

  lemma ReplyGated(s: State, a: Address, reply: Reply)
    requires Live(s, a)
    ensures Gated(s, OnTUReply(s, a, reply))
  {
    hide Complete, OnOk, OnData;
    match reply
    case ErrorReply(_, status) => CompleteGated(s, a, false, DeviceError(status));
    case OkReply(_, _) => OkGated(s, a);
    case DataReply(_, payload) => DataGated(s, a, payload);
  }

  lemma BridgeGated(s: State, reply: BridgeReply)
    ensures Gated(s, OnBridgeReply(s, reply))
  {
    hide Report, BridgeReport;
    var b := BridgeAddress(reply);
    if Live(s, b) {
      ReportGated(s, b, BridgeReport(s.contexts[b].command, reply));
    }
  }

  // ---------- The one way past ----------

  /** A command waits at address 0 behind an open group while a wake-up may start it. */
  predicate Overtaking(s: State) { StateOf(s, 0).Ready? && QueueOf(s, 0) != [] && GroupsOpen(s) }

  lemma NextGated(s: State, a: Address, sent: bool)
    requires a != 0 || !Overtaking(s)
    ensures Gated(s, ProcessNext(s, a, sent))
  {
    hide Exec;
    if StateOf(s, a).Ready? && QueueOf(s, a) != [] {
      ExecGated(Dequeue(s, a), a, QueueOf(s, a)[0], false, sent);
    }
  }

  lemma NextOvertakes(s: State, sent: bool)
    requires Overtaking(s)
    ensures !Gated(s, ProcessNext(s, 0, sent))
  {
    hide Begun;
    var d, cmd := Dequeue(s, 0), QueueOf(s, 0)[0];
    var b := Begin(d, 0, cmd, false);
    var t := ProcessNext(s, 0, sent);
    assert t == Begun(b, 0, cmd, false, sent);
    assert b.hist.starts == s.hist.starts + [Start(0, cmd, FromQueue(d, cmd), true)];
    assert b.hist.starts <= t.hist.starts;
    assert t.hist.starts[|s.hist.starts|] == b.hist.starts[|s.hist.starts|];
  }

  predicate Overtakes(s: State, step: Step) { step.WakeUpStep? && step.address == 0 && Overtaking(s) }

  /** In every state and for every step: a command starts on address 0 past an open group exactly
      when the step is the wake-up of address 0 and a command waits there behind the group. */
  lemma OnlyWakeUpsOvertake(s: State, step: Step)
    requires Enabled(s, step)
    ensures !Gated(s, Apply(s, step)) <==> Overtakes(s, step)
  {
    hide Submit, SubmitGroup, Receive, ProcessQueue, ProcessNext, Complete;
    match step
    case SubmitStep(tech, data, a, sent) => SubmitGated(s, tech, data, a, sent);
    case GroupStep(tech, mask) => SubmitGroupGated(s, tech, mask);
    case ConnectStep(_) =>
    case DatagramStep(bytes) => ReceiveGated(s, bytes);
    case TimeoutStep(a) => CompleteGated(s, a, false, TimedOut);
    case TickStep(order, delivered) => QueueGated(s, order, delivered);
    case WakeUpStep(a, sent) =>
      var t := Take(s, WakeUp(a));
      if a == 0 && Overtaking(s) {
        NextOvertakes(t, sent);
      } else {
        NextGated(t, a, sent);
      }
    case DrainStep(order, delivered) => QueueGated(Take(s, Drain), order, delivered);
    case ClearStep(_) =>
    case DisconnectStep =>
    case StageStep =>
  }

  // No step of the run overtakes a group.
  predicate NeverOvertakes(run: seq<Step>) {
    run == [] || (NeverOvertakes(run[..|run| - 1]) && !Overtakes(Final(run[..|run| - 1]), run[|run| - 1]))
  }

  lemma LaterStarts(s: State, t: State)
    requires s.hist.starts <= t.hist.starts
    ensures ZeroBehindGroups(t.hist) <==> ZeroBehindGroups(s.hist) && Gated(s, t)
  {
    assert forall i :: 0 <= i < |s.hist.starts| ==> t.hist.starts[i] == s.hist.starts[i];
  }

  /** In every run, the firmware stream stayed behind all groups exactly when no wake-up of address 0
      came while a command waited there behind one. */
  lemma {:induction false} BarrierExact(run: seq<Step>)
    requires ValidRun(run)
    ensures ZeroBehindGroups(Final(run).hist) <==> NeverOvertakes(run)
    decreases |run|
  {
    hide Apply, Gated, Overtakes, Enabled;
    if run != [] {
      var front, step := run[..|run| - 1], run[|run| - 1];
      assert front + [step] == run;
      BarrierExact(front);
      EngineProgress.HistoryGrows(front, step);
      OnlyWakeUpsOvertake(Final(front), step);
      LaterStarts(Final(front), Final(run));
    }
  }
}
