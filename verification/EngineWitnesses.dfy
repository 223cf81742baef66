/** Runs that show the conditions of the theorems are needed: each is a reachable state in which
    the unconditional promise fails. */
module EngineWitnesses {
  import opened Protocol
  import opened EngineState
  import opened EngineSpec
  import opened EngineGate
  import opened EngineTheorems
  import opened EngineBarrier
  import opened EngineGroups
  import opened EngineDatagram

  lemma TargetsOfOne()
    ensures Targets(1) == [1]
  {
    ZeroMask(2);
  }

  lemma TwoSteps(x: Step, y: Step)
    requires Enabled(NewEngine, x) && Enabled(Apply(NewEngine, x), y)
    ensures ValidRun([x, y]) && Final([x, y]) == Apply(Apply(NewEngine, x), y)
  {
    Extend([], x);
    assert [] + [x] == [x];
    Extend([x], y);
    assert [x] + [y] == [x, y];
  }

  lemma ExecArms(s: State, a: Address, cmd: Command, suppress: bool)
    requires Available(s, a) && !cmd.tech.VOLUME?
    ensures Exec(s, a, cmd, suppress, false) == Arm(Begin(s, a, cmd, suppress), a)
  {
    assert Exec(s, a, cmd, suppress, false) == Begun(Begin(s, a, cmd, suppress), a, cmd, suppress, false);
  }

  // A command with a request starts on an available address.
  lemma StartView(s: State, tech: TechCommand, a: Address)
    requires Available(s, a) && Known(tech) && !tech.VOLUME? && (a == 0 ==> !GroupsOpen(s))
    ensures var t := Submit(s, tech, None, a, false);
      && t == Arm(Begin(Create(s), a, NewCommand(s, tech, None, 0), false), a)
      && t.states == s.states[a := Sending] && t.pending == s.pending && t.groups == s.groups && t.staged == s.staged
      && t.nextGroupId == s.nextGroupId && t.posted == s.posted && t.queues == s.queues
      && t.hist.completions == s.hist.completions && t.hist.verdicts == s.hist.verdicts
      && Live(t, a) && t.contexts[a].command == NewCommand(s, tech, None, 0)
      && (a !in s.contexts ==> t.contexts[a].parsed == NoParse)
  {
    assert Available(Create(s), a);
    ExecArms(Create(s), a, NewCommand(s, tech, None, 0), false);
  }

  lemma DeferView(s: State, tech: TechCommand, mask: Address)
    requires mask != 0 && Known(tech) && !CanStart(s, mask)
    ensures SubmitGroup(s, tech, mask) == Defer(AcceptGroup(s, tech, mask), Group(s.nextGroupId, tech, mask))
  {
  }

  // PROGRAMM is executing on address 1 and a VERS group for address 1 is deferred behind it.
  predicate Behind(s: State) {
    && Live(s, 1) && s.contexts[1].command == Command(PROGRAMM, None, 0, 0) && s.contexts[1].parsed == NoParse
    && s.pending == [Group(1, VERS, 1)] && s.groups == map[] && s.nextGroupId == 2 && !s.staged
  }

  lemma BehindProgramm() returns (run: seq<Step>)
    ensures ValidRun(run) && NoVolumeGroup(run) && NoDisconnect(run) && Behind(Final(run))
  {
    hide Targets, Create, Begin, Arm, Exec, Complete, StartLoop, Receive;
    var x, y := SubmitStep(PROGRAMM, None, 1, false), GroupStep(VERS, 1);
    TwoSteps(x, y);
    var s := Apply(NewEngine, x);
    StartView(NewEngine, PROGRAMM, 1);
    TargetsOfOne();
    assert !Available(s, 1);
    assert 1 in Targets(1) && !CanStart(s, 1);
    DeferView(s, VERS, 1);
    run := [x, y];
  }

  // A deferred group for one address starts when that address completes its command.
  lemma ReleaseView(s: State, a: Address, g: Group, ok: bool, msg: Message)
    requires Live(s, a) && s.pending == [g] && Targets(g.mask) == [a] && g.mask != 0 && s.groups == map[] && !g.tech.VOLUME?
    ensures var t := Complete(s, a, ok, msg);
      t.groups == map[g.id := GroupInfo({a}, map[])] && t.pending == [] && t.nextGroupId == s.nextGroupId && Live(t, a)
  {
    hide Finish, Settle, StartGroup;
    var u := Settle(Finish(s, a, ok, msg), a, ok);
    SettledCanStart(s, a, ok, msg);
    SettledGroups(s, a, ok, msg);
    assert Unblocks(s, a);
    SingleLoop(PopPending(u), g, a);
    assert TryStart(u) == StartGroup(PopPending(u), g);
  }

  lemma SettledGroups(s: State, a: Address, ok: bool, msg: Message)
    requires Live(s, a) && s.groups == map[]
    ensures var u := Settle(Finish(s, a, ok, msg), a, ok); u.groups == map[] && u.nextGroupId == s.nextGroupId
  {
    SettledView(s, a, ok, msg);
  }

  lemma SingleLoop(u: State, g: Group, a: Address)
    requires Targets(g.mask) == [a] && Available(u, a) && !g.tech.VOLUME? && u.groups == map[] && u.pending == []
    ensures var t := StartGroup(u, g);
      t.groups == map[g.id := GroupInfo({a}, map[])] && t.pending == [] && t.nextGroupId == u.nextGroupId && Live(t, a)
  {
    SingleStart(u, g, a);
  }

  // A group with one target and a request starts its command there and changes no other address.
  lemma SingleStart(u: State, g: Group, a: Address)
    requires Targets(g.mask) == [a] && Available(u, a) && !g.tech.VOLUME?
    ensures var t := StartGroup(u, g);
      && t.groups == u.groups[g.id := GroupInfo({a}, map[])] && t.pending == u.pending && t.nextGroupId == u.nextGroupId
      && t.staged == u.staged && t.states == u.states[a := Sending]
      && Live(t, a) && t.contexts[a].command.group == g.id
      && (forall b :: b != a ==> (Live(t, b) <==> Live(u, b)) && (b in u.contexts ==> b in t.contexts && t.contexts[b] == u.contexts[b]))
  {
    var o := OpenGroup(u, g);
    assert TargetSet(g.mask) == {a};
    var cmd := NewCommand(o, g.tech, None, g.id);
    var e := Exec(Create(o), a, cmd, true, false);
    assert Available(Create(o), a);
    ExecArms(Create(o), a, cmd, true);
    assert StartLoop(o, [a], g) == StartLoop(e, [a][1..], g) == e;
  }

  // The only active group is decided when the one address it waits for completes.
  lemma DecideView(s: State, a: Address, id: nat, ok: bool, msg: Message)
    requires Live(s, a) && s.pending == [] && s.groups == map[id := GroupInfo({a}, map[])] && id < s.nextGroupId
    ensures Verdict(id, ok, map[a := ok]) in Complete(s, a, ok, msg).hist.verdicts
  {
    var f := Finish(s, a, ok, msg);
    FinishGroups(s, a, ok, msg);
    DecidedAt(f.groups, a, ok, id, 0, f.nextGroupId);
    CompleteAlone(s, a, ok, msg);
  }

  lemma CompleteAlone(s: State, a: Address, ok: bool, msg: Message)
    requires Live(s, a) && s.pending == []
    ensures Complete(s, a, ok, msg).hist == Settle(Finish(s, a, ok, msg), a, ok).hist
  {
    var u := Settle(Finish(s, a, ok, msg), a, ok);
    assert u.pending == [];
    assert TryStart(u) == u;
  }

  lemma {:induction false} DecidedAt(groups: map<nat, GroupInfo>, a: Address, ok: bool, id: nat, from: nat, to: nat)
    requires groups == map[id := GroupInfo({a}, map[])] && from <= id < to
    ensures Verdict(id, ok, map[a := ok]) in Verdicts(groups, a, ok, from, to)
    decreases if from < to then to - from else 0
  {
    if from < id {
      DecidedAt(groups, a, ok, id, from + 1, to);
    } else {
      var results := map[a := ok];
      assert a in results && results[a] == ok;
      assert Record(groups[id], a, ok).results == results;
    }
  }

  const ACK: seq<byte> := [0x00, 0x01, 0x00, 0x05]

  lemma AckReceived(s: State)
    requires Behind(s)
    ensures Receive(s, ACK) == OnOk(s, 1)
  {
    hide OnOk, Receive;
    MatchingAckTaken(s, ACK);
  }

  lemma AckCascades(s: State)
    requires Behind(s)
    ensures New(s, OnOk(s, 1)) > 1
  {
    TargetsOfOne();
    OnOkEffect(s, 1);
    assert Cascades(s, 1, true);
  }

  lemma AckDecides(s: State)
    requires Behind(s)
    ensures Verdict(1, true, map[1 := true]) in OnOk(s, 1).hist.verdicts
  {
    TargetsOfOne();
    ReleaseView(s, 1, Group(1, VERS, 1), true, Acknowledged(PROGRAMM));
    var u := Complete(s, 1, true, Acknowledged(PROGRAMM));
    DecideView(u, 1, 1, true, Done);
    assert OnOk(s, 1) == Complete(u, 1, true, Done);
  }

  /** One acknowledgement of PROGRAMM completes two operations: the deferred VERS group starts and
      is completed as successful in the same call, though its command was never answered. */
  lemma AnsweredByNobody() returns (run: seq<Step>)
    ensures ValidRun(run) && NoVolumeGroup(run) && NoDisconnect(run)
    ensures New(Final(run), Receive(Final(run), ACK)) > 1
    ensures Verdict(1, true, map[1 := true]) in Receive(Final(run), ACK).hist.verdicts
  {
    run := BehindProgramm();
    AckReceived(Final(run));
    AckCascades(Final(run));
    AckDecides(Final(run));
  }

  // ---------- Address 0 ----------

  // PROGRAMM executes on address 0, and a VERS group for address 1 was started meanwhile.
  lemma GroupBesideZero(s: State)
    requires Available(s, 1) && Live(s, 0) && StateOf(s, 0).Sending? && s.pending == [] && s.queues == map[]
    ensures var t := SubmitGroup(s, VERS, 1);
      && s.nextGroupId in t.groups && t.groups[s.nextGroupId].waiting == {1} && t.pending == [] && t.queues == map[]
      && Live(t, 0) && t.contexts[0] == s.contexts[0] && StateOf(t, 0).Sending?
  {
    TargetsOfOne();
    assert CanStart(s, 1);
    SingleStart(AcceptGroup(s, VERS, 1), Group(s.nextGroupId, VERS, 1), 1);
  }

  predicate IsZeroAck(ack: seq<byte>) {
    |ack| == 4 && ack[2] == 0 && ack[3] == Code(PROGRAMM) && Word(ack[0], ack[1]) == 0
  }

  lemma ZeroAck() returns (ack: seq<byte>)
    ensures IsZeroAck(ack)
  {
    ack := [0x00, 0x00, 0x00, 0x05];
  }

  lemma ZeroAckIsOk(s: State, ack: seq<byte>)
    requires IsZeroAck(ack)
    requires Live(s, 0) && s.contexts[0].command.data.None? && s.contexts[0].command.tech.PROGRAMM?
    ensures Receive(s, ack) == OnOk(s, 0)
  {
    hide OnOk, Receive, Code, Word;
    MatchingAckTaken(s, ack);
  }

  // With a group open that does not wait for address 0, completing there only makes it Ready.
  lemma ZeroReleased(s: State, id: nat)
    requires Live(s, 0) && StateOf(s, 0).Sending?
    requires s.pending == [] && QueueOf(s, 0) != [] && id in s.groups && s.groups[id].waiting == {1}
    ensures var u := Complete(s, 0, true, Acknowledged(PROGRAMM)); AboutToOvertake(u) && !Live(u, 0)
  {
    hide StartGroup, CanStart;
    var f := Finish(s, 0, true, Acknowledged(PROGRAMM));
    assert StateOf(f, 0).Ready? && WakeUp(0) in f.posted && !Live(f, 0);
    var u := Settle(f, 0, true);
    assert !Closes(f.groups[id], 0);
    assert id in u.groups;
  }

  // The acknowledgement on address 0 makes it Ready and posts a wake-up, with the group still open.
  lemma ZeroAcknowledged(s: State, id: nat, ack: seq<byte>)
    requires IsZeroAck(ack)
    requires Live(s, 0) && StateOf(s, 0).Sending? && s.contexts[0].command == Command(PROGRAMM, None, 0, 0)
    requires s.pending == [] && QueueOf(s, 0) != [] && id in s.groups && s.groups[id].waiting == {1}
    ensures AboutToOvertake(Receive(s, ack))
  {
    hide Receive, AboutToOvertake, Overtaking, IsZeroAck;
    ZeroAckIsOk(s, ack);
    ZeroReleased(s, id);
  }

  // A wake-up is outstanding that overtakes an open group.
  predicate AboutToOvertake(s: State) { Overtaking(s) && WakeUp(0) in s.posted }

  lemma GateView(s: State)
    requires GroupsOpen(s)
    ensures Submit(s, PROGRAMM, None, 0, false) == Enqueue(Create(s), 0, NewCommand(s, PROGRAMM, None, 0))
  {
  }

  // PROGRAMM is executing on address 0 beside an active group for address 1.
  predicate BesideGroup(s: State, id: nat) {
    && Live(s, 0) && StateOf(s, 0).Sending? && s.contexts[0].command == Command(PROGRAMM, None, 0, 0)
    && s.pending == [] && s.queues == map[] && id in s.groups && s.groups[id].waiting == {1}
  }

  lemma GroupWhileBusy() returns (run: seq<Step>)
    ensures ValidRun(run) && NoVolumeGroup(run) && NoDisconnect(run) && BesideGroup(Final(run), 1)
  {
    hide Submit, SubmitGroup;
    var x, y := SubmitStep(PROGRAMM, None, 0, false), GroupStep(VERS, 1);
    StartView(NewEngine, PROGRAMM, 0);
    TwoSteps(x, y);
    GroupBesideZero(Apply(NewEngine, x));
    run := [x, y];
  }

  lemma SecondWaits(s: State, id: nat, ack: seq<byte>)
    requires BesideGroup(s, id) && IsZeroAck(ack)
    ensures AboutToOvertake(Receive(Submit(s, PROGRAMM, None, 0, false), ack))
  {
    hide Receive, Submit, IsZeroAck;
    GateView(s);
    ZeroAcknowledged(Submit(s, PROGRAMM, None, 0, false), id, ack);
  }

  /** The barrier needs its discipline: with a group submitted while address 0 is executing, a
      state is reached whose outstanding wake-up starts a command on address 0 past the group. */
  lemma BarrierNeedsQuietZero() returns (run: seq<Step>)
    ensures ValidRun(run) && NoVolumeGroup(run) && NoDisconnect(run)
    ensures Enabled(Final(run), WakeUpStep(0, true)) && Overtakes(Final(run), WakeUpStep(0, true))
  {
    var mid := GroupWhileBusy();
    hide Final, ValidRun, Receive, Submit, BesideGroup, IsZeroAck;
    var ack := ZeroAck();
    var x, z := SubmitStep(PROGRAMM, None, 0, false), DatagramStep(ack);
    SecondWaits(Final(mid), 1, ack);
    Extend(mid, x);
    Extend(mid + [x], z);
    run := mid + [x] + [z];
  }

  // ---------- Groups without a request ----------

  lemma TargetsOfFour()
    ensures Targets(4) == [4] && Targets(6) == [2, 4]
  {
    ZeroMask(8);
    assert TargetsFrom(1, 4) == [4];
    assert TargetsFrom(3, 2) == [2, 4];
  }

  // Addresses 1 and 4 are executing, and a VERS group is deferred for each of them.
  predicate TwoDeferred(s: State) {
    && Live(s, 1) && Live(s, 4) && !Available(s, 1) && !Available(s, 4) && Available(s, 2)
    && s.pending == [Group(1, VERS, 1), Group(2, VERS, 4)] && s.groups == map[] && s.nextGroupId == 3 && !s.staged
  }

  lemma TwoExecuting() returns (run: seq<Step>)
    ensures ValidRun(run) && NoDisconnect(run)
    ensures var s := Final(run);
      && Live(s, 1) && Live(s, 4) && !Available(s, 1) && !Available(s, 4) && Available(s, 2)
      && s.pending == [] && s.groups == map[] && s.nextGroupId == 1 && !s.staged
  {
    var x, y := SubmitStep(PROGRAMM, None, 1, false), SubmitStep(PROGRAMM, None, 4, false);
    StartView(NewEngine, PROGRAMM, 1);
    var s := Apply(NewEngine, x);
    StartView(s, PROGRAMM, 4);
    assert Live(Apply(s, y), 1);
    TwoSteps(x, y);
    run := [x, y];
  }

  // The engine right after the result of `a` was recorded.
  lemma SettledView(s: State, a: Address, ok: bool, msg: Message)
    requires Live(s, a)
    ensures var u := Settle(Finish(s, a, ok, msg), a, ok);
      && u.pending == s.pending && u.nextGroupId == s.nextGroupId && u.staged == s.staged
      && u.groups == (map id | id in s.groups && !Closes(s.groups[id], a) :: Record(s.groups[id], a, ok))
      && Available(u, a) && !Live(u, a)
      && (forall b :: b != a ==> (Available(u, b) <==> Available(s, b)) && (Live(u, b) <==> Live(s, b)))
  {
    var f := Finish(s, a, ok, msg);
    assert f.groups == s.groups && f.pending == s.pending && f.nextGroupId == s.nextGroupId && f.staged == s.staged;
  }

  lemma DeferSecond(s: State)
    requires Live(s, 1) && Live(s, 4) && !Available(s, 1) && !Available(s, 4) && Available(s, 2)
    requires s.pending == [] && s.groups == map[] && s.nextGroupId == 1 && !s.staged
    ensures TwoDeferred(SubmitGroup(SubmitGroup(s, VERS, 1), VERS, 4))
  {
    TargetsOfOne();
    TargetsOfFour();
    assert 1 in Targets(1) && !CanStart(s, 1);
    DeferView(s, VERS, 1);
    var t := SubmitGroup(s, VERS, 1);
    assert 4 in Targets(4) && !Available(t, 4) && !CanStart(t, 4);
    DeferView(t, VERS, 4);
  }

  lemma BothDeferred() returns (run: seq<Step>)
    ensures ValidRun(run) && NoDisconnect(run) && TwoDeferred(Final(run))
  {
    var start := TwoExecuting();
    DeferSecond(Final(start));
    Extend(start, GroupStep(VERS, 1));
    Extend(start + [GroupStep(VERS, 1)], GroupStep(VERS, 4));
    run := start + [GroupStep(VERS, 1)] + [GroupStep(VERS, 4)];
  }

  // The first deferred group is still blocked, the second is not.
  predicate FirstBlocked(s: State) {
    && Live(s, 1) && !Available(s, 1) && Available(s, 4) && Available(s, 2)
    && s.pending == [Group(1, VERS, 1), Group(2, VERS, 4)] && s.groups == map[] && s.nextGroupId == 3 && !s.staged
  }

  // A timeout while the first deferred group stays blocked starts nothing.
  lemma TimeoutBlocked(s: State)
    requires TwoDeferred(s)
    ensures FirstBlocked(Timeout(s, 4))
  {
    TargetsOfOne();
    var u := Settle(Finish(s, 4, false, TimedOut), 4, false);
    SettledView(s, 4, false, TimedOut);
    assert u.groups == map[];
    assert 1 in Targets(1) && !CanStart(u, 1);
    assert TryStart(u) == u;
  }

  // The first deferred group starts; the second could start as well but stays deferred.
  predicate SecondStartable(s: State) {
    && Available(s, 2) && Available(s, 4) && s.pending == [Group(2, VERS, 4)]
    && 2 !in s.groups && 3 !in s.groups && s.nextGroupId == 3 && !s.staged
  }

  lemma TimeoutReleases(s: State)
    requires FirstBlocked(s)
    ensures SecondStartable(Timeout(s, 1))
  {
    hide Targets, Finish, Settle, StartGroup;
    TargetsOfOne();
    var u := Settle(Finish(s, 1, false, TimedOut), 1, false);
    SettledView(s, 1, false, TimedOut);
    assert u.groups == map[];
    assert CanStart(u, 1);
    SingleStart(PopPending(u), s.pending[0], 1);
    assert TryStart(u) == StartGroup(PopPending(u), s.pending[0]);
  }

  predicate Overlap(s: State) {
    && 2 in s.groups && 3 in s.groups && 4 in s.groups[2].waiting && 4 in s.groups[3].waiting
    && Live(s, 4) && s.contexts[4].command.group == 2
  }

  // A VOLUME group with nothing staged is submitted then.
  lemma HollowOverlap(s: State)
    requires SecondStartable(s)
    ensures Overlap(SubmitGroup(s, VOLUME, 6))
  {
    hide NewCommand, Create, Begin, OpenGroup, AcceptGroup, Complete;
    TargetsOfFour();
    assert CanStart(s, 6);
    var g := Group(3, VOLUME, 6);
    var o := OpenGroup(AcceptGroup(s, VOLUME, 6), g);
    var cmd := NewCommand(o, VOLUME, None, 3);
    var b := Begin(Create(o), 2, cmd, true);
    HollowBegin(s);
    FailedStart(b);
    var c := Complete(b, 2, false, NotBuilt);
    LastDropped(c, g);
    assert Exec(Create(o), 2, cmd, true, false) == c;
    assert [2, 4][1..] == [4];
    assert SubmitGroup(s, VOLUME, 6) == StartLoop(o, [2, 4], g) == StartLoop(c, [4], g);
  }

  lemma HollowBegin(s: State)
    requires SecondStartable(s)
    ensures var o := OpenGroup(AcceptGroup(s, VOLUME, 6), Group(3, VOLUME, 6));
      var cmd := NewCommand(o, VOLUME, None, 3);
      var b := Begin(Create(o), 2, cmd, true);
      && Available(Create(o), 2) && EmptyRequest(b, cmd) && Live(b, 2) && Available(b, 4) && b.pending == s.pending
      && 2 !in b.groups && 3 in b.groups && b.groups[3] == GroupInfo({2, 4}, map[])
  {
    TargetsOfFour();
    assert TargetSet(6) == {2, 4};
  }

  // The second target of the loop is busy by then: its start is refused.
  lemma LastDropped(c: State, g: Group)
    requires !Available(c, 4) && Overlap(c)
    ensures Overlap(StartLoop(c, [4], g))
  {
    var last := NewCommand(c, g.tech, None, g.id);
    assert !Available(Create(c), 4);
    var e := Exec(Create(c), 4, last, true, false);
    assert e == EngineState.Drop(Create(c), last);
    assert StartLoop(e, [4][1..], g) == e;
    assert StartLoop(c, [4], g) == e;
  }

  // Its first start fails at once and releases the deferred group on the address it has yet to reach.
  lemma FailedStart(b: State)
    requires Live(b, 2) && Available(b, 4) && b.pending == [Group(2, VERS, 4)] && 2 !in b.groups && 3 in b.groups
    requires b.groups[3] == GroupInfo({2, 4}, map[])
    ensures var c := Complete(b, 2, false, NotBuilt); !Available(c, 4) && Overlap(c)
  {
    hide Finish, Settle, StartGroup;
    TargetsOfFour();
    var u := Settle(Finish(b, 2, false, NotBuilt), 2, false);
    SettledView(b, 2, false, NotBuilt);
    assert 4 in b.groups[3].waiting && !Closes(b.groups[3], 2);
    assert 3 in u.groups && 4 in u.groups[3].waiting;
    assert CanStart(u, 4);
    SingleStart(PopPending(u), b.pending[0], 4);
    assert TryStart(u) == StartGroup(PopPending(u), b.pending[0]);
  }

  lemma SecondReleased() returns (run: seq<Step>)
    ensures ValidRun(run) && NoDisconnect(run) && SecondStartable(Final(run))
  {
    hide Final, ValidRun, Complete;
    var start := BothDeferred();
    SendingIsTimed(start);
    TimeoutBlocked(Final(start));
    Extend(start, TimeoutStep(4));
    var mid := start + [TimeoutStep(4)];
    SendingIsTimed(mid);
    TimeoutReleases(Final(mid));
    Extend(mid, TimeoutStep(1));
    run := mid + [TimeoutStep(1)];
  }

  /** With a VOLUME group and nothing staged, two active groups can wait for one address, and one
      of them waits for a command that is not its own. */
  lemma OwnershipNeedsRequests() returns (run: seq<Step>)
    ensures ValidRun(run) && NoDisconnect(run) && Overlap(Final(run))
  {
    var start := SecondReleased();
    HollowOverlap(Final(start));
    Extend(start, GroupStep(VOLUME, 6));
    run := start + [GroupStep(VOLUME, 6)];
  }
}
