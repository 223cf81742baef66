/** Address 0 carries the firmware stream, which must stay behind every group command. The gate
    of executeCommand and of the poll keeps it there provided each group is submitted while
    address 0 is quiet: nothing uncompleted on it and no wake-up outstanding for it. */
module EngineBarrier {
  import opened Protocol
  import opened EngineState
  import opened EngineSpec
  import opened EngineTrace
  import opened EngineOwnership
  import opened EngineGroups
  import opened EngineVerdicts
  import opened EngineStructure

  predicate QuietZero(s: State) { !Live(s, 0) && WakeUp(0) !in s.posted }

  ghost predicate ZeroBehindGroups(h: History) {
    forall i :: 0 <= i < |h.starts| && h.starts[i].address == 0 ==> !h.starts[i].groupsOpen
  }

  ghost predicate Barrier(c: Config) {
    && (GroupsOpen(c.st) ==> QuietZero(c.st))
    && (c.hand.Some? && c.hand.value.address == 0 && c.hand.value.woken ==> !GroupsOpen(c.st))
    && ZeroBehindGroups(c.st.hist)
  }

  lemma BarrierBegin(c: Config, suppress: bool)
    requires OwedSound(c) && Barrier(c) && Guard(c, DoBegin(suppress))
    ensures Barrier(Do(c, DoBegin(suppress)))
  {
    hide CanStart, OwedSound;
    var s, t := c.st, Do(c, DoBegin(suppress)).st;
    var a, cmd := c.hand.value.address, c.hand.value.command;
    assert t.hist.starts == s.hist.starts + [Start(a, cmd, FromQueue(s, cmd), GroupsOpen(s))];
    BeginGroups(s, a, cmd, suppress);
    assert t.posted == s.posted;
    assert a != 0 ==> (Live(t, 0) <==> Live(s, 0));
  }

  lemma BarrierFinish(c: Config, a: Address, ok: bool, msg: Message)
    requires Barrier(c) && Guard(c, DoFinish(a, ok, msg))
    ensures Barrier(Do(c, DoFinish(a, ok, msg)))
  {
    var s, t := c.st, Do(c, DoFinish(a, ok, msg)).st;
    FinishGroups(s, a, ok, msg);
    FinishStarts(s, a, ok, msg);
    assert a != 0 ==> (Live(t, 0) <==> Live(s, 0));
    assert a != 0 ==> (WakeUp(0) in t.posted <==> WakeUp(0) in s.posted);
  }

  lemma BarrierFrame(c: Config, act: Action)
    requires Guard(c, act) && !act.DoBegin? && !act.DoFinish? && !act.DoDisconnect?
    ensures var s, t := c.st, Do(c, act).st;
      t.hist.starts == s.hist.starts && (Live(t, 0) <==> Live(s, 0)) &&
      (WakeUp(0) in t.posted ==> WakeUp(0) in s.posted) &&
      (GroupsOpen(t) ==> GroupsOpen(s) || act.DoOpen? || act.DoDefer?)
  {
    SignalsFrame(c, act);
  }

  lemma BarrierHand(c: Config, act: Action)
    requires Guard(c, act) && !act.DoBegin? && !act.DoFinish? && !act.DoDisconnect?
    requires Do(c, act).hand.Some? && Do(c, act).hand.value.woken
    ensures Do(c, act).hand == c.hand ||
      (act.DoDequeue? && WakeUp(act.address) in c.st.posted && Do(c, act).hand.value.address == act.address)
  {
  }

  lemma BarrierOther(c: Config, act: Action)
    requires Barrier(c) && Guard(c, act) && !act.DoBegin? && !act.DoFinish? && !act.DoDisconnect?
    requires act.DoOpen? || act.DoDefer? ==> QuietZero(c.st)
    ensures Barrier(Do(c, act))
  {
    BarrierFrame(c, act);
    var d := Do(c, act);
    if d.hand.Some? && d.hand.value.woken {
      BarrierHand(c, act);
    }
    if act.DoOpen? || act.DoDefer? {
      HandThenNoOpening(c, act);
    }
  }

  lemma HandThenNoOpening(c: Config, act: Action)
    requires Guard(c, act) && (act.DoOpen? || act.DoDefer?)
    ensures Do(c, act).hand.None?
  {
  }

  lemma BarrierKept(c: Config, act: Action)
    requires OwedSound(c) && Barrier(c) && Guard(c, act)
    requires act.DoOpen? || act.DoDefer? ==> QuietZero(c.st)
    ensures Barrier(Do(c, act))
  {
    hide Guard, Do, Barrier;
    if act.DoBegin? {
      BarrierBegin(c, act.suppress);
    } else if act.DoFinish? {
      BarrierFinish(c, act.address, act.ok, act.message);
    } else if act.DoDisconnect? {
      BarrierDisconnect(c);
    } else {
      BarrierOther(c, act);
    }
  }

  lemma BarrierDisconnect(c: Config)
    requires Barrier(c) && Guard(c, DoDisconnect)
    ensures Barrier(Do(c, DoDisconnect))
  {
  }
}
