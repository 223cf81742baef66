/** The structural invariant of every run, disconnects included: an address that is Sending holds
    an uncompleted command with a running timer, active groups wait only for such addresses,
    deferred groups imply that some address is Sending, and the busy flag is exact. */
module EngineStructure {
  import opened Protocol
  import opened EngineState
  import opened EngineSpec
  import opened EngineTrace

  predicate AnySending(s: State) { exists a | a in s.states :: s.states[a].Sending? }

  ghost predicate Timed(c: Config) {
    && (forall a :: a in c.st.states && c.st.states[a].Sending? ==> a in c.st.contexts && !c.st.contexts[a].completed)
    && (forall a :: a in c.st.contexts && !c.st.contexts[a].completed ==> c.st.contexts[a].armed || c.begun == Some(a))
    && (c.begun.Some? ==> Live(c.st, c.begun.value))
  }

  ghost predicate Settles(c: Config, a: Address) { c.settling.Some? && c.settling.value.address == a }

  ghost predicate Waiting(c: Config) {
    forall id, a :: id in c.st.groups && a in c.st.groups[id].waiting ==>
      (a in c.st.states && c.st.states[a].Sending?) || (id, a) in c.owed || Settles(c, a)
  }

  predicate NoEmptyGroup(s: State) { forall id | id in s.groups :: s.groups[id].waiting != {} }

  predicate DeferredMasks(s: State) { forall i | 0 <= i < |s.pending| :: s.pending[i].mask != 0 }

  predicate Progressing(c: Config) { c.st.pending == [] || AnySending(c.st) || c.due > 0 || c.owed != {} }

  predicate BusyExact(s: State) { s.busy <==> exists a | a in s.contexts :: !s.contexts[a].completed }

  predicate NoEmptyQueue(s: State) { forall a | a in s.queues :: s.queues[a] != [] }

  ghost predicate Structure(c: Config) {
    && Timed(c)
    && Waiting(c)
    && NoEmptyGroup(c.st)
    && DeferredMasks(c.st)
    && Progressing(c)
    && BusyExact(c.st)
    && NoEmptyQueue(c.st)
  }

  lemma ContextFrame(c: Config, act: Action)
    requires Guard(c, act)
    requires !act.DoBegin? && !act.DoArm? && !act.DoParse? && !act.DoFinish? && !act.DoDisconnect?
    ensures Do(c, act).st.states == c.st.states && Do(c, act).st.contexts == c.st.contexts && Do(c, act).begun == c.begun
  {
    hide Do, Guard;
    Frame(c, act);
  }

  lemma TimedLocal(c: Config, act: Action)
    requires Timed(c) && Guard(c, act) && (act.DoArm? || act.DoParse? || act.DoDisconnect?)
    ensures Timed(Do(c, act))
  {
  }

  lemma TimedOther(c: Config, act: Action)
    requires Timed(c) && Guard(c, act)
    requires !act.DoBegin? && !act.DoArm? && !act.DoParse? && !act.DoFinish? && !act.DoDisconnect?
    ensures Timed(Do(c, act))
  {
    hide Do, Guard;
    ContextFrame(c, act);
  }

  lemma TimedKept(c: Config, act: Action)
    requires Timed(c) && Guard(c, act)
    ensures Timed(Do(c, act))
  {
    hide Timed, Do, Guard;
    if act.DoBegin? {
      TimedBegin(c, act.suppress);
    } else if act.DoFinish? {
      TimedFinish(c, act.address, act.ok, act.message);
    } else if act.DoArm? || act.DoParse? || act.DoDisconnect? {
      TimedLocal(c, act);
    } else {
      TimedOther(c, act);
    }
  }

  lemma TimedBegin(c: Config, suppress: bool)
    requires Timed(c) && Guard(c, DoBegin(suppress))
    ensures Timed(Do(c, DoBegin(suppress)))
  {
  }

  lemma TimedFinish(c: Config, a: Address, ok: bool, msg: Message)
    requires Timed(c) && Guard(c, DoFinish(a, ok, msg))
    ensures Timed(Do(c, DoFinish(a, ok, msg)))
  {
    hide Targets, Available, Settle, OpenGroup, PopPending;
    hide TargetSet, CanStart;
  }

  lemma WaitingSignal(c: Config, act: Action)
    requires Waiting(c) && Guard(c, act) && (act.DoBegin? || act.DoFinish?)
    ensures Waiting(Do(c, act))
  {
    hide CanStart;
  }

  lemma WaitingHand(c: Config, act: Action)
    requires Waiting(c) && Guard(c, act) && OnHand(act)
    ensures Waiting(Do(c, act))
  {
    hide CanStart;
  }

  lemma WaitingGroups(c: Config, act: Action)
    requires Waiting(c) && Guard(c, act) && (OnGroups(act) || act.DoDisconnect?)
    ensures Waiting(Do(c, act))
  {
    hide CanStart;
  }

  lemma WaitingOther(c: Config, act: Action)
    requires Waiting(c) && Guard(c, act)
    requires !act.DoBegin? && !act.DoFinish? && !OnHand(act) && !OnGroups(act) && !act.DoDisconnect?
    ensures Waiting(Do(c, act))
  {
    hide Do, Guard;
    Frame(c, act);
  }

  lemma WaitingKept(c: Config, act: Action)
    requires Waiting(c) && Guard(c, act)
    ensures Waiting(Do(c, act))
  {
    hide Waiting, Do, Guard;
    if act.DoBegin? || act.DoFinish? {
      WaitingSignal(c, act);
    } else if OnHand(act) {
      WaitingHand(c, act);
    } else if OnGroups(act) || act.DoDisconnect? {
      WaitingGroups(c, act);
    } else {
      WaitingOther(c, act);
    }
  }

  lemma OpenedWaits(s: State, g: Group)
    requires g.mask != 0
    ensures OpenGroup(s, g).groups[g.id].waiting != {} && Owed(g) != {}
  {
    TargetsSound(g.mask);
    var a := Targets(g.mask)[0];
    assert a in OpenGroup(s, g).groups[g.id].waiting;
    assert (g.id, a) in Owed(g);
  }

  lemma GroupsOpened(c: Config, act: Action)
    requires NoEmptyGroup(c.st) && DeferredMasks(c.st) && Guard(c, act) && (act.DoOpen? || act.DoPop?)
    ensures NoEmptyGroup(Do(c, act).st) && DeferredMasks(Do(c, act).st)
  {
    hide Targets, TargetSet, Owed;
    if act.DoOpen? {
      OpenedWaits(AcceptGroup(c.st, act.tech, act.mask), NewGroup(c.st, act.tech, act.mask));
    } else {
      OpenedWaits(PopPending(c.st), c.st.pending[0]);
    }
  }

  lemma GroupsLocal(c: Config, act: Action)
    requires NoEmptyGroup(c.st) && DeferredMasks(c.st) && Guard(c, act)
    requires act.DoDefer? || act.DoSettle? || act.DoDisconnect?
    ensures NoEmptyGroup(Do(c, act).st) && DeferredMasks(Do(c, act).st)
  {
    hide CanStart, Verdicts;
  }

  lemma GroupsSame(c: Config, act: Action)
    requires Guard(c, act) && !act.DoOpen? && !act.DoPop? && !act.DoDefer? && !act.DoSettle? && !act.DoDisconnect?
    ensures Do(c, act).st.groups == c.st.groups && Do(c, act).st.pending == c.st.pending
  {
    hide Do, Guard;
    Frame(c, act);
  }

  lemma GroupsKept(c: Config, act: Action)
    requires NoEmptyGroup(c.st) && DeferredMasks(c.st) && Guard(c, act)
    ensures NoEmptyGroup(Do(c, act).st) && DeferredMasks(Do(c, act).st)
  {
    hide Do, Guard;
    if act.DoOpen? || act.DoPop? {
      GroupsOpened(c, act);
    } else if act.DoDefer? || act.DoSettle? || act.DoDisconnect? {
      GroupsLocal(c, act);
    } else {
      GroupsSame(c, act);
    }
  }

  lemma BlockedSending(s: State, mask: Address)
    requires mask != 0 && !CanStart(s, mask)
    ensures AnySending(s)
  {
    var a :| a in Targets(mask) && !Available(s, a);
    assert a in s.states && s.states[a].Sending?;
  }

  lemma ProgressKept(c: Config, act: Action)
    requires Progressing(c) && DeferredMasks(c.st) && Guard(c, act)
    ensures Progressing(Do(c, act))
  {
    var d := Do(c, act);
    match act
    case DoDefer(_, mask) => BlockedSending(c.st, mask);
    case DoDrop => assert d.st.states[c.hand.value.address].Sending?;
    case DoBegin(_) => assert d.st.states[c.hand.value.address].Sending?;
    case DoDecline =>
      if c.st.pending != [] {
        BlockedSending(c.st, c.st.pending[0].mask);
      }
    case DoPop => OpenedWaits(PopPending(c.st), c.st.pending[0]);
    case DoOpen(tech, mask) => OpenedWaits(AcceptGroup(c.st, tech, mask), NewGroup(c.st, tech, mask));
    case _ =>
  }

  lemma SameLive(s: State, t: State)
    requires BusyExact(s) && s.busy == t.busy
    requires forall a :: Live(s, a) <==> Live(t, a)
    ensures BusyExact(t)
  {
    if a :| a in s.contexts && !s.contexts[a].completed {
      assert Live(s, a) && Live(t, a);
    }
    if a :| a in t.contexts && !t.contexts[a].completed {
      assert Live(s, a) && Live(t, a);
    }
  }

  lemma BusyBegin(c: Config, suppress: bool)
    requires Guard(c, DoBegin(suppress))
    ensures BusyExact(Do(c, DoBegin(suppress)).st)
  {
  }

  lemma BusyFinish(c: Config, a: Address, ok: bool, msg: Message)
    requires Guard(c, DoFinish(a, ok, msg))
    ensures BusyExact(Do(c, DoFinish(a, ok, msg)).st)
  {
    hide Finish, BusyExact;
    FinishBusy(c.st, a, ok, msg);
  }

  lemma BusyOther(c: Config, act: Action)
    requires BusyExact(c.st) && Guard(c, act) && !act.DoBegin? && !act.DoFinish?
    ensures BusyExact(Do(c, act).st)
  {
    hide CanStart, TargetSet, BusyExact;
    SameLive(c.st, Do(c, act).st);
  }

  lemma BusyKept(c: Config, act: Action)
    requires BusyExact(c.st) && Guard(c, act)
    ensures BusyExact(Do(c, act).st)
  {
    hide Do, Guard, BusyExact;
    if act.DoBegin? {
      BusyBegin(c, act.suppress);
    } else if act.DoFinish? {
      BusyFinish(c, act.address, act.ok, act.message);
    } else {
      BusyOther(c, act);
    }
  }

  lemma FinishBusy(s: State, a: Address, ok: bool, msg: Message)
    requires Live(s, a)
    ensures BusyExact(Finish(s, a, ok, msg))
  {
    var ctx := s.contexts[a];
    var t := Refresh(s.(contexts := s.contexts[a := ctx.(completed := true, armed := false, parsed := NoParse)]));
    assert BusyExact(t);
    SameLive(t, Finish(s, a, ok, msg));
  }

  lemma QueueKept(c: Config, act: Action)
    requires NoEmptyQueue(c.st) && Guard(c, act)
    ensures NoEmptyQueue(Do(c, act).st)
  {
  }

  lemma StructureKept(c: Config, act: Action)
    requires Structure(c) && Guard(c, act)
    ensures Structure(Do(c, act))
  {
    TimedKept(c, act);
    WaitingKept(c, act);
    GroupsKept(c, act);
    ProgressKept(c, act);
    BusyKept(c, act);
    QueueKept(c, act);
  }
}
