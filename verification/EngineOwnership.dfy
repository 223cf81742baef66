/** Groups and their own commands. Unless a group without a request was ever started, every
    address an active group waits for is Sending with the command of that very group; unless a
    disconnect ever happened, every uncompleted command is on a Sending address. */
module EngineOwnership {
  import opened Protocol
  import opened EngineState
  import opened EngineSpec
  import opened EngineTrace
  import opened EngineStructure
  import opened EngineGroups

  // ---------- Without a disconnect, live means Sending ----------

  ghost predicate LiveSending(s: State) {
    !s.hist.disconnected ==>
      && (forall a :: a in s.contexts && !s.contexts[a].completed ==> a in s.states && s.states[a].Sending?)
      && (forall n :: n in s.hist.fate ==> !s.hist.fate[n].Overwritten? && !s.hist.fate[n].Disconnected?)
  }

  // ---------- Starts a group loop owes ----------

  ghost predicate OwedSound(c: Config) {
    && (c.hand.Some? && c.hand.value.command.group != 0 ==> (c.hand.value.command.group, c.hand.value.address) in c.owed)
    && (forall p :: p in c.owed ==> p.0 in c.st.hist.requests && p.0 !in DeferredIds(c.st) && p.1 != 0)
    && (!c.st.hist.hollow ==>
          && (forall p :: p in c.owed ==> !(p.1 in c.st.states && c.st.states[p.1].Sending?))
          && (forall p, q :: p in c.owed && q in c.owed ==> p.0 == q.0)
          && (forall n :: n in c.st.hist.fate ==> !c.st.hist.fate[n].Dropped?))
  }

  // ---------- Waiting addresses carry the group's own command ----------

  predicate Own(s: State, id: nat, a: Address) {
    Live(s, a) && s.contexts[a].command.group == id && a in s.states && s.states[a].Sending?
  }

  // The completion being settled is that of the group's own command.
  predicate OwnResult(c: Config, id: nat, a: Address) {
    && c.settling.Some? && c.settling.value.address == a && c.st.hist.completions != []
    && var last := c.st.hist.completions[|c.st.hist.completions| - 1];
       last.command.group == id && last.address == a && last.ok == c.settling.value.ok
  }

  ghost predicate Ownership(c: Config) {
    !c.st.hist.hollow ==> forall id, a :: id in c.st.groups && a in c.st.groups[id].waiting ==>
      (id, a) in c.owed || Own(c.st, id, a) || OwnResult(c, id, a)
  }

  ghost predicate Owning(c: Config) { LiveSending(c.st) && OwedSound(c) && Ownership(c) }

  // ---------- Actions ----------

  // The actions that touch one context or one queue only.
  lemma LiveSendingLocal(c: Config, act: Action)
    requires LiveSending(c.st) && Guard(c, act)
    requires act.DoArm? || act.DoParse? || act.DoDisconnect? || act.DoClear? || act.DoDequeue?
    ensures LiveSending(Do(c, act).st)
  {
    hide CanStart;
  }

  lemma LiveSendingOther(c: Config, act: Action)
    requires LiveSending(c.st) && Guard(c, act) && !act.DoBegin? && !act.DoFinish?
    requires !(act.DoArm? || act.DoParse? || act.DoDisconnect? || act.DoClear? || act.DoDequeue?)
    ensures LiveSending(Do(c, act).st)
  {
    hide Do, Guard;
    ContextFrame(c, act);
    FateFrame(c, act);
  }

  lemma LiveSendingKept(c: Config, act: Action)
    requires LiveSending(c.st) && Guard(c, act)
    ensures LiveSending(Do(c, act).st)
  {
    hide LiveSending, Begin, Finish;
    match act
    case DoBegin(suppress) => LiveSendingBegin(c.st, c.hand.value.address, c.hand.value.command, suppress);
    case DoFinish(a, ok, msg) => LiveSendingFinish(c.st, a, ok, msg);
    case _ =>
      if act.DoArm? || act.DoParse? || act.DoDisconnect? || act.DoClear? || act.DoDequeue? {
        LiveSendingLocal(c, act);
      } else {
        LiveSendingOther(c, act);
      }
  }

  predicate Lost(fate: Fate) { fate.Overwritten? || fate.Disconnected? }

  lemma HandFates(c: Config, act: Action)
    requires Guard(c, act) && OnHand(act) && !act.DoDequeue?
    ensures Do(c, act).st.hist.disconnected == c.st.hist.disconnected
    ensures forall n :: n in Do(c, act).st.hist.fate ==>
      (n in c.st.hist.fate && Do(c, act).st.hist.fate[n] == c.st.hist.fate[n]) || !Lost(Do(c, act).st.hist.fate[n])
  {
    hide Targets, GroupsOpen, QueueOf, Refresh, Transition, NewCommand, Finish, Settle, OpenGroup, PopPending;
    hide CanStart;
  }

  lemma FateFrame(c: Config, act: Action)
    requires Guard(c, act)
    requires !act.DoBegin? && !act.DoFinish? && !act.DoClear? && !act.DoDisconnect? && !act.DoDequeue?
    ensures Do(c, act).st.hist.disconnected == c.st.hist.disconnected
    ensures forall n :: n in Do(c, act).st.hist.fate ==>
      (n in c.st.hist.fate && Do(c, act).st.hist.fate[n] == c.st.hist.fate[n]) || !Lost(Do(c, act).st.hist.fate[n])
  {
    hide Do, Guard;
    if OnHand(act) {
      HandFates(c, act);
    } else {
      Frame(c, act);
    }
  }

  lemma LiveSendingBegin(s: State, a: Address, cmd: Command, suppress: bool)
    requires LiveSending(s) && Available(s, a)
    ensures LiveSending(Begin(s, a, cmd, suppress))
  {
    assert !s.hist.disconnected ==> !Live(s, a);
  }

  lemma LiveSendingFinish(s: State, a: Address, ok: bool, msg: Message)
    requires LiveSending(s) && Live(s, a)
    ensures LiveSending(Finish(s, a, ok, msg))
  {
  }

  // ---------- Owed starts ----------

  lemma OwedFrame(c: Config, act: Action)
    requires Guard(c, act)
    requires act.DoArm? || act.DoParse? || act.DoSettle? || act.DoDecline? || act.DoPost? || act.DoUnstage?
    ensures var d := Do(c, act);
      d.hand == c.hand && d.owed == c.owed && d.st.hist.requests == c.st.hist.requests && d.st.pending == c.st.pending &&
      d.st.hist.hollow == c.st.hist.hollow && d.st.states == c.st.states && d.st.hist.fate == c.st.hist.fate
  {
  }

  // At rest nothing is owed; only the fates matter.
  lemma OwedAtRest(c: Config, act: Action)
    requires OwedSound(c) && PlainHeads(c.st) && Guard(c, act) && Resting(c) && !act.DoOpen?
    ensures OwedSound(Do(c, act))
  {
    match act
    case DoDequeue(_, _) =>
    case DoDisconnect =>
    case DoClear(_) =>
    case DoCreate(_, _, _) =>
    case _ =>
  }

  predicate PlainHeads(s: State) { forall a | a in s.queues && s.queues[a] != [] :: s.queues[a][0].group == 0 }

  lemma OwedBegin(c: Config, suppress: bool)
    requires OwedSound(c) && Guard(c, DoBegin(suppress))
    ensures OwedSound(Do(c, DoBegin(suppress)))
  {
    var s, d := c.st, Do(c, DoBegin(suppress));
    var a, cmd := c.hand.value.address, c.hand.value.command;
    assert d.st.states == s.states[a := Sending];
    assert d.st.hist.hollow == s.hist.hollow && d.st.hist.requests == s.hist.requests && d.st.pending == s.pending;
    assert d.st.hist.fate == Installed(s, a, cmd);
  }

  lemma OwedFinish(c: Config, a: Address, ok: bool, msg: Message)
    requires OwedSound(c) && Guard(c, DoFinish(a, ok, msg))
    ensures OwedSound(Do(c, DoFinish(a, ok, msg)))
  {
    var s, d := c.st, Do(c, DoFinish(a, ok, msg));
    assert d.st.hist.hollow == s.hist.hollow && d.st.hist.requests == s.hist.requests && d.st.pending == s.pending;
    assert d.st.hist.fate == s.hist.fate[s.contexts[a].command.serial := Finished(a, ok)];
  }

  lemma OwedOpened(s: State, g: Group, c: Config, d: Config)
    requires c.owed == {} || c.st.hist.hollow
    requires CanStart(s, g.mask) && d.st == OpenGroup(s, g) && d.hand.None? && d.owed == c.owed + Owed(g)
    requires s.states == c.st.states && s.hist.fate == c.st.hist.fate && s.hist.hollow == c.st.hist.hollow
    requires g.id in s.hist.requests && g.id !in DeferredIds(s)
    requires forall p :: p in c.owed ==> p.0 in s.hist.requests && p.0 !in DeferredIds(s) && p.1 != 0
    requires !c.st.hist.hollow ==> forall n :: n in c.st.hist.fate ==> !c.st.hist.fate[n].Dropped?
    ensures OwedSound(d)
  {
    TargetsSound(g.mask);
    assert DeferredIds(d.st) == DeferredIds(s);
    forall p | p in Owed(g) ensures p.0 == g.id && p.1 in Targets(g.mask) && Available(s, p.1) {
    }
  }

  lemma OwedPop(c: Config)
    requires Lifecycle(c) && OwedSound(c) && Guard(c, DoPop)
    ensures OwedSound(Do(c, DoPop))
  {
    PoppedIds(c.st);
    assert c.st.pending[0] in c.st.pending;
    OwedOpened(PopPending(c.st), c.st.pending[0], c, Do(c, DoPop));
  }

  lemma OwedOpen(c: Config, tech: TechCommand, mask: Address)
    requires Lifecycle(c) && OwedSound(c) && Guard(c, DoOpen(tech, mask))
    ensures OwedSound(Do(c, DoOpen(tech, mask)))
  {
    var s := AcceptGroup(c.st, tech, mask);
    assert DeferredIds(s) == DeferredIds(c.st);
    OwedOpened(s, NewGroup(c.st, tech, mask), c, Do(c, DoOpen(tech, mask)));
  }

  lemma OwedHand(c: Config, act: Action)
    requires Lifecycle(c) && OwedSound(c) && Guard(c, act) && (act.DoEnqueue? || act.DoCreateFor? || act.DoDrop?)
    ensures OwedSound(Do(c, act))
  {
  }

  lemma OwedControl(c: Config, act: Action)
    requires OwedSound(c) && Guard(c, act)
    requires act.DoArm? || act.DoParse? || act.DoSettle? || act.DoDecline? || act.DoPost? || act.DoUnstage?
    ensures OwedSound(Do(c, act))
  {
    hide Do, Guard;
    OwedFrame(c, act);
  }

  lemma OwedKept(c: Config, act: Action)
    requires Lifecycle(c) && OwedSound(c) && PlainHeads(c.st) && Guard(c, act)
    ensures OwedSound(Do(c, act))
  {
    hide Do, OwedSound, Lifecycle, PlainHeads, CanStart;
    if act.DoEnqueue? || act.DoCreateFor? || act.DoDrop? {
      OwedHand(c, act);
    } else if act.DoBegin? {
      OwedBegin(c, act.suppress);
    } else if act.DoFinish? {
      OwedFinish(c, act.address, act.ok, act.message);
    } else if act.DoPop? {
      OwedPop(c);
    } else if act.DoOpen? {
      OwedOpen(c, act.tech, act.mask);
    } else if act.DoArm? || act.DoParse? || act.DoSettle? || act.DoDecline? || act.DoPost? || act.DoUnstage? {
      OwedControl(c, act);
    } else {
      OwedAtRest(c, act);
    }
  }

  // ---------- Waiting addresses ----------

  lemma OwnershipFrame(c: Config, act: Action)
    requires Guard(c, act)
    requires !act.DoBegin? && !act.DoArm? && !act.DoParse? && !act.DoFinish? && !act.DoDisconnect? && !act.DoDefer? && !act.DoPop?
    requires !act.DoOpen? && !act.DoSettle? && !act.DoEnqueue? && !act.DoDrop?
    ensures var d := Do(c, act);
      d.st.states == c.st.states && d.st.contexts == c.st.contexts && d.st.groups == c.st.groups && d.owed == c.owed &&
      d.settling == c.settling && d.st.hist.completions == c.st.hist.completions && d.st.hist.hollow == c.st.hist.hollow
  {
    hide Do, Guard;
    if OnHand(act) {
      HandOwes(c, act);
    }
    Frame(c, act);
  }

  lemma HandOwes(c: Config, act: Action)
    requires Guard(c, act) && (act.DoCreate? || act.DoCreateFor? || act.DoDequeue?)
    ensures Do(c, act).owed == c.owed
  {
  }

  // The engine after a start, as far as groups can tell.
  lemma BeginView(s: State, a: Address, cmd: Command, suppress: bool)
    requires Available(s, a)
    ensures var t := Begin(s, a, cmd, suppress);
      && t.states == s.states[a := Sending] && t.groups == s.groups && t.hist.hollow == s.hist.hollow
      && t.contexts.Keys == s.contexts.Keys + {a} && t.contexts[a].command == cmd && !t.contexts[a].completed
      && (forall b :: b in s.contexts && b != a ==> t.contexts[b] == s.contexts[b])
  {
  }

  lemma OwnershipBegin(c: Config, suppress: bool)
    requires OwedSound(c) && Ownership(c) && Guard(c, DoBegin(suppress))
    ensures Ownership(Do(c, DoBegin(suppress)))
  {
    hide Targets, GroupsOpen, QueueOf, CanStart, NewCommand, Create, Enqueue, FromQueue, Begin, Arm, SetParse, Finish,
      Settle, OpenGroup, PopPending, AcceptGroup, Resting;
    var s, d := c.st, Do(c, DoBegin(suppress));
    var a, cmd := c.hand.value.address, c.hand.value.command;
    BeginView(s, a, cmd, suppress);
    if !s.hist.hollow {
      forall id, b | id in s.groups && b in s.groups[id].waiting
        ensures (id, b) in d.owed || Own(d.st, id, b)
      {
        if b == a {
          assert (id, a) in c.owed;
          assert cmd.group == id;
        } else {
          assert (id, b) in c.owed || Own(s, id, b);
        }
      }
    }
  }

  lemma OwnershipFinish(c: Config, a: Address, ok: bool, msg: Message)
    requires Owning(c) && Guard(c, DoFinish(a, ok, msg))
    ensures Ownership(Do(c, DoFinish(a, ok, msg)))
  {
    hide Targets, TargetSet, CanStart;
    var s, d := c.st, Do(c, DoFinish(a, ok, msg));
    var cmd := s.contexts[a].command;
    assert d.st.groups == s.groups && d.st.hist.hollow == s.hist.hollow;
    assert |d.st.hist.completions| == |s.hist.completions| + 1;
    assert d.st.hist.completions[|s.hist.completions|].command == cmd && d.st.hist.completions[|s.hist.completions|].address == a;
    assert forall b :: b in s.contexts && b != a ==> b in d.st.contexts && d.st.contexts[b] == s.contexts[b];
    assert forall b :: b in s.states && b != a ==> b in d.st.states && d.st.states[b] == s.states[b];
    if !s.hist.hollow {
      forall id, b | id in d.st.groups && b in d.st.groups[id].waiting
        ensures Own(d.st, id, b) || OwnResult(d, id, b)
      {
        assert Own(s, id, b);
      }
    }
  }

  lemma OwnershipSettle(c: Config)
    requires Ownership(c) && Guard(c, DoSettle)
    ensures Ownership(Do(c, DoSettle))
  {
    var s, d := c.st, Do(c, DoSettle);
    var a := c.settling.value.address;
    assert d.st.contexts == s.contexts && d.st.states == s.states && d.owed == c.owed && d.st.hist.hollow == s.hist.hollow;
    if !s.hist.hollow {
      forall id, b | id in d.st.groups && b in d.st.groups[id].waiting
        ensures (id, b) in d.owed || Own(d.st, id, b)
      {
        assert b != a && b in s.groups[id].waiting;
        assert (id, b) in c.owed || Own(s, id, b);
      }
    }
  }

  lemma OwnershipOpened(c: Config, s: State, g: Group, d: Config)
    requires Ownership(c) && Calm(c) && (c.owed == {} || c.st.hist.hollow)
    requires d.st == OpenGroup(s, g) && d.owed == c.owed + Owed(g)
    requires s.states == c.st.states && s.contexts == c.st.contexts && s.groups == c.st.groups
    requires s.hist.hollow == c.st.hist.hollow
    ensures Ownership(d)
  {
    if !d.st.hist.hollow {
      forall id, b | id in d.st.groups && b in d.st.groups[id].waiting
        ensures (id, b) in d.owed || Own(d.st, id, b)
      {
        if id != g.id {
          assert Own(c.st, id, b);
        }
      }
    }
  }

  lemma OwnershipContexts(c: Config, act: Action)
    requires Ownership(c) && Guard(c, act) && (act.DoArm? || act.DoParse?)
    ensures Ownership(Do(c, act))
  {
    var s, d := c.st, Do(c, act);
    assert d.st.groups == s.groups && d.st.states == s.states && d.owed == c.owed;
    forall id, b | Own(s, id, b) ensures Own(d.st, id, b) {
    }
    forall id, b | OwnResult(c, id, b) ensures OwnResult(d, id, b) {
    }
  }

  lemma OwnershipDrop(c: Config, act: Action)
    requires Owning(c) && Guard(c, act) && (act.DoDrop? || act.DoEnqueue?)
    ensures Ownership(Do(c, act))
  {
    var d := Do(c, act);
    assert d.st.groups == c.st.groups && d.st.states == c.st.states && d.st.contexts == c.st.contexts;
    forall id, b | Own(c.st, id, b) ensures Own(d.st, id, b) {
    }
    forall id, b | OwnResult(c, id, b) ensures OwnResult(d, id, b) {
    }
  }

  lemma OwnershipSame(c: Config, d: Config)
    requires Ownership(c)
    requires d.st.states == c.st.states && d.st.contexts == c.st.contexts && d.st.groups == c.st.groups && d.owed == c.owed
    requires d.settling == c.settling && d.st.hist.completions == c.st.hist.completions && d.st.hist.hollow == c.st.hist.hollow
    ensures Ownership(d)
  {
    forall id, b | Own(c.st, id, b) ensures Own(d.st, id, b) {
    }
    forall id, b | OwnResult(c, id, b) ensures OwnResult(d, id, b) {
    }
  }

  lemma OwnershipGroup(c: Config, act: Action)
    requires Owning(c) && Guard(c, act) && (act.DoDisconnect? || act.DoDefer? || act.DoPop? || act.DoOpen?)
    ensures Ownership(Do(c, act))
  {
    if act.DoDefer? {
      OwnershipSame(c, Do(c, act));
    } else if act.DoPop? {
      OwnershipOpened(c, PopPending(c.st), c.st.pending[0], Do(c, act));
    } else if act.DoOpen? {
      OwnershipOpened(c, AcceptGroup(c.st, act.tech, act.mask), NewGroup(c.st, act.tech, act.mask), Do(c, act));
    }
  }

  lemma OwnershipOther(c: Config, act: Action)
    requires Owning(c) && Guard(c, act)
    requires !act.DoBegin? && !act.DoArm? && !act.DoParse? && !act.DoFinish? && !act.DoDisconnect? && !act.DoDefer?
    requires !act.DoPop? && !act.DoOpen? && !act.DoSettle? && !act.DoEnqueue? && !act.DoDrop?
    ensures Ownership(Do(c, act))
  {
    hide Do, Guard, Ownership;
    OwnershipFrame(c, act);
    OwnershipSame(c, Do(c, act));
  }

  lemma OwnershipKept(c: Config, act: Action)
    requires Owning(c) && Guard(c, act)
    ensures Ownership(Do(c, act))
  {
    hide Do, Guard, Ownership, LiveSending, OwedSound;
    if act.DoBegin? {
      OwnershipBegin(c, act.suppress);
    } else if act.DoFinish? {
      OwnershipFinish(c, act.address, act.ok, act.message);
    } else if act.DoSettle? {
      OwnershipSettle(c);
    } else if act.DoArm? || act.DoParse? {
      OwnershipContexts(c, act);
    } else if act.DoEnqueue? || act.DoDrop? {
      OwnershipDrop(c, act);
    } else if act.DoDisconnect? || act.DoDefer? || act.DoPop? || act.DoOpen? {
      OwnershipGroup(c, act);
    } else {
      OwnershipOther(c, act);
    }
  }

  lemma OwningKept(c: Config, act: Action)
    requires Lifecycle(c) && Owning(c) && PlainHeads(c.st) && Guard(c, act)
    ensures Owning(Do(c, act))
  {
    LiveSendingKept(c, act);
    OwedKept(c, act);
    OwnershipKept(c, act);
  }
}
