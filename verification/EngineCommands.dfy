/** Conservation of commands: every command created is at every moment in exactly one place (in
    hand, queued, active, finished, or removed), the history of fates agrees with the queues and
    contexts, each completion is signalled once, and queues are first in, first out. */
module EngineCommands {
  import opened Protocol
  import opened EngineState
  import opened EngineSpec
  import opened EngineTrace

  type Queues = map<Address, seq<Command>>

  // ---------- Queues ----------

  predicate InQueue(q: seq<Command>, n: nat) { exists i | 0 <= i < |q| :: q[i].serial == n }

  predicate Ascending(q: seq<Command>) { forall i, j :: 0 <= i < j < |q| ==> q[i].serial < q[j].serial }

  ghost predicate Queueing(s: State) {
    && (forall n :: n in s.hist.fate <==> 0 <= n < s.hist.serials)
    && (forall a :: a in s.queues ==> s.queues[a] != [] && Ascending(s.queues[a]))
    && (forall a, i :: a in s.queues && 0 <= i < |s.queues[a]| ==>
          s.queues[a][i].serial < s.hist.serials && s.hist.fate[s.queues[a][i].serial] == Queued(a) && s.queues[a][i].group == 0)
    && (forall n :: n in s.hist.fate && s.hist.fate[n].Queued? ==>
          s.hist.fate[n].address in s.queues && InQueue(s.queues[s.hist.fate[n].address], n))
  }

  // ---------- Contexts ----------

  ghost predicate Executing(s: State) {
    && (forall a :: a in s.contexts && !s.contexts[a].completed ==>
          s.contexts[a].command.serial in s.hist.fate && s.hist.fate[s.contexts[a].command.serial] == Active(a))
    && (forall n :: n in s.hist.fate && s.hist.fate[n].Active? ==>
          Live(s, s.hist.fate[n].address) && s.contexts[s.hist.fate[n].address].command.serial == n)
  }

  // ---------- The command in hand ----------

  ghost predicate InOneHand(c: Config) {
    && (c.hand.Some? ==> c.hand.value.command.serial in c.st.hist.fate && c.st.hist.fate[c.hand.value.command.serial].InHand?)
    && (forall n :: n in c.st.hist.fate && c.st.hist.fate[n].InHand? ==> c.hand.Some? && c.hand.value.command.serial == n)
  }

  // ---------- Completions ----------

  predicate Completed(completions: seq<Completion>, n: nat) {
    exists i | 0 <= i < |completions| :: completions[i].command.serial == n
  }

  ghost predicate Signalled(h: History) {
    && (forall i :: 0 <= i < |h.completions| ==>
          h.completions[i].command.serial in h.fate &&
          h.fate[h.completions[i].command.serial] == Finished(h.completions[i].address, h.completions[i].ok))
    && (forall i, j :: 0 <= i < j < |h.completions| ==> h.completions[i].command.serial != h.completions[j].command.serial)
    && (forall n :: n in h.fate && h.fate[n].Finished? ==> Completed(h.completions, n))
  }

  ghost predicate Ledger(c: Config) { Queueing(c.st) && Executing(c.st) && InOneHand(c) && Signalled(c.st.hist) }

  // ---------- Actions that move no command ----------

  ghost predicate SameLedger(c: Config, d: Config) {
    && d.st.queues == c.st.queues && d.st.hist.fate == c.st.hist.fate && d.st.hist.serials == c.st.hist.serials
    && d.st.hist.completions == c.st.hist.completions && d.hand == c.hand
    && (forall a :: a in d.st.contexts && !d.st.contexts[a].completed ==>
          a in c.st.contexts && !c.st.contexts[a].completed && d.st.contexts[a].command == c.st.contexts[a].command)
    && (forall a :: a in c.st.contexts && !c.st.contexts[a].completed ==> a in d.st.contexts && !d.st.contexts[a].completed)
  }

  predicate MovesCommand(act: Action) {
    act.DoCreate? || act.DoCreateFor? || act.DoEnqueue? || act.DoDequeue? || act.DoDrop? || act.DoBegin? || act.DoFinish?
    || act.DoClear? || act.DoDisconnect?
  }

  lemma LedgerContext(c: Config, act: Action)
    requires Guard(c, act) && OnContext(act)
    ensures SameLedger(c, Do(c, act))
  {
  }

  lemma LedgerFrame(c: Config, act: Action)
    requires Guard(c, act) && !MovesCommand(act)
    ensures SameLedger(c, Do(c, act))
  {
    hide Do, Guard;
    if OnContext(act) {
      LedgerContext(c, act);
    } else {
      Frame(c, act);
    }
  }

  lemma LedgerSame(c: Config, d: Config)
    requires Ledger(c) && SameLedger(c, d)
    ensures Ledger(d)
  {
    assert forall a :: Live(c.st, a) ==> Live(d.st, a);
  }

  // ---------- Creation ----------

  lemma CreateQueueing(s: State)
    requires Queueing(s)
    ensures Queueing(Create(s))
  {
    var t := Create(s);
    assert t.hist.fate == s.hist.fate[s.hist.serials := InHand(false)] && t.hist.serials == s.hist.serials + 1;
    assert s.hist.serials !in s.hist.fate;
  }

  lemma CreateRest(s: State)
    requires Queueing(s) && Executing(s) && Signalled(s.hist)
    ensures Executing(Create(s)) && Signalled(Create(s).hist)
  {
    hide Do;
    assert s.hist.serials !in s.hist.fate;
    assert forall a :: Live(s, a) ==> Live(Create(s), a);
  }

  lemma LedgerCreate(c: Config, act: Action)
    requires Ledger(c) && Guard(c, act) && (act.DoCreate? || act.DoCreateFor?)
    ensures Ledger(Do(c, act))
  {
    CreateQueueing(c.st);
    CreateRest(c.st);
  }

  // ---------- Fates of one command ----------

  // A change of fate of a command that is not queued, to anything but Queued, keeps the queues right.
  lemma FateQueueing(s: State, t: State, n: nat)
    requires Queueing(s) && t.queues == s.queues && t.hist.serials == s.hist.serials
    requires n in s.hist.fate && !s.hist.fate[n].Queued?
    requires n in t.hist.fate && !t.hist.fate[n].Queued?
    requires t.hist.fate.Keys == s.hist.fate.Keys
    requires forall m :: m in s.hist.fate && m != n ==> t.hist.fate[m] == s.hist.fate[m]
    ensures Queueing(t)
  {
  }

  // ---------- Queue operations ----------

  lemma EnqueueQueueing(s: State, a: Address, cmd: Command)
    requires Queueing(s) && cmd.serial in s.hist.fate && s.hist.fate[cmd.serial].InHand? && cmd.group == 0
    requires forall i :: 0 <= i < |QueueOf(s, a)| ==> QueueOf(s, a)[i].serial < cmd.serial
    ensures Queueing(Enqueue(s, a, cmd))
  {
    hide Executing;
    var t := Enqueue(s, a, cmd);
    var q := QueueOf(s, a);
    assert t.queues[a] == q + [cmd] && t.queues[a][|q|] == cmd;
    forall n | n in t.hist.fate && t.hist.fate[n].Queued?
      ensures t.hist.fate[n].address in t.queues && InQueue(t.queues[t.hist.fate[n].address], n)
    {
      if n != cmd.serial && s.hist.fate[n].address == a {
        var i :| 0 <= i < |q| && q[i].serial == n;
        assert t.queues[a][i].serial == n;
      }
    }
  }

  lemma EnqueueRest(s: State, a: Address, cmd: Command)
    requires Executing(s) && Signalled(s.hist) && cmd.serial in s.hist.fate && s.hist.fate[cmd.serial].InHand?
    ensures Executing(Enqueue(s, a, cmd)) && Signalled(Enqueue(s, a, cmd).hist)
  {
    assert forall b :: Live(s, b) ==> Live(Enqueue(s, a, cmd), b);
  }

  lemma DequeueQueueing(s: State, a: Address)
    requires Queueing(s) && QueueOf(s, a) != []
    ensures Queueing(Dequeue(s, a))
  {
    var t := Dequeue(s, a);
    var q := s.queues[a];
    assert |q| > 1 ==> t.queues[a] == q[1..];
    assert |q| > 1 ==> forall i :: 0 <= i < |q| - 1 ==> t.queues[a][i] == q[i + 1];
    forall n | n in t.hist.fate && t.hist.fate[n].Queued?
      ensures t.hist.fate[n].address in t.queues && InQueue(t.queues[t.hist.fate[n].address], n)
    {
      if s.hist.fate[n].address == a {
        var i :| 0 <= i < |q| && q[i].serial == n;
        assert i > 0;
        assert t.queues[a][i - 1].serial == n;
      }
    }
  }

  lemma DequeueRest(s: State, a: Address)
    requires Queueing(s) && Executing(s) && Signalled(s.hist) && QueueOf(s, a) != []
    ensures Executing(Dequeue(s, a)) && Signalled(Dequeue(s, a).hist)
  {
    var head := s.queues[a][0];
    assert s.hist.fate[head.serial] == Queued(a);
    assert forall b :: Live(s, b) ==> Live(Dequeue(s, a), b);
  }

  lemma ClearQueueing(s: State, a: Address)
    requires Queueing(s)
    ensures Queueing(ClearQueue(s, a))
  {
  }

  lemma ClearRest(s: State, a: Address)
    requires Executing(s) && Signalled(s.hist)
    ensures Executing(ClearQueue(s, a)) && Signalled(ClearQueue(s, a).hist)
  {
    assert forall b :: Live(s, b) ==> Live(ClearQueue(s, a), b);
  }

  lemma DisconnectQueueing(s: State)
    requires Queueing(s) && Executing(s) && Signalled(s.hist)
    ensures Queueing(Disconnect(s)) && Executing(Disconnect(s)) && Signalled(Disconnect(s).hist)
  {
    assert forall b :: Live(s, b) ==> Live(Disconnect(s), b);
  }

  // ---------- Starts ----------

  lemma BeginQueueing(s: State, a: Address, cmd: Command, suppress: bool)
    requires Queueing(s) && Executing(s) && cmd.serial in s.hist.fate && s.hist.fate[cmd.serial].InHand?
    ensures Queueing(Begin(s, a, cmd, suppress))
  {
    var t := Begin(s, a, cmd, suppress);
    if Live(s, a) {
      var lost := s.contexts[a].command.serial;
      var u := s.(hist := s.hist.(fate := s.hist.fate[lost := Overwritten]));
      FateQueueing(s, u, lost);
      FateQueueing(u, t, cmd.serial);
    } else {
      FateQueueing(s, t, cmd.serial);
    }
  }

  // The contexts after a start: `a` holds the new command, the others are untouched.
  lemma BeginContexts(s: State, a: Address, cmd: Command, suppress: bool)
    ensures var t := Begin(s, a, cmd, suppress);
      t.contexts.Keys == s.contexts.Keys + {a} && t.contexts[a].command == cmd && !t.contexts[a].completed &&
      (forall b :: b in s.contexts && b != a ==> t.contexts[b] == s.contexts[b]) && t.hist.fate == Installed(s, a, cmd)
  {
  }

  lemma BeginExecuting(s: State, a: Address, cmd: Command, suppress: bool)
    requires Executing(s) && cmd.serial in s.hist.fate && s.hist.fate[cmd.serial].InHand?
    ensures Executing(Begin(s, a, cmd, suppress))
  {
    BeginContexts(s, a, cmd, suppress);
    InstalledExecuting(s, Begin(s, a, cmd, suppress), a, cmd);
  }

  lemma InstalledExecuting(s: State, t: State, a: Address, cmd: Command)
    requires Executing(s) && cmd.serial in s.hist.fate && s.hist.fate[cmd.serial].InHand?
    requires t.contexts.Keys == s.contexts.Keys + {a} && t.contexts[a].command == cmd && !t.contexts[a].completed
    requires forall b :: b in s.contexts && b != a ==> t.contexts[b] == s.contexts[b]
    requires t.hist.fate == Installed(s, a, cmd)
    ensures Executing(t)
  {
    assert forall b :: b != a && Live(s, b) ==> Live(t, b);
  }

  lemma BeginSignalled(s: State, a: Address, cmd: Command, suppress: bool)
    requires Executing(s) && Signalled(s.hist) && cmd.serial in s.hist.fate && s.hist.fate[cmd.serial].InHand?
    ensures Signalled(Begin(s, a, cmd, suppress).hist)
  {
    assert Begin(s, a, cmd, suppress).hist.fate == Installed(s, a, cmd);
  }

  // ---------- Completions ----------

  lemma FinishQueueing(s: State, a: Address, ok: bool, msg: Message)
    requires Queueing(s) && Executing(s) && Live(s, a)
    ensures Queueing(Finish(s, a, ok, msg))
  {
    FateQueueing(s, Finish(s, a, ok, msg), s.contexts[a].command.serial);
  }

  lemma FinishExecuting(s: State, a: Address, ok: bool, msg: Message)
    requires Executing(s) && Live(s, a)
    ensures Executing(Finish(s, a, ok, msg))
  {
    var t := Finish(s, a, ok, msg);
    assert !Live(t, a);
    assert forall b :: b != a ==> (b in t.contexts <==> b in s.contexts) && (b in s.contexts ==> t.contexts[b] == s.contexts[b]);
    assert t.hist.fate == s.hist.fate[s.contexts[a].command.serial := Finished(a, ok)];
  }

  lemma FinishSignalled(s: State, a: Address, ok: bool, msg: Message)
    requires Executing(s) && Signalled(s.hist) && Live(s, a)
    ensures Signalled(Finish(s, a, ok, msg).hist)
  {
    hide Do;
    var h, k := s.hist, Finish(s, a, ok, msg).hist;
    var n := s.contexts[a].command.serial;
    assert h.fate[n] == Active(a);
    assert k.fate == h.fate[n := Finished(a, ok)];
    assert |k.completions| == |h.completions| + 1 && k.completions[..|h.completions|] == h.completions;
    assert k.completions[|h.completions|].command.serial == n;
    forall m | m in k.fate && k.fate[m].Finished? ensures Completed(k.completions, m) {
      if m != n {
        var i :| 0 <= i < |h.completions| && h.completions[i].command.serial == m;
        assert k.completions[i].command.serial == m;
      }
    }
  }

  // ---------- All actions ----------

  // A command in hand that did not come from a queue is newer than every queued one.
  ghost predicate NewestInHand(c: Config) {
    c.hand.Some? && !FromQueue(c.st, c.hand.value.command) ==>
      forall a, i :: a in c.st.queues && 0 <= i < |c.st.queues[a]| ==> c.st.queues[a][i].serial < c.hand.value.command.serial
  }

  // The actions that move the command in hand.
  lemma LedgerHand(c: Config, act: Action)
    requires Ledger(c) && NewestInHand(c) && Guard(c, act)
    requires act.DoCreate? || act.DoCreateFor? || act.DoEnqueue? || act.DoDequeue? || act.DoDrop?
    ensures Ledger(Do(c, act))
  {
    hide Do, Guard, Ledger;
    match act
    case DoCreate(_, _, _) => LedgerCreate(c, act);
    case DoCreateFor(_, _, _) => LedgerCreate(c, act);
    case DoEnqueue => LedgerEnqueue(c);
    case DoDequeue(a, woken) => LedgerDequeue(c, a, woken);
    case DoDrop => LedgerDrop(c);
  }

  lemma LedgerClear(c: Config, a: Address)
    requires Ledger(c) && Guard(c, DoClear(a))
    ensures Ledger(Do(c, DoClear(a)))
  {
    ClearQueueing(c.st, a);
    ClearRest(c.st, a);
  }

  lemma LedgerDisconnect(c: Config)
    requires Ledger(c) && Guard(c, DoDisconnect)
    ensures Ledger(Do(c, DoDisconnect))
  {
    DisconnectQueueing(c.st);
  }

  lemma LedgerKept(c: Config, act: Action)
    requires Ledger(c) && NewestInHand(c) && Guard(c, act)
    ensures Ledger(Do(c, act))
  {
    hide Do, Guard, Ledger;
    if act.DoCreate? || act.DoCreateFor? || act.DoEnqueue? || act.DoDequeue? || act.DoDrop? {
      LedgerHand(c, act);
    } else if act.DoBegin? {
      LedgerBegin(c, act.suppress);
    } else if act.DoFinish? {
      LedgerFinish(c, act.address, act.ok, act.message);
    } else if act.DoClear? {
      LedgerClear(c, act.address);
    } else if act.DoDisconnect? {
      LedgerDisconnect(c);
    } else {
      LedgerFrame(c, act);
      LedgerSame(c, Do(c, act));
    }
  }

  lemma LedgerEnqueue(c: Config)
    requires Ledger(c) && NewestInHand(c) && Guard(c, DoEnqueue)
    ensures Ledger(Do(c, DoEnqueue))
  {
    EnqueueQueueing(c.st, c.hand.value.address, c.hand.value.command);
    EnqueueRest(c.st, c.hand.value.address, c.hand.value.command);
  }

  lemma LedgerDequeue(c: Config, a: Address, woken: bool)
    requires Ledger(c) && Guard(c, DoDequeue(a, woken))
    ensures Ledger(Do(c, DoDequeue(a, woken)))
  {
    var s := if woken then Take(c.st, WakeUp(a)) else c.st;
    LedgerSame(c, c.(st := s));
    DequeueQueueing(s, a);
    DequeueRest(s, a);
    DequeueHand(s, a);
  }

  lemma DequeueHand(s: State, a: Address)
    requires Queueing(s) && QueueOf(s, a) != []
    requires forall n :: n in s.hist.fate ==> !s.hist.fate[n].InHand?
    ensures var t := Dequeue(s, a);
      forall n :: n in t.hist.fate && t.hist.fate[n].InHand? <==> n == s.queues[a][0].serial
  {
    assert s.queues[a][0].serial in s.hist.fate;
  }

  lemma LedgerDrop(c: Config)
    requires Ledger(c) && Guard(c, DoDrop)
    ensures Ledger(Do(c, DoDrop))
  {
    var d := Do(c, DoDrop);
    FateQueueing(c.st, d.st, c.hand.value.command.serial);
    assert forall b :: Live(c.st, b) ==> Live(d.st, b);
  }

  lemma LedgerBegin(c: Config, suppress: bool)
    requires Ledger(c) && Guard(c, DoBegin(suppress))
    ensures Ledger(Do(c, DoBegin(suppress)))
  {
    BeginQueueing(c.st, c.hand.value.address, c.hand.value.command, suppress);
    BeginExecuting(c.st, c.hand.value.address, c.hand.value.command, suppress);
    BeginSignalled(c.st, c.hand.value.address, c.hand.value.command, suppress);
    BeginHand(c, suppress);
  }

  lemma LedgerFinish(c: Config, a: Address, ok: bool, msg: Message)
    requires Ledger(c) && Guard(c, DoFinish(a, ok, msg))
    ensures Ledger(Do(c, DoFinish(a, ok, msg)))
  {
    FinishQueueing(c.st, a, ok, msg);
    FinishExecuting(c.st, a, ok, msg);
    FinishSignalled(c.st, a, ok, msg);
    FinishHand(c, a, ok, msg);
  }

  lemma BeginHand(c: Config, suppress: bool)
    requires InOneHand(c) && Guard(c, DoBegin(suppress))
    ensures InOneHand(Do(c, DoBegin(suppress)))
  {
    assert Do(c, DoBegin(suppress)).st.hist.fate == Installed(c.st, c.hand.value.address, c.hand.value.command);
  }

  lemma FinishHand(c: Config, a: Address, ok: bool, msg: Message)
    requires InOneHand(c) && Guard(c, DoFinish(a, ok, msg))
    ensures InOneHand(Do(c, DoFinish(a, ok, msg)))
  {
    assert Do(c, DoFinish(a, ok, msg)).st.hist.fate == c.st.hist.fate[c.st.contexts[a].command.serial := Finished(a, ok)];
  }
}
