/** Order: among the commands of one address that waited in its queue, starts happen in the order
    of submission. Serials are issued in order of submission, so the order is on serials. */
module EngineFifo {
  import opened Protocol
  import opened EngineState
  import opened EngineSpec
  import opened EngineTrace
  import opened EngineCommands

  predicate QueuedStartAt(start: Start, a: Address) { start.queued && start.address == a }

  predicate StartsInOrder(starts: seq<Start>) {
    forall i, j :: 0 <= i < j < |starts| && starts[i].queued && starts[j].queued && starts[i].address == starts[j].address ==>
      starts[i].command.serial < starts[j].command.serial
  }

  // Everything still queued is younger than everything already taken from the queue.
  ghost predicate QueueYounger(s: State) {
    forall i, a, k :: 0 <= i < |s.hist.starts| && QueuedStartAt(s.hist.starts[i], a) && a in s.queues && 0 <= k < |s.queues[a]| ==>
      s.hist.starts[i].command.serial < s.queues[a][k].serial
  }

  ghost predicate HandBetween(c: Config) {
    c.hand.Some? && FromQueue(c.st, c.hand.value.command) ==>
      && (forall i :: 0 <= i < |c.st.hist.starts| && QueuedStartAt(c.st.hist.starts[i], c.hand.value.address) ==>
            c.st.hist.starts[i].command.serial < c.hand.value.command.serial)
      && (forall k :: c.hand.value.address in c.st.queues && 0 <= k < |c.st.queues[c.hand.value.address]| ==>
            c.hand.value.command.serial < c.st.queues[c.hand.value.address][k].serial)
  }

  // Nothing started or queued is younger than the next serial.
  ghost predicate StartsIssued(h: History) {
    forall i :: 0 <= i < |h.starts| ==> h.starts[i].command.serial < h.serials
  }

  ghost predicate Fifo(c: Config) {
    && StartsInOrder(c.st.hist.starts) && StartsIssued(c.st.hist)
    && QueueYounger(c.st) && HandBetween(c) && NewestInHand(c)
    && (c.hand.Some? && !FromQueue(c.st, c.hand.value.command) ==> OldStarts(c))
  }

  // A command in hand that did not come from a queue is younger than every start.
  ghost predicate OldStarts(c: Config)
    requires c.hand.Some?
  {
    forall i :: 0 <= i < |c.st.hist.starts| ==> c.st.hist.starts[i].command.serial < c.hand.value.command.serial
  }

  lemma FifoSame(c: Config, d: Config)
    requires Fifo(c)
    requires d.st.hist.starts == c.st.hist.starts && d.st.hist.serials == c.st.hist.serials && d.st.hist.fate == c.st.hist.fate
    requires d.st.queues == c.st.queues && d.hand == c.hand
    ensures Fifo(d)
  {
  }

  lemma FifoFrame(c: Config, act: Action)
    requires Guard(c, act) && !MovesCommand(act)
    ensures var d := Do(c, act);
      d.st.hist.starts == c.st.hist.starts && d.st.hist.serials == c.st.hist.serials && d.st.hist.fate == c.st.hist.fate &&
      d.st.queues == c.st.queues && d.hand == c.hand
  {
    hide Do, Guard;
    Frame(c, act);
  }

  lemma FifoCreate(c: Config, act: Action)
    requires Ledger(c) && Fifo(c) && Guard(c, act) && (act.DoCreate? || act.DoCreateFor?)
    ensures Fifo(Do(c, act))
  {
    assert Do(c, act).st.hist.fate == c.st.hist.fate[c.st.hist.serials := InHand(false)];
  }

  lemma FifoEnqueue(c: Config)
    requires Ledger(c) && Fifo(c) && Guard(c, DoEnqueue)
    ensures Fifo(Do(c, DoEnqueue))
  {
    var s, t := c.st, Do(c, DoEnqueue).st;
    var a, cmd := c.hand.value.address, c.hand.value.command;
    assert t.queues == s.queues[a := QueueOf(s, a) + [cmd]] && t.hist.starts == s.hist.starts;
  }

  lemma FifoDequeue(c: Config, a: Address, woken: bool)
    requires Ledger(c) && Fifo(c) && Guard(c, DoDequeue(a, woken))
    ensures Fifo(Do(c, DoDequeue(a, woken)))
  {
    var s, d := c.st, Do(c, DoDequeue(a, woken));
    var q := s.queues[a];
    assert d.st.queues == if |q| == 1 then s.queues - {a} else s.queues[a := q[1..]];
    assert d.hand.value.command == q[0] && d.st.hist.starts == s.hist.starts;
    assert FromQueue(d.st, q[0]);
    assert forall k :: 0 < k < |q| ==> q[0].serial < q[k].serial;
  }

  lemma FifoDrop(c: Config)
    requires Fifo(c) && Guard(c, DoDrop)
    ensures Fifo(Do(c, DoDrop))
  {
  }

  lemma FifoBegin(c: Config, suppress: bool)
    requires Ledger(c) && Fifo(c) && Guard(c, DoBegin(suppress))
    ensures Fifo(Do(c, DoBegin(suppress)))
  {
    hide Targets, TargetSet, CanStart;
    var s, t := c.st, Do(c, DoBegin(suppress)).st;
    var a, cmd := c.hand.value.address, c.hand.value.command;
    assert t.hist.starts == s.hist.starts + [Start(a, cmd, FromQueue(s, cmd), GroupsOpen(s))];
    assert t.queues == s.queues && t.hist.serials == s.hist.serials;
  }

  lemma FifoFinish(c: Config, a: Address, ok: bool, msg: Message)
    requires Fifo(c) && Guard(c, DoFinish(a, ok, msg))
    ensures Fifo(Do(c, DoFinish(a, ok, msg)))
  {
    var s, t := c.st, Do(c, DoFinish(a, ok, msg)).st;
    assert t.queues == s.queues && t.hist.serials == s.hist.serials && t.hist.starts == s.hist.starts;
  }

  lemma FifoClear(c: Config, act: Action)
    requires Fifo(c) && Guard(c, act) && (act.DoClear? || act.DoDisconnect?)
    ensures Fifo(Do(c, act))
  {
  }

  lemma FifoKept(c: Config, act: Action)
    requires Ledger(c) && Fifo(c) && Guard(c, act)
    ensures Fifo(Do(c, act))
  {
    hide Guard, Do, Fifo;
    if act.DoCreate? || act.DoCreateFor? {
      FifoCreate(c, act);
    } else if act.DoEnqueue? {
      FifoEnqueue(c);
    } else if act.DoDequeue? {
      FifoDequeue(c, act.address, act.woken);
    } else if act.DoDrop? {
      FifoDrop(c);
    } else if act.DoBegin? {
      FifoBegin(c, act.suppress);
    } else if act.DoFinish? {
      FifoFinish(c, act.address, act.ok, act.message);
    } else if act.DoClear? || act.DoDisconnect? {
      FifoClear(c, act);
    } else {
      FifoFrame(c, act);
      FifoSame(c, Do(c, act));
    }
  }
}
