/** The work an engine still has to do. No action but a submission raises it, and every
    completion and every dequeue lowers it. */
module EngineWork {
  import opened Protocol
  import opened EngineState
  import opened EngineSpec
  import opened EngineTrace
  import opened EngineReplay

  // The commands queued at the addresses below `n`.
  function QueuedBelow(queues: map<Address, seq<Command>>, n: nat): nat
    requires n <= 0x1_0000
  {
    if n == 0 then 0
    else QueuedBelow(queues, n - 1) + (if n - 1 in queues then |queues[n - 1]| else 0)
  }

  function Queued(s: State): nat { QueuedBelow(s.queues, 0x1_0000) }

  // The addresses of the deferred groups.
  function Deferred(pending: seq<Group>): nat {
    if pending == [] then 0 else |Targets(pending[0].mask)| + Deferred(pending[1..])
  }

  function LiveSet(s: State): set<Address> { set a | a in s.contexts && !s.contexts[a].completed }

  function Work(s: State): nat { 2 * (Queued(s) + Deferred(s.pending)) + |LiveSet(s)| }

  function Potential(c: Config): nat {
    Work(c.st) + |c.owed| + (if c.hand.Some? && c.hand.value.command.group == 0 then 1 else 0)
  }

  lemma {:induction false} QueueLength(q: map<Address, seq<Command>>, r: map<Address, seq<Command>>, a: Address, n: nat)
    requires n <= 0x1_0000
    requires forall b: Address :: b != a ==> (b in q <==> b in r) && (b in q ==> q[b] == r[b])
    ensures QueuedBelow(r, n) - QueuedBelow(q, n) ==
      if a < n then (if a in r then |r[a]| else 0) - (if a in q then |q[a]| else 0) else 0
  {
    if n > 0 {
      QueueLength(q, r, a, n - 1);
    }
  }

  lemma {:induction false} NoQueues(n: nat)
    requires n <= 0x1_0000
    ensures QueuedBelow(map[], n) == 0
  {
    if n > 0 {
      NoQueues(n - 1);
    }
  }

  lemma {:induction false} PairsCount(id: nat, todo: seq<Address>)
    ensures |Pairs(id, todo)| <= |todo|
  {
    if todo == [] {
      assert Pairs(id, todo) == {};
    } else {
      assert Pairs(id, todo) == {(id, todo[0])} + Pairs(id, todo[1..]);
      PairsCount(id, todo[1..]);
    }
  }

  // ---------- Actions ----------

  lemma WorkContext(c: Config, act: Action)
    requires Guard(c, act) && OnContext(act)
    ensures var d := Do(c, act);
      d.st.queues == c.st.queues && d.st.pending == c.st.pending && d.owed == c.owed && d.hand == c.hand &&
      LiveSet(d.st) == LiveSet(c.st)
  {
  }

  // The parts of the state that only the actions of submissions, starts and completions touch.
  lemma WorkFrame(c: Config, act: Action)
    requires Guard(c, act)
    requires act.DoArm? || act.DoParse? || act.DoSettle? || act.DoDecline? || act.DoPost? || act.DoTake? || act.DoUnstage?
      || act.DoStage? || act.DoReportFu?
    ensures var d := Do(c, act);
      d.st.queues == c.st.queues && d.st.pending == c.st.pending && d.owed == c.owed && d.hand == c.hand &&
      LiveSet(d.st) == LiveSet(c.st)
  {
    hide Do, Guard;
    if OnContext(act) {
      WorkContext(c, act);
    } else {
      Frame(c, act);
    }
  }

  lemma PotentialBegin(c: Config, suppress: bool)
    requires Guard(c, DoBegin(suppress))
    ensures Potential(Do(c, DoBegin(suppress))) <= Potential(c)
  {
    hide Targets, TargetSet, CanStart;
    var d := Do(c, DoBegin(suppress));
    assert LiveSet(d.st) == LiveSet(c.st) + {c.hand.value.address};
    PlacedPotential(c);
  }

  lemma PlacedPotential(c: Config)
    requires Holding(c)
    ensures Potential(Placed(c)) == Potential(c) - 1
  {
    if c.hand.value.command.group == 0 {
      assert Placed(c).owed == c.owed;
    }
  }

  lemma PotentialFinish(c: Config, a: Address, ok: bool, msg: Message)
    requires Guard(c, DoFinish(a, ok, msg))
    ensures Potential(Do(c, DoFinish(a, ok, msg))) < Potential(c)
  {
    var d := Do(c, DoFinish(a, ok, msg));
    assert LiveSet(d.st) == LiveSet(c.st) - {a};
    assert a in LiveSet(c.st);
  }

  lemma PotentialDequeue(c: Config, a: Address, woken: bool)
    requires Guard(c, DoDequeue(a, woken))
    ensures Potential(Do(c, DoDequeue(a, woken))) < Potential(c)
  {
    var d := Do(c, DoDequeue(a, woken));
    QueueLength(c.st.queues, d.st.queues, a, 0x1_0000);
    assert LiveSet(d.st) == LiveSet(c.st);
  }

  lemma PotentialPop(c: Config)
    requires Guard(c, DoPop)
    ensures Potential(Do(c, DoPop)) <= Potential(c)
  {
    var d := Do(c, DoPop);
    var g := c.st.pending[0];
    PairsCount(g.id, Targets(g.mask));
    assert LiveSet(d.st) == LiveSet(c.st);
  }

  lemma PotentialClear(c: Config, act: Action)
    requires Guard(c, act) && (act.DoClear? || act.DoDisconnect?)
    ensures Potential(Do(c, act)) <= Potential(c)
  {
    var d := Do(c, act);
    assert LiveSet(d.st) == LiveSet(c.st);
    if act.DoClear? {
      QueueLength(c.st.queues, d.st.queues, act.address, 0x1_0000);
    } else {
      NoQueues(0x1_0000);
    }
  }

  lemma PotentialHand(c: Config, act: Action)
    requires Guard(c, act) && (act.DoDrop? || act.DoCreateFor?)
    ensures Potential(Do(c, act)) <= Potential(c)
  {
    if act.DoDrop? {
      PlacedPotential(c);
    }
    assert LiveSet(Do(c, act).st) == LiveSet(c.st);
  }

  lemma PotentialControl(c: Config, act: Action)
    requires Guard(c, act)
    requires act.DoArm? || act.DoParse? || act.DoSettle? || act.DoDecline? || act.DoPost? || act.DoTake? || act.DoUnstage?
      || act.DoStage? || act.DoReportFu?
    ensures Potential(Do(c, act)) <= Potential(c)
  {
    hide Do, Guard, LiveSet;
    WorkFrame(c, act);
  }

  lemma PotentialKept(c: Config, act: Action)
    requires Guard(c, act) && !Submits(act)
    ensures Potential(Do(c, act)) <= Potential(c)
    ensures act.DoFinish? || act.DoDequeue? ==> Potential(Do(c, act)) < Potential(c)
  {
    hide Do, Guard, Potential;
    if act.DoBegin? {
      PotentialBegin(c, act.suppress);
    } else if act.DoFinish? {
      PotentialFinish(c, act.address, act.ok, act.message);
    } else if act.DoDequeue? {
      PotentialDequeue(c, act.address, act.woken);
    } else if act.DoPop? {
      PotentialPop(c);
    } else if act.DoClear? || act.DoDisconnect? {
      PotentialClear(c, act);
    } else if act.DoDrop? || act.DoCreateFor? {
      PotentialHand(c, act);
    } else {
      PotentialControl(c, act);
    }
  }

  lemma {:induction false} PotentialFold(c: Config, acts: seq<Action>, d: Config)
    requires Leads(c, acts, d) && forall act | act in acts :: !Submits(act)
    ensures Potential(d) <= Potential(c)
    ensures acts != [] && (acts[0].DoFinish? || acts[0].DoDequeue?) ==> Potential(d) < Potential(c)
    decreases |acts|
  {
    if acts != [] {
      PotentialKept(c, acts[0]);
      PotentialFold(Do(c, acts[0]), acts[1..], d);
    }
  }
}
