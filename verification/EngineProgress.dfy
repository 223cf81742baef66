/** No deadlock: whenever work is left, a running timer or the poll lowers it, nothing but a
    submission ever raises it, and so every run can be drained. */
module EngineProgress {
  import opened Protocol
  import opened EngineState
  import opened EngineSpec
  import opened EngineTrace
  import opened EngineReplay
  import opened EngineSteps
  import opened EngineCommands
  import opened EngineWork
  import opened EngineRuns
  import opened EngineTheorems

  /** No step but a submission raises the work left. */
  lemma WorkNeverRises(run: seq<Step>, step: Step)
    requires ValidRun(run) && Enabled(Final(run), step) && !Submission(step)
    ensures Work(Apply(Final(run), step)) <= Work(Final(run))
  {
    hide Apply, Final, Guard, Do, Legal, Leads, Ids, Plain, Signalled, Ledger, Clean, HollowVolume;
    RunInv(run);
    HeadsPlain(AtRest(Final(run)));
    var acts := StepMoves(Final(run), step);
    PotentialFold(AtRest(Final(run)), acts, AtRest(Apply(Final(run), step)));
  }

  // The addresses of a finite set, each once.
  lemma Enumerate(addresses: set<Address>) returns (order: seq<Address>)
    ensures Distinct(order) && Elements(order) == addresses
    decreases addresses
  {
    if addresses == {} {
      order := [];
      assert Elements(order) == {};
    } else {
      var a :| a in addresses;
      var rest := Enumerate(addresses - {a});
      order := [a] + rest;
      assert forall b :: b in order <==> b == a || b in rest;
      assert Elements(order) == {a} + Elements(rest) == addresses;
      assert forall j | 0 <= j < |rest| :: rest[j] in Elements(rest);
    }
  }

  // With no live command, nothing is Sending, so no group is open and only queues hold work.
  lemma IdleMeansAvailable(run: seq<Step>)
    requires ValidRun(run) && LiveSet(Final(run)) == {}
    ensures forall a :: !Live(Final(run), a) && Available(Final(run), a)
  {
    SendingIsTimed(run);
    forall a ensures !Live(Final(run), a) {
      assert a !in LiveSet(Final(run));
    }
  }

  // Nothing Sending: no group waits, so none is open, and none is deferred.
  lemma NoGroupLeft(s: State)
    requires forall id :: id in s.groups ==> s.groups[id].waiting != {}
    requires forall id, a :: id in s.groups ==> a !in s.groups[id].waiting
    ensures s.groups == map[]
  {
    assert forall id :: id in s.groups ==> s.groups[id].waiting == {};
  }

  lemma IdleMeansQueued(run: seq<Step>)
    requires ValidRun(run) && LiveSet(Final(run)) == {}
    ensures var s := Final(run); s.pending == [] && s.groups == map[] && (s.queues == map[] ==> Work(s) == 0)
  {
    hide Final, ValidRun;
    var s := Final(run);
    SendingIsTimed(run);
    IdleMeansAvailable(run);
    forall id, a | id in s.groups ensures a !in s.groups[id].waiting {
      assert a in s.groups[id].waiting ==> StateOf(s, a).Sending?;
      assert Available(s, a);
    }
    NoGroupLeft(s);
    if s.queues == map[] {
      NoQueues(0x1_0000);
    }
  }

  // A step that first completes or dequeues something lowers the work.
  lemma StepLowers(s: State, step: Step)
    requires Inv(AtRest(s)) && Enabled(s, step)
    requires step.TimeoutStep? || (step.TickStep? && step.order != [] && Runnable(s, step.order[0]))
    ensures Work(Apply(s, step)) < Work(s)
  {
    hide Apply, Guard, Do, Ids, Ledger, Clean, HollowVolume;
    HeadsPlain(AtRest(s));
    var acts := StepMoves(s, step);
    PotentialFold(AtRest(s), acts, AtRest(Apply(s, step)));
  }

  /** Whenever work is left, some Timeout or Tick is enabled and strictly lowers it. */
  lemma SomethingLowersWork(run: seq<Step>) returns (step: Step)
    requires ValidRun(run) && Work(Final(run)) > 0
    ensures (step.TimeoutStep? || step.TickStep?) && Enabled(Final(run), step)
    ensures Work(Apply(Final(run), step)) < Work(Final(run))
  {
    hide Apply, Final, Ids, Ledger, HollowVolume, Inv;
    var s := Final(run);
    RunInv(run);
    if a :| a in LiveSet(s) {
      SendingIsTimed(run);
      step := TimeoutStep(a);
    } else {
      step := RunnableTick(run);
    }
    StepLowers(s, step);
  }

  lemma RunnableTick(run: seq<Step>) returns (step: Step)
    requires ValidRun(run) && Work(Final(run)) > 0 && LiveSet(Final(run)) == {}
    ensures step.TickStep? && Enabled(Final(run), step) && step.order != [] && Runnable(Final(run), step.order[0])
  {
    var s := Final(run);
    IdleMeansAvailable(run);
    IdleMeansQueued(run);
    SendingIsTimed(run);
    var order := Enumerate(s.queues.Keys);
    assert s.queues.Keys != {};
    assert order != [];
    assert order[0] in Elements(order);
    step := TickStep(order, {});
  }

  predicate OnlyWaits(more: seq<Step>) { forall step | step in more :: step.TimeoutStep? || step.TickStep? }

  // `more` drains the run within the given number of steps.
  ghost predicate Drains(run: seq<Step>, more: seq<Step>, bound: nat) {
    ValidRun(run + more) && |more| <= bound && OnlyWaits(more) && Drained(Final(run + more))
  }

  /** Every run can be drained by timeouts and polls alone, in at most as many steps as there is
      work, and a drained engine holds nothing. */
  lemma {:induction false} RunsDrain(run: seq<Step>) returns (more: seq<Step>)
    requires ValidRun(run)
    ensures Drains(run, more, Work(Final(run)))
    decreases Work(Final(run))
  {
    if Work(Final(run)) == 0 {
      more := [];
      assert run + more == run;
      NoWorkIsDrained(run);
    } else {
      var step := LongerRun(run);
      var rest := RunsDrain(run + [step]);
      DrainsLonger(run, step, rest, Work(Final(run + [step])));
      more := [step] + rest;
    }
  }

  lemma DrainsLonger(run: seq<Step>, step: Step, rest: seq<Step>, bound: nat)
    requires Drains(run + [step], rest, bound) && (step.TimeoutStep? || step.TickStep?)
    ensures Drains(run, [step] + rest, bound + 1)
  {
    assert run + ([step] + rest) == (run + [step]) + rest;
  }

  lemma LongerRun(run: seq<Step>) returns (step: Step)
    requires ValidRun(run) && Work(Final(run)) > 0
    ensures step.TimeoutStep? || step.TickStep?
    ensures ValidRun(run + [step]) && Work(Final(run + [step])) < Work(Final(run))
  {
    step := SomethingLowersWork(run);
    Extend(run, step);
  }

  ghost predicate Drained(s: State) {
    s.queues == map[] && s.pending == [] && s.groups == map[] && !s.busy && forall a :: !Live(s, a) && Available(s, a)
  }

  lemma NoWorkIsDrained(run: seq<Step>)
    requires ValidRun(run) && Work(Final(run)) == 0
    ensures Drained(Final(run))
  {
    var s := Final(run);
    SendingIsTimed(run);
    IdleMeansAvailable(run);
    IdleMeansQueued(run);
    if a :| a in s.queues {
      QueuedSome(s.queues, a, 0x1_0000);
    }
  }

  lemma {:induction false} QueuedSome(queues: map<Address, seq<Command>>, a: Address, n: nat)
    requires n <= 0x1_0000 && a < n && a in queues && queues[a] != []
    ensures QueuedBelow(queues, n) > 0
  {
    if a < n - 1 {
      QueuedSome(queues, a, n - 1);
    }
  }

  // ---------- Signals are never taken back ----------

  predicate Prefix(h: History, k: History) {
    h.starts <= k.starts && h.completions <= k.completions && h.verdicts <= k.verdicts
  }

  lemma HistoryFrame(c: Config, act: Action)
    requires Guard(c, act)
    ensures Prefix(c.st.hist, Do(c, act).st.hist)
  {
    hide Do, Guard;
    Frame(c, act);
  }

  lemma {:induction false} HistoryFold(c: Config, acts: seq<Action>, d: Config)
    requires Leads(c, acts, d)
    ensures Prefix(c.st.hist, d.st.hist)
    decreases |acts|
  {
    if acts != [] {
      HistoryFrame(c, acts[0]);
      HistoryFold(Do(c, acts[0]), acts[1..], d);
    }
  }

  /** Every step only appends to the starts, completions and verdicts. */
  lemma HistoryGrows(run: seq<Step>, step: Step)
    requires ValidRun(run) && Enabled(Final(run), step)
    ensures Prefix(Final(run).hist, Apply(Final(run), step).hist)
  {
    hide Apply, Final, Guard, Do, Legal, Leads, Ids, Plain, Signalled, Ledger, Clean, HollowVolume;
    RunInv(run);
    HeadsPlain(AtRest(Final(run)));
    var acts := StepMoves(Final(run), step);
    HistoryFold(AtRest(Final(run)), acts, AtRest(Apply(Final(run), step)));
  }
}
