/** The invariant of every reachable state, and what it says about whole runs. */
module EngineRuns {
  import opened Protocol
  import opened EngineState
  import opened EngineSpec
  import opened EngineTrace
  import opened EngineReplay
  import opened EngineSteps
  import opened EngineStructure
  import opened EngineGroups
  import opened EngineCommands
  import opened EngineFifo
  import opened EngineOwnership
  import opened EngineVerdicts
  import opened EngineBarrier
  import opened EngineWork

  // ---------- Two more facts about every configuration ----------

  // Parse results are empty but for the context a datagram is just being reported to.
  ghost predicate Clean(c: Config) {
    forall a :: a in c.st.contexts ==> c.st.contexts[a].parsed == NoParse || c.parsing == Some(a)
  }

  lemma CleanLocal(c: Config, act: Action)
    requires Clean(c) && Guard(c, act) && (act.DoArm? || act.DoParse? || act.DoDisconnect?)
    ensures Clean(Do(c, act))
  {
  }

  lemma CleanSignal(c: Config, act: Action)
    requires Clean(c) && Guard(c, act) && (act.DoBegin? || act.DoFinish?)
    ensures Clean(Do(c, act))
  {
    hide CanStart;
  }

  lemma CleanOther(c: Config, act: Action)
    requires Clean(c) && Guard(c, act)
    requires !act.DoBegin? && !act.DoArm? && !act.DoParse? && !act.DoFinish? && !act.DoDisconnect?
    ensures Clean(Do(c, act))
  {
    hide Do, Guard;
    ContextFrame(c, act);
    ParsingFrame(c, act);
  }

  lemma CleanKept(c: Config, act: Action)
    requires Clean(c) && Guard(c, act)
    ensures Clean(Do(c, act))
  {
    hide Clean, Do, Guard;
    if act.DoBegin? || act.DoFinish? {
      CleanSignal(c, act);
    } else if act.DoArm? || act.DoParse? || act.DoDisconnect? {
      CleanLocal(c, act);
    } else {
      CleanOther(c, act);
    }
  }

  lemma ParsingFrame(c: Config, act: Action)
    requires Guard(c, act) && !act.DoParse? && !act.DoFinish?
    ensures Do(c, act).parsing == c.parsing
  {
    if !act.DoArm? {
      hide Do, Guard;
      Frame(c, act);
    }
  }

  // Only a VOLUME group can be without a request.
  ghost predicate HollowVolume(s: State) {
    s.hist.hollow ==> exists id :: id in s.hist.requests && s.hist.requests[id].tech.VOLUME?
  }

  lemma HollowGroup(c: Config, act: Action)
    requires Lifecycle(c) && HollowVolume(c.st) && Guard(c, act) && (act.DoOpen? || act.DoDefer? || act.DoPop?)
    ensures HollowVolume(Do(c, act).st)
  {
    hide CanStart, TargetSet, Targets, Ids;
    var s, t := c.st, Do(c, act).st;
    if act.DoPop? {
      assert s.pending[0] in s.pending;
      assert t.hist.requests == s.hist.requests;
    } else {
      assert forall id :: id in s.hist.requests ==> id in t.hist.requests && t.hist.requests[id] == s.hist.requests[id];
      assert s.nextGroupId in t.hist.requests && t.hist.requests[s.nextGroupId].tech == act.tech;
    }
  }

  lemma HollowKept(c: Config, act: Action)
    requires Lifecycle(c) && HollowVolume(c.st) && Guard(c, act)
    ensures HollowVolume(Do(c, act).st)
  {
    hide Do, Guard, Lifecycle;
    if act.DoOpen? || act.DoDefer? || act.DoPop? {
      HollowGroup(c, act);
    } else {
      HollowFrame(c, act);
    }
  }

  lemma HollowFrame(c: Config, act: Action)
    requires Guard(c, act) && !act.DoOpen? && !act.DoDefer? && !act.DoPop?
    ensures Do(c, act).st.hist.requests == c.st.hist.requests && Do(c, act).st.hist.hollow == c.st.hist.hollow
  {
    hide Do, Guard;
    Frame(c, act);
  }

  // ---------- The invariant ----------

  ghost predicate Inv(c: Config) {
    && Structure(c) && Lifecycle(c) && Ledger(c) && Fifo(c) && Owning(c)
    && AllStarted(c.st) && OneStart(c) && Judged(c.st) && SettlingIdle(c) && Clean(c) && HollowVolume(c.st)
  }

  lemma InvKept(c: Config, act: Action)
    requires Inv(c) && Guard(c, act)
    ensures Inv(Do(c, act))
  {
    hide HollowVolume, CanStart, Guard, Do, Ids, Accounted, Lifecycle, Signalled, Ledger, LiveSending, OwedSound,
      Ownership, AllStarted, OneStart, Judged, SettlingIdle;
    StructureKept(c, act);
    LifecycleKept(c, act);
    LedgerKept(c, act);
    FifoKept(c, act);
    HeadsPlain(c);
    OwningKept(c, act);
    AllStartedKept(c, act);
    OneStartKept(c, act);
    JudgedKept(c, act);
    SettlingKept(c, act);
    CleanKept(c, act);
    HollowKept(c, act);
  }

  lemma HeadsPlain(c: Config)
    requires Ledger(c)
    ensures EngineOwnership.PlainHeads(c.st) && PlainQueues(c.st)
  {
  }

  lemma {:induction false} InvFold(c: Config, acts: seq<Action>, d: Config)
    requires Inv(c) && Leads(c, acts, d)
    ensures Inv(d)
    decreases |acts|
  {
    hide HollowVolume, Inv, CanStart, Guard, Do, Structure, Lifecycle, Ledger, Fifo, Owning, AllStarted, OneStart,
      Judged, SettlingIdle;
    if acts != [] {
      InvKept(c, acts[0]);
      InvFold(Do(c, acts[0]), acts[1..], d);
    }
  }

  lemma NewStructure()
    ensures var c := AtRest(NewEngine); Structure(c) && Lifecycle(c) && Clean(c) && HollowVolume(c.st) && SettlingIdle(c)
  {
  }

  lemma NewCommands()
    ensures var c := AtRest(NewEngine); Ledger(c) && Fifo(c) && AllStarted(c.st)
  {
  }

  lemma NewGroups()
    ensures var c := AtRest(NewEngine); Owning(c) && OneStart(c) && Judged(c.st)
  {
  }

  lemma InvNew()
    ensures Inv(AtRest(NewEngine))
  {
    hide Structure, Lifecycle, Clean, HollowVolume, SettlingIdle, Ledger, Fifo, AllStarted, Owning, OneStart, Judged;
    NewStructure();
    NewCommands();
    NewGroups();
  }

  /** Every reachable state satisfies the invariant. */
  lemma {:induction false} RunInv(run: seq<Step>)
    requires ValidRun(run)
    ensures Inv(AtRest(Final(run)))
    decreases |run|
  {
    hide Enabled, Apply, Guard, Do, Legal, Leads, Ids, Plain, Structure, Accounted, Signalled, Ledger, Fifo, Owning,
      AllStarted, OneStart, Judged, SettlingIdle;
    if run == [] {
      InvNew();
    } else {
      var front := run[..|run| - 1];
      RunInv(front);
      HeadsPlain(AtRest(Final(front)));
      var acts := StepMoves(Final(front), run[|run| - 1]);
      InvFold(AtRest(Final(front)), acts, AtRest(Final(run)));
    }
  }
}
