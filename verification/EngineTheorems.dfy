/** What every run of the command engine guarantees. */
module EngineTheorems {
  import opened Protocol
  import opened EngineState
  import opened EngineSpec
  import opened EngineTrace
  import opened EngineReplay
  import opened EngineSteps
  import opened EngineStructure
  import opened EngineGroups
  import opened EngineCommands
  import opened EngineFifo
  import opened EngineOwnership
  import opened EngineVerdicts
  import opened EngineBarrier
  import opened EngineWork
  import opened EngineRuns
  import opened EngineDatagram

  predicate NoDisconnect(run: seq<Step>) { forall step | step in run :: !step.DisconnectStep? }

  // No group asks for VOLUME, the one command that may have no request.
  predicate NoVolumeGroup(run: seq<Step>) { forall step | step in run :: step.GroupStep? ==> !step.tech.VOLUME? }

  // ---------- Flags of the history, in terms of the run ----------

  lemma FlagsFrame(c: Config, act: Action)
    requires Guard(c, act) && !act.DoOpen? && !act.DoDefer? && !act.DoDisconnect?
    ensures var h, k := c.st.hist, Do(c, act).st.hist;
      k.requests == h.requests && k.disconnected == h.disconnected && k.abandoned == h.abandoned
  {
    hide Do, Guard;
    Frame(c, act);
  }

  lemma {:induction false} FlagsFold(c: Config, acts: seq<Action>, d: Config)
    requires Leads(c, acts, d) && Plain(acts)
    ensures var h, k := c.st.hist, d.st.hist;
      k.requests == h.requests && k.disconnected == h.disconnected && k.abandoned == h.abandoned
    decreases |acts|
  {
    if acts != [] {
      FlagsFrame(c, acts[0]);
      FlagsFold(Do(c, acts[0]), acts[1..], d);
    }
  }

  lemma AcceptFlags(s: State, act: Action)
    requires Guard(AtRest(s), act) && (act.DoOpen? || act.DoDefer?)
    ensures var h, k := s.hist, Do(AtRest(s), act).st.hist;
      && k.disconnected == h.disconnected && k.abandoned == h.abandoned
      && k.requests == h.requests[s.nextGroupId := Group(s.nextGroupId, act.tech, act.mask)]
  {
    hide TargetSet, CanStart;
  }

  lemma GroupFlags(s: State, step: Step)
    requires Inv(AtRest(s)) && Enabled(s, step) && step.GroupStep?
    ensures var h, k := s.hist, Apply(s, step).hist;
      && k.disconnected == h.disconnected && k.abandoned == h.abandoned
      && k.requests in {h.requests, h.requests[s.nextGroupId := Group(s.nextGroupId, step.tech, step.mask)]}
  {
    hide Apply, Do, Guard, Ids, Structure, Accounted, Signalled, Ledger, Fifo, Owning, AllStarted, OneStart, Judged,
      SettlingIdle, Clean, HollowVolume;
    HeadsPlain(AtRest(s));
    var acts := StepMoves(s, step);
    if acts != [] {
      AcceptFlags(s, acts[0]);
      FlagsFold(Do(AtRest(s), acts[0]), acts[1..], AtRest(Apply(s, step)));
    }
  }

  lemma PlainFlags(s: State, step: Step)
    requires Inv(AtRest(s)) && Enabled(s, step) && !step.GroupStep? && !step.DisconnectStep?
    ensures var h, k := s.hist, Apply(s, step).hist;
      k.disconnected == h.disconnected && k.abandoned == h.abandoned && k.requests == h.requests
  {
    hide Apply, Do, Guard, Leads, Ids, Plain, Structure, Accounted, Signalled, Ledger, Fifo, Owning, AllStarted,
      OneStart, Judged, SettlingIdle, Clean, HollowVolume;
    HeadsPlain(AtRest(s));
    var acts := StepMoves(s, step);
    FlagsFold(AtRest(s), acts, AtRest(Apply(s, step)));
  }

  lemma StepFlags(s: State, step: Step)
    requires Inv(AtRest(s)) && Enabled(s, step)
    ensures var h, k := s.hist, Apply(s, step).hist;
      && (!step.DisconnectStep? ==> k.disconnected == h.disconnected && k.abandoned == h.abandoned)
      && (!step.GroupStep? ==> k.requests == h.requests)
      && (step.GroupStep? ==>
            k.requests in {h.requests, h.requests[s.nextGroupId := Group(s.nextGroupId, step.tech, step.mask)]})
  {
    hide Inv, Enabled, Submit, SubmitGroup, Connect, Receive, Timeout, ProcessQueue, ProcessNext;
    if step.GroupStep? {
      GroupFlags(s, step);
    } else if !step.DisconnectStep? {
      PlainFlags(s, step);
    }
  }

  lemma {:induction false} RunConnected(run: seq<Step>)
    requires ValidRun(run) && NoDisconnect(run)
    ensures !Final(run).hist.disconnected
    decreases |run|
  {
    hide Enabled, Apply, Structure, Lifecycle, Ledger, Fifo, Owning, AllStarted, OneStart, Judged, SettlingIdle, Clean,
      HollowVolume, Inv;
    if run != [] {
      var front := run[..|run| - 1];
      RunConnected(front);
      RunInv(front);
      StepFlags(Final(front), run[|run| - 1]);
    }
  }

  lemma {:induction false} RunRequests(run: seq<Step>)
    requires ValidRun(run) && NoVolumeGroup(run)
    ensures forall id :: id in Final(run).hist.requests ==> !Final(run).hist.requests[id].tech.VOLUME?
    decreases |run|
  {
    hide Enabled, Apply, Structure, Lifecycle, Ledger, Fifo, Owning, AllStarted, OneStart, Judged, SettlingIdle, Clean,
      Inv;
    if run != [] {
      var front, last := run[..|run| - 1], run[|run| - 1];
      RunRequests(front);
      RunInv(front);
      StepFlags(Final(front), last);
      assert last in run;
    }
  }

  /** A run whose groups never ask for VOLUME, as the controller's never do, starts no group without a
      request. */
  lemma RunSolid(run: seq<Step>)
    requires ValidRun(run) && NoVolumeGroup(run)
    ensures !Final(run).hist.hollow
  {
    hide Enabled, Final, Structure, Lifecycle, Ledger, Fifo, Owning, AllStarted, OneStart, Judged, SettlingIdle, Clean;
    RunInv(run);
    RunRequests(run);
  }

  // ---------- Structure ----------

  /** In every reachable state a Sending address holds an uncompleted command with a running
      timer, an uncompleted command always has a running timer, the busy flag is exact, no queue
      of the map is empty, and every active group waits for some address, all of them Sending. */
  lemma SendingIsTimed(run: seq<Step>)
    requires ValidRun(run)
    ensures var s := Final(run);
      && (forall a :: StateOf(s, a).Sending? ==> Live(s, a))
      && (forall a :: Live(s, a) ==> s.contexts[a].armed)
      && (s.busy <==> exists a :: Live(s, a))
      && (forall a :: a in s.queues ==> s.queues[a] != [])
      && (forall id :: id in s.groups ==> s.groups[id].waiting != {})
      && (forall id, a :: id in s.groups && a in s.groups[id].waiting ==> StateOf(s, a).Sending?)
      && (s.pending != [] ==> exists a :: StateOf(s, a).Sending?)
  {
    hide Final, ValidRun, Lifecycle, Ledger, VerdictsTrue;
    RunInv(run);
    var s := Final(run);
    if a :| a in s.contexts && !s.contexts[a].completed {
      assert Live(s, a);
    }
    if a :| Live(s, a) {
      assert a in s.contexts && !s.contexts[a].completed;
    }
    if s.pending != [] {
      var a :| a in s.states && s.states[a].Sending?;
      assert StateOf(s, a).Sending?;
    }
  }

  /** Without a disconnect the converse holds as well, and no command ever loses its context. */
  lemma LiveIffSending(run: seq<Step>)
    requires ValidRun(run) && NoDisconnect(run)
    ensures forall a :: Live(Final(run), a) <==> StateOf(Final(run), a).Sending?
    ensures forall n :: n in Final(run).hist.fate ==> !Final(run).hist.fate[n].Overwritten?
  {
    hide Final, ValidRun;
    RunInv(run);
    RunConnected(run);
    SendingIsTimed(run);
  }

  /** A disconnect leaves every uncompleted command behind on an Idle address, so the converse
      survives it exactly when nothing was executing. */
  lemma DisconnectLeaves(run: seq<Step>)
    ensures var s, t := Final(run), Final(run + [DisconnectStep]);
      && (forall a :: Live(t, a) <==> Live(s, a)) && (forall a :: StateOf(t, a).Idle?)
      && ((forall a :: Live(t, a) <==> StateOf(t, a).Sending?) <==> forall a :: !Live(s, a))
  {
    assert (run + [DisconnectStep])[..|run|] == run;
    var s, t := Final(run), Final(run + [DisconnectStep]);
    hide Final;
    assert t == Disconnect(s);
    assert forall a :: Live(t, a) <==> Live(s, a);
    assert forall a :: StateOf(t, a).Idle?;
  }

  /** If no group was started without a request, an address an active group waits for executes that
      group's own command, so no two active groups wait for the same address. */
  lemma GroupsOwnTheirAddresses(run: seq<Step>)
    requires ValidRun(run) && !Final(run).hist.hollow
    ensures var s := Final(run);
      forall id, a :: id in s.groups && a in s.groups[id].waiting ==>
        Live(s, a) && StateOf(s, a).Sending? && s.contexts[a].command.group == id
    ensures var s := Final(run);
      forall id, other :: id in s.groups && other in s.groups && id != other ==> s.groups[id].waiting !! s.groups[other].waiting
  {
    hide Final, ValidRun, Enabled, Structure, Lifecycle, Ledger, Fifo, LiveSending, OwedSound, AllStarted, OneStart,
      Judged, SettlingIdle, Clean, HollowVolume;
    RunInv(run);
    var s := Final(run);
    forall id, a | id in s.groups && a in s.groups[id].waiting ensures Own(s, id, a) {
    }
    assert forall id, a :: id in s.groups && a in s.groups[id].waiting ==> s.contexts[a].command.group == id;
  }

  // ---------- Groups ----------

  /** Every id issued so far is deferred, active, decided or abandoned by a disconnect, in exactly
      one way; no id has two verdicts; deferred groups wait, and were released, in id order. */
  lemma GroupLifecycle(run: seq<Step>)
    requires ValidRun(run)
    ensures var s := Final(run);
      var deferred, active, decided := DeferredIds(s), s.groups.Keys, DecidedIds(s.hist.verdicts);
      && (forall id :: id in deferred + active + decided + s.hist.abandoned <==> 0 < id < s.nextGroupId)
      && deferred !! active !! decided !! s.hist.abandoned
      && DistinctVerdicts(s.hist.verdicts)
      && (forall i, j :: 0 <= i < j < |s.pending| ==> s.pending[i].id < s.pending[j].id)
      && (forall i, j :: 0 <= i < j < |s.hist.released| ==> s.hist.released[i] < s.hist.released[j])
      && (forall i, j :: 0 <= i < |s.hist.released| && 0 <= j < |s.pending| ==> s.hist.released[i] < s.pending[j].id)
  {
    hide Final, ValidRun, Structure, Ledger, Fifo, Owning, AllStarted, OneStart, Judged, SettlingIdle, Clean,
      HollowVolume;
    RunInv(run);
  }

  predicate Somewhere(s: State, id: nat) {
    id in DeferredIds(s) || id in s.groups || id in DecidedIds(s.hist.verdicts)
  }

  /** The id a group submission returns was never issued before, and the group is deferred, active
      or already decided when the call returns. */
  lemma GroupIdIsFresh(run: seq<Step>, tech: TechCommand, mask: Address)
    requires ValidRun(run) && mask != 0 && Known(tech)
    ensures var s, t := Final(run), Final(run + [GroupStep(tech, mask)]);
      var id := s.nextGroupId;
      && !Somewhere(s, id) && id !in s.hist.abandoned
      && Somewhere(t, id)
      && id in t.hist.requests && t.hist.requests[id] == Group(id, tech, mask)
  {
    hide Apply, Final, ValidRun, Ids, Structure, Accounted, Ledger, Fifo, Owning, AllStarted, OneStart, Judged,
      SettlingIdle, Clean, HollowVolume;
    var step := GroupStep(tech, mask);
    Extend(run, step);
    var s, t := Final(run), Final(run + [step]);
    RunInv(run);
    RunInv(run + [step]);
    StepFlags(s, step);
    SubmitRequests(s, tech, mask);
    FreshId(s, t, s.nextGroupId);
  }

  lemma SubmitRequests(s: State, tech: TechCommand, mask: Address)
    requires mask != 0 && Known(tech)
    ensures Apply(s, GroupStep(tech, mask)).hist.requests == s.hist.requests[s.nextGroupId := Group(s.nextGroupId, tech, mask)]
  {
  }

  lemma FreshId(s: State, t: State, id: nat)
    requires Accounted(s) && Accounted(t) && id == s.nextGroupId
    requires id in t.hist.requests && t.hist.abandoned == s.hist.abandoned
    ensures !Somewhere(s, id) && id !in s.hist.abandoned && Somewhere(t, id)
  {
    IssuedIds(s);
    IssuedIds(t);
  }

  lemma IssuedIds(s: State)
    requires Accounted(s)
    ensures forall id :: id in s.hist.requests <==> Somewhere(s, id) || id in s.hist.abandoned
    ensures s.nextGroupId !in s.hist.requests
  {
  }

  lemma Extend(run: seq<Step>, step: Step)
    requires ValidRun(run) && Enabled(Final(run), step)
    ensures ValidRun(run + [step]) && Final(run + [step]) == Apply(Final(run), step)
  {
    assert (run + [step])[..|run|] == run;
  }

  // ---------- Verdicts ----------

  /** When a group completes, its results cover exactly the targets of the mask it was asked for
      and the verdict is their conjunction. */
  lemma VerdictCoversMask(run: seq<Step>, v: Verdict)
    requires ValidRun(run) && v in Final(run).hist.verdicts
    ensures var h := Final(run).hist;
      v.id in h.requests && v.results.Keys == TargetSet(h.requests[v.id].mask) && (v.ok <==> forall a :: a in v.results ==> v.results[a])
  {
    hide Final, ValidRun, TargetSet, Enabled, Structure, Lifecycle, Ledger, Fifo, Owning, AllStarted, OneStart,
      GroupResults, SettlingIdle, Clean, HollowVolume;
    RunInv(run);
    var h := Final(run).hist;
    var i :| 0 <= i < |h.verdicts| && h.verdicts[i] == v;
    assert VerdictTrue(h, h.verdicts[i]);
  }

  predicate CompletionOf(x: Completion, id: nat, a: Address) { x.command.group == id && x.address == a }

  /** If no group was started without a request, each result is the outcome of the one completion of
      the group's own command on that address. */
  lemma VerdictIsTruthful(run: seq<Step>, v: Verdict, a: Address) returns (i: nat)
    requires ValidRun(run) && !Final(run).hist.hollow && v in Final(run).hist.verdicts && a in v.results
    ensures var completions := Final(run).hist.completions;
      && i < |completions| && CompletionOf(completions[i], v.id, a) && completions[i].ok == v.results[a]
      && (forall j :: 0 <= j < |completions| && CompletionOf(completions[j], v.id, a) ==> j == i)
  {
    hide Final, ValidRun, TargetSet, Enabled, Ids, Structure, Signalled, Fifo, Owning, AllStarted, OneStart,
      GroupResults, SettlingIdle, HollowVolume;
    RunInv(run);
    GroupLifecycle(run);
    var h := Final(run).hist;
    var k :| 0 <= k < |h.verdicts| && h.verdicts[k] == v;
    assert VerdictTrue(h, h.verdicts[k]);
    i :| 0 <= i < |h.completions| && h.completions[i].address == a && h.completions[i].command.group == v.id &&
      h.completions[i].ok == v.results[a];
    assert v.id in DecidedIds(h.verdicts);
    forall j | 0 <= j < |h.completions| && CompletionOf(h.completions[j], v.id, a) ensures j == i {
      OneCompletion(Final(run), i, j);
    }
  }

  lemma OneCompletion(s: State, i: nat, j: nat)
    requires AllStarted(s) && OneStart(AtRest(s)) && Signalled(s.hist)
    requires i < |s.hist.completions| && j < |s.hist.completions|
    requires s.hist.completions[i].command.group == s.hist.completions[j].command.group != 0
    requires s.hist.completions[i].address == s.hist.completions[j].address
    ensures i == j
  {
    var x, y := s.hist.completions[i], s.hist.completions[j];
    var k :| 0 <= k < |s.hist.starts| && s.hist.starts[k].command == x.command && s.hist.starts[k].address == x.address;
    var m :| 0 <= m < |s.hist.starts| && s.hist.starts[m].command == y.command && s.hist.starts[m].address == y.address;
    assert SameGroup(s.hist.starts[k], s.hist.starts[m]) && SameGroup(s.hist.starts[m], s.hist.starts[k]);
    assert k == m;
    assert x.command.serial == y.command.serial;
  }

  // ---------- Commands ----------

  predicate Ends(x: Completion, n: nat, a: Address, ok: bool) { x.command.serial == n && x.address == a && x.ok == ok }

  // What the fate of a command says about the queues, contexts and signals.
  ghost predicate FateHolds(s: State, n: nat)
    requires n in s.hist.fate
  {
    match s.hist.fate[n]
    case InHand(_) => false
    case Queued(a) => InQueue(QueueOf(s, a), n)
    case Active(a) => Live(s, a) && s.contexts[a].command.serial == n
    case Finished(a, ok) => exists i :: 0 <= i < |s.hist.completions| && Ends(s.hist.completions[i], n, a, ok)
    case Cleared => true
    case Disconnected => s.hist.disconnected
    case Dropped => s.hist.hollow
    case Overwritten => s.hist.disconnected
  }

  /** Conservation: every command ever created has one fate, and the fate is real: a queued command
      is in its queue, an active one is live, a finished one was signalled. */
  lemma CommandHasOneFate(run: seq<Step>, n: nat)
    requires ValidRun(run)
    ensures var s := Final(run);
      (n in s.hist.fate <==> n < s.hist.serials) && (n in s.hist.fate ==> FateHolds(s, n))
  {
    hide Final, ValidRun, Enabled, Ids, Structure, Fifo, Ownership, OneStart, Judged, SettlingIdle;
    RunInv(run);
    var s := Final(run);
    if n in s.hist.fate && s.hist.fate[n].Finished? {
      var i :| 0 <= i < |s.hist.completions| && s.hist.completions[i].command.serial == n;
      var x := s.hist.completions[i];
      assert s.hist.fate[x.command.serial] == Finished(x.address, x.ok);
      assert Ends(x, n, x.address, x.ok);
    }
  }

  predicate Signals(fate: map<nat, Fate>, x: Completion) {
    x.command.serial in fate && fate[x.command.serial] == Finished(x.address, x.ok)
  }

  /** And conversely: what is queued, live or signalled has that fate, so a command is in one place
      only, occurs once there, and is signalled at most once. */
  lemma PlacesAreExclusive(run: seq<Step>)
    requires ValidRun(run)
    ensures var s := Final(run);
      && (forall a, i :: a in s.queues && 0 <= i < |s.queues[a]| ==>
            s.queues[a][i].serial in s.hist.fate && s.hist.fate[s.queues[a][i].serial] == Queued(a))
      && (forall a, i, j :: a in s.queues && 0 <= i < j < |s.queues[a]| ==> s.queues[a][i].serial < s.queues[a][j].serial)
      && (forall a :: Live(s, a) ==>
            s.contexts[a].command.serial in s.hist.fate && s.hist.fate[s.contexts[a].command.serial] == Active(a))
      && (forall i :: 0 <= i < |s.hist.completions| ==> Signals(s.hist.fate, s.hist.completions[i]))
      && (forall i, j :: 0 <= i < j < |s.hist.completions| ==>
            s.hist.completions[i].command.serial != s.hist.completions[j].command.serial)
  {
    hide Final, ValidRun, Enabled, Structure, Lifecycle, Fifo, Owning, AllStarted, OneStart, Judged, Clean,
      HollowVolume;
    RunInv(run);
  }

  /** Without a disconnect, and if no group was started without a request, nothing is lost: a command
      is queued, active, finished, or was removed by clearCommandQueue. The refusal inside
      executeCommandImmediately is never reached. */
  lemma NothingIsLost(run: seq<Step>, n: nat)
    requires ValidRun(run) && NoDisconnect(run) && !Final(run).hist.hollow && n < Final(run).hist.serials
    ensures var fate := Final(run).hist.fate;
      n in fate && (fate[n].Queued? || fate[n].Active? || fate[n].Finished? || fate[n].Cleared?)
  {
    hide Final, ValidRun;
    RunInv(run);
    RunConnected(run);
    CommandHasOneFate(run, n);
  }

  /** Of two commands of one address that both waited in its queue, the one submitted first starts
      first; what still waits is younger than what already started from the queue. */
  lemma QueuesAreFifo(run: seq<Step>)
    requires ValidRun(run)
    ensures StartsInOrder(Final(run).hist.starts) && QueueYounger(Final(run))
  {
    hide Final, ValidRun;
    RunInv(run);
  }

  // ---------- Parse results ----------

  /** Between steps no context holds parse results, although taking over a context keeps them. */
  lemma NothingLeaks(run: seq<Step>)
    requires ValidRun(run)
    ensures forall a :: a in Final(run).contexts ==> Final(run).contexts[a].parsed == NoParse
  {
    hide Enabled, Final, Structure, Lifecycle, Ledger, Fifo, Owning, AllStarted, OneStart, Judged, SettlingIdle,
      HollowVolume;
    RunInv(run);
  }

  /** In every run, a datagram completes what its reaction says and no more: the operation of the
      address in its first two bytes or of address 0, and a second one only by the cascade. */
  lemma DatagramInRun(run: seq<Step>, data: seq<byte>)
    requires ValidRun(run)
    ensures var s := Final(run); Obeys(s, React(s, data), Receive(s, data))
    ensures React(Final(run), data).Completes? ==> |data| >= 2 && React(Final(run), data).address in {0, Word(data[0], data[1])}
  {
    hide Final, ValidRun, Receive, Obeys;
    NothingLeaks(run);
    DatagramObeys(Final(run), data);
  }

  // ---------- Address 0 ----------

  /** The discipline a caller must keep: a group is submitted only while address 0 is quiet. */
  predicate GroupsAtQuietZero(run: seq<Step>) {
    run == [] || (GroupsAtQuietZero(run[..|run| - 1]) &&
      (run[|run| - 1].GroupStep? ==> QuietZero(Final(run[..|run| - 1]))))
  }

  lemma {:induction false} BarrierFold(c: Config, acts: seq<Action>, d: Config)
    requires Inv(c) && Barrier(c) && Leads(c, acts, d)
    requires forall i :: 0 <= i < |acts| && (acts[i].DoOpen? || acts[i].DoDefer?) ==> i == 0 && QuietZero(c.st)
    ensures Barrier(d)
    decreases |acts|
  {
    hide Do, Guard, Lifecycle, Ledger, Fifo, LiveSending, OwedSound, Ownership, AllStarted, OneStart, Judged,
      HollowVolume;
    if acts != [] {
      BarrierKept(c, acts[0]);
      InvKept(c, acts[0]);
      BarrierFold(Do(c, acts[0]), acts[1..], d);
    }
  }

  lemma {:induction false} RunBarrier(run: seq<Step>)
    requires ValidRun(run) && GroupsAtQuietZero(run)
    ensures Barrier(AtRest(Final(run)))
    decreases |run|
  {
    hide Complete, SubmitGroup, ProcessQueue, Receive, Enabled, Leads, Ids, Structure, Accounted, Signalled, Ledger,
      Fifo, Owning, AllStarted, OneStart, Judged, HollowVolume;
    if run != [] {
      var front, last := run[..|run| - 1], run[|run| - 1];
      RunBarrier(front);
      RunInv(front);
      HeadsPlain(AtRest(Final(front)));
      var acts := StepMoves(Final(front), last);
      assert forall i :: 0 <= i < |acts| ==> acts[i] in acts;
      assert forall i :: 0 < i < |acts| ==> acts[i] == acts[1..][i - 1] && acts[i] in acts[1..];
      BarrierFold(AtRest(Final(front)), acts, AtRest(Final(run)));
    }
  }

  /** Under that discipline no command starts on address 0 while a group is active or deferred. */
  lemma FirmwareBehindGroups(run: seq<Step>)
    requires ValidRun(run) && GroupsAtQuietZero(run)
    ensures ZeroBehindGroups(Final(run).hist)
  {
    RunBarrier(run);
  }
}
