/** The verdict of a group: its results cover exactly the targets of its mask, each result is the
    outcome of the one completion of the group's own command there, and the verdict is their
    conjunction. */
module EngineVerdicts {
  import opened Protocol
  import opened EngineState
  import opened EngineSpec
  import opened EngineTrace
  import opened EngineStructure
  import opened EngineGroups
  import opened EngineOwnership

  // ---------- One start, one completion ----------

  predicate StartedAs(starts: seq<Start>, cmd: Command, a: Address) {
    exists k | 0 <= k < |starts| :: starts[k].command == cmd && starts[k].address == a
  }

  // Every command that is live or completed was started, at its address.
  ghost predicate AllStarted(s: State) {
    && (forall a :: a in s.contexts && !s.contexts[a].completed ==> StartedAs(s.hist.starts, s.contexts[a].command, a))
    && (forall i :: 0 <= i < |s.hist.completions| ==>
          StartedAs(s.hist.starts, s.hist.completions[i].command, s.hist.completions[i].address))
  }

  predicate SameGroup(x: Start, y: Start) { x.command.group != 0 && x.command.group == y.command.group }

  // A group starts at most one command of its own on an address.
  ghost predicate OneStart(c: Config) {
    && (forall i, j :: 0 <= i < j < |c.st.hist.starts| && SameGroup(c.st.hist.starts[i], c.st.hist.starts[j]) ==>
          c.st.hist.starts[i].address != c.st.hist.starts[j].address)
    && (forall i :: 0 <= i < |c.st.hist.starts| && c.st.hist.starts[i].command.group != 0 ==>
          && c.st.hist.starts[i].command.group in c.st.hist.requests
          && c.st.hist.starts[i].command.group !in DeferredIds(c.st)
          && (c.st.hist.starts[i].command.group, c.st.hist.starts[i].address) !in c.owed)
  }

  lemma StartedAppend(starts: seq<Start>, start: Start)
    ensures forall cmd, a :: StartedAs(starts, cmd, a) ==> StartedAs(starts + [start], cmd, a)
    ensures StartedAs(starts + [start], start.command, start.address)
  {
    forall cmd, a | StartedAs(starts, cmd, a) ensures StartedAs(starts + [start], cmd, a) {
      var k :| 0 <= k < |starts| && starts[k].command == cmd && starts[k].address == a;
      assert (starts + [start])[k] == starts[k];
    }
    assert (starts + [start])[|starts|] == start;
  }

  lemma AllStartedBegin(s: State, a: Address, cmd: Command, suppress: bool)
    requires AllStarted(s)
    ensures AllStarted(Begin(s, a, cmd, suppress))
  {
    var t := Begin(s, a, cmd, suppress);
    var start := Start(a, cmd, FromQueue(s, cmd), GroupsOpen(s));
    assert t.hist.starts == s.hist.starts + [start] && t.hist.completions == s.hist.completions;
    assert t.contexts[a].command == cmd && forall b :: b in t.contexts && b != a ==> b in s.contexts && t.contexts[b] == s.contexts[b];
    StartedAppend(s.hist.starts, start);
  }

  lemma AllStartedFinish(s: State, a: Address, ok: bool, msg: Message)
    requires AllStarted(s) && Live(s, a)
    ensures AllStarted(Finish(s, a, ok, msg))
  {
    var t := Finish(s, a, ok, msg);
    assert t.hist.starts == s.hist.starts;
    assert |t.hist.completions| == |s.hist.completions| + 1 && t.hist.completions[..|s.hist.completions|] == s.hist.completions;
    assert t.hist.completions[|s.hist.completions|].command == s.contexts[a].command;
    assert forall b :: b in t.contexts && !t.contexts[b].completed ==> b in s.contexts && t.contexts[b] == s.contexts[b];
    assert forall i :: 0 <= i < |s.hist.completions| ==> t.hist.completions[i] == s.hist.completions[i];
  }

  lemma AllStartedFrame(c: Config, act: Action)
    requires AllStarted(c.st) && Guard(c, act) && !act.DoBegin? && !act.DoFinish?
    ensures AllStarted(Do(c, act).st)
  {
    SignalsFrame(c, act);
    if !act.DoArm? && !act.DoParse? && !act.DoDisconnect? {
      ContextFrame(c, act);
    }
  }

  // Only starts and completions extend the history of signals.
  lemma SignalsFrame(c: Config, act: Action)
    requires Guard(c, act) && !act.DoBegin? && !act.DoFinish?
    ensures Do(c, act).st.hist.starts == c.st.hist.starts && Do(c, act).st.hist.completions == c.st.hist.completions
  {
    hide Do, Guard;
    Frame(c, act);
  }

  lemma AllStartedSignal(c: Config, act: Action)
    requires AllStarted(c.st) && Guard(c, act) && (act.DoBegin? || act.DoFinish?)
    ensures AllStarted(Do(c, act).st)
  {
    hide AllStarted, Begin, Finish;
    if act.DoBegin? {
      AllStartedBegin(c.st, c.hand.value.address, c.hand.value.command, act.suppress);
    } else {
      AllStartedFinish(c.st, act.address, act.ok, act.message);
    }
  }

  lemma AllStartedKept(c: Config, act: Action)
    requires AllStarted(c.st) && Guard(c, act)
    ensures AllStarted(Do(c, act).st)
  {
    hide AllStarted, Do, Guard;
    if act.DoBegin? || act.DoFinish? {
      AllStartedSignal(c, act);
    } else {
      AllStartedFrame(c, act);
    }
  }

  lemma OneStartBegin(c: Config, suppress: bool)
    requires OwedSound(c) && OneStart(c) && Guard(c, DoBegin(suppress))
    ensures OneStart(Do(c, DoBegin(suppress)))
  {
    hide Targets, Available, GroupsOpen, QueueOf, CanStart, SetParse, Finish, Settle, OpenGroup, PopPending,
      AcceptGroup;
    var s, d := c.st, Do(c, DoBegin(suppress));
    var a, cmd := c.hand.value.address, c.hand.value.command;
    assert d.st.hist.starts == s.hist.starts + [Start(a, cmd, FromQueue(s, cmd), GroupsOpen(s))];
    assert d.st.hist.requests == s.hist.requests && d.st.pending == s.pending;
  }

  lemma OneStartPop(c: Config)
    requires Lifecycle(c) && OneStart(c) && Guard(c, DoPop)
    ensures OneStart(Do(c, DoPop))
  {
    hide Available, CanStart, NewCommand, Accounted;
    var g, d := c.st.pending[0], Do(c, DoPop);
    PoppedIds(c.st);
    assert g.id in DeferredIds(c.st);
    assert DeferredIds(d.st) == DeferredIds(PopPending(c.st));
    assert d.st.hist.starts == c.st.hist.starts && d.st.hist.requests == c.st.hist.requests;
    assert forall p :: p in Owed(g) ==> p.0 == g.id;
  }

  lemma OneStartSubmit(c: Config, act: Action)
    requires Lifecycle(c) && OneStart(c) && Guard(c, act) && (act.DoOpen? || act.DoDefer?)
    ensures OneStart(Do(c, act))
  {
    var g, d := NewGroup(c.st, act.tech, act.mask), Do(c, act);
    assert d.st.hist.starts == c.st.hist.starts && d.st.hist.requests == c.st.hist.requests[g.id := g];
    assert g.id !in c.st.hist.requests;
    assert forall id :: id in DeferredIds(d.st) ==> id in DeferredIds(c.st) || id == g.id;
    assert act.DoOpen? ==> d.owed == Owed(g) && forall p :: p in Owed(g) ==> p.0 == g.id;
  }

  lemma OneStartLeft(c: Config)
    requires OneStart(c) && Guard(c, DoDisconnect)
    ensures OneStart(Do(c, DoDisconnect))
  {
  }

  lemma OneStartKept(c: Config, act: Action)
    requires Lifecycle(c) && OwedSound(c) && OneStart(c) && Guard(c, act)
    ensures OneStart(Do(c, act))
  {
    hide OneStart, Do, Guard, Lifecycle, OwedSound;
    if act.DoBegin? {
      OneStartBegin(c, act.suppress);
    } else if act.DoPop? {
      OneStartPop(c);
    } else if act.DoOpen? || act.DoDefer? {
      OneStartSubmit(c, act);
    } else if act.DoDisconnect? {
      OneStartLeft(c);
    } else {
      OneStartFrame(c, act);
    }
  }

  lemma OneStartFrame(c: Config, act: Action)
    requires OneStart(c) && Guard(c, act)
    requires !act.DoBegin? && !act.DoPop? && !act.DoOpen? && !act.DoDefer? && !act.DoDisconnect?
    ensures OneStart(Do(c, act))
  {
    GroupFrame(c, act);
    StartsFrame(c, act);
  }

  lemma StartsFrame(c: Config, act: Action)
    requires Guard(c, act) && !act.DoBegin? && !act.DoOpen? && !act.DoDefer?
    ensures Do(c, act).st.hist.starts == c.st.hist.starts && Do(c, act).st.hist.requests == c.st.hist.requests
  {
    hide Do, Guard;
    Frame(c, act);
  }

  lemma FinishStarts(s: State, a: Address, ok: bool, msg: Message)
    requires Live(s, a)
    ensures Finish(s, a, ok, msg).hist.starts == s.hist.starts && Finish(s, a, ok, msg).hist.requests == s.hist.requests
  {
  }

  // ---------- Results ----------

  predicate Answered(completions: seq<Completion>, id: nat, a: Address, ok: bool) {
    exists i | 0 <= i < |completions| :: completions[i].address == a && completions[i].command.group == id && completions[i].ok == ok
  }

  ghost predicate GroupResults(s: State) {
    && (forall id :: id in s.groups ==>
          && id in s.hist.requests
          && s.groups[id].waiting + s.groups[id].results.Keys == TargetSet(s.hist.requests[id].mask)
          && s.groups[id].waiting !! s.groups[id].results.Keys)
    && (!s.hist.hollow ==> forall id, a :: id in s.groups && a in s.groups[id].results ==>
          Answered(s.hist.completions, id, a, s.groups[id].results[a]))
  }

  ghost predicate VerdictTrue(h: History, v: Verdict) {
    && v.id in h.requests && v.results.Keys == TargetSet(h.requests[v.id].mask) && v.ok == AllTrue(v.results)
    && (!h.hollow ==> forall a :: a in v.results ==> Answered(h.completions, v.id, a, v.results[a]))
  }

  ghost predicate VerdictsTrue(h: History) { forall i :: 0 <= i < |h.verdicts| ==> VerdictTrue(h, h.verdicts[i]) }

  ghost predicate Judged(s: State) { GroupResults(s) && VerdictsTrue(s.hist) }

  lemma AnsweredAppend(xs: seq<Completion>, x: Completion)
    ensures forall id, a, ok :: Answered(xs, id, a, ok) ==> Answered(xs + [x], id, a, ok)
  {
    forall id, a, ok | Answered(xs, id, a, ok) ensures Answered(xs + [x], id, a, ok) {
      var i :| 0 <= i < |xs| && xs[i].address == a && xs[i].command.group == id && xs[i].ok == ok;
      assert (xs + [x])[i] == xs[i];
    }
  }

  lemma JudgedFinish(s: State, a: Address, ok: bool, msg: Message)
    requires Judged(s) && Live(s, a)
    ensures Judged(Finish(s, a, ok, msg))
  {
    var t := Finish(s, a, ok, msg);
    var n := |s.hist.completions|;
    assert |t.hist.completions| == n + 1;
    assert t.hist.completions == s.hist.completions + [t.hist.completions[n]];
    assert t.groups == s.groups && t.hist.requests == s.hist.requests && t.hist.verdicts == s.hist.verdicts &&
      t.hist.hollow == s.hist.hollow;
    AnsweredAppend(s.hist.completions, t.hist.completions[n]);
  }

  // The group with the result of `a` recorded.
  lemma RecordedResults(s: State, c: Config, id: nat)
    requires c.st == s && GroupResults(s) && Ownership(c) && Guard(c, DoSettle)
    requires id in s.groups
    ensures
      var a, ok := c.settling.value.address, c.settling.value.ok;
      var g := Record(s.groups[id], a, ok);
      && g.waiting + g.results.Keys == TargetSet(s.hist.requests[id].mask)
      && g.waiting !! g.results.Keys
      && (!s.hist.hollow && (id, a) !in c.owed && !Own(s, id, a) ==>
            forall b :: b in g.results ==> Answered(s.hist.completions, id, b, g.results[b]))
  {
    var a, ok := c.settling.value.address, c.settling.value.ok;
    var g := Record(s.groups[id], a, ok);
    if a in s.groups[id].waiting {
      assert g.results.Keys == s.groups[id].results.Keys + {a};
      if !s.hist.hollow && (id, a) !in c.owed && !Own(s, id, a) {
        assert OwnResult(c, id, a);
        var last := s.hist.completions[|s.hist.completions| - 1];
        assert Answered(s.hist.completions, id, a, ok);
      }
    }
  }

  // The address being settled has just stopped being Sending, and nothing is owed there.
  ghost predicate SettlingIdle(c: Config) {
    c.settling.Some? ==>
      && !(c.settling.value.address in c.st.states && c.st.states[c.settling.value.address].Sending?)
      && (!c.st.hist.hollow ==> c.owed == {})
  }

  lemma JudgedSettle(c: Config)
    requires Lifecycle(c) && Judged(c.st) && Ownership(c) && SettlingIdle(c) && Guard(c, DoSettle)
    ensures Judged(Do(c, DoSettle).st)
  {
    var s, t := c.st, Do(c, DoSettle).st;
    var a, ok := c.settling.value.address, c.settling.value.ok;
    var news := Verdicts(s.groups, a, ok, 0, s.nextGroupId);
    assert t.hist.verdicts == s.hist.verdicts + news;
    assert t.hist.completions == s.hist.completions && t.hist.requests == s.hist.requests && t.hist.hollow == s.hist.hollow;
    forall id | id in s.groups
      ensures var g := Record(s.groups[id], a, ok);
        g.waiting + g.results.Keys == TargetSet(s.hist.requests[id].mask) && g.waiting !! g.results.Keys &&
        (!s.hist.hollow ==> forall b :: b in g.results ==> Answered(s.hist.completions, id, b, g.results[b]))
    {
      RecordedResults(s, c, id);
    }
    VerdictsTruthful(s.groups, a, ok, 0, s.nextGroupId);
    forall i | 0 <= i < |t.hist.verdicts| ensures VerdictTrue(t.hist, t.hist.verdicts[i]) {
      if i < |s.hist.verdicts| {
        assert t.hist.verdicts[i] == s.hist.verdicts[i];
      } else {
        var v := news[i - |s.hist.verdicts|];
        assert v in news && t.hist.verdicts[i] == v;
        var g := Record(s.groups[v.id], a, ok);
        assert g.waiting == {};
        assert g.waiting + g.results.Keys == g.results.Keys;
      }
    }
  }

  lemma JudgedOpened(s: State, g: Group)
    requires GroupResults(s) && VerdictsTrue(s.hist) && g.id in s.hist.requests && s.hist.requests[g.id] == g
    ensures Judged(OpenGroup(s, g))
  {
    var t := OpenGroup(s, g);
    assert t.groups[g.id].waiting == TargetSet(g.mask) && t.groups[g.id].results == map[];
    assert t.groups[g.id].waiting + t.groups[g.id].results.Keys == TargetSet(g.mask);
  }

  lemma JudgedAccept(c: Config, tech: TechCommand, mask: Address)
    requires Lifecycle(c) && Judged(c.st)
    ensures Judged(AcceptGroup(c.st, tech, mask))
  {
    var h, k := c.st.hist, AcceptGroup(c.st, tech, mask).hist;
    assert c.st.nextGroupId !in h.requests;
    assert k == h.(requests := k.requests);
    assert forall id :: id in h.requests ==> id in k.requests && k.requests[id] == h.requests[id];
    MoreRequests(c.st, AcceptGroup(c.st, tech, mask));
  }

  lemma MoreRequests(s: State, t: State)
    requires Judged(s) && t.groups == s.groups
    requires t.hist == s.hist.(requests := t.hist.requests)
    requires forall id :: id in s.hist.requests ==> id in t.hist.requests && t.hist.requests[id] == s.hist.requests[id]
    ensures Judged(t)
  {
    forall i | 0 <= i < |t.hist.verdicts| ensures VerdictTrue(t.hist, t.hist.verdicts[i]) {
      assert VerdictTrue(s.hist, s.hist.verdicts[i]);
    }
  }

  lemma JudgedFrame(c: Config, act: Action)
    requires Guard(c, act)
    requires !act.DoFinish? && !act.DoSettle? && !act.DoPop? && !act.DoOpen? && !act.DoDefer? && !act.DoDisconnect?
    ensures var s, t := c.st, Do(c, act).st;
      t.groups == s.groups && t.hist.requests == s.hist.requests && t.hist.verdicts == s.hist.verdicts &&
      t.hist.hollow == s.hist.hollow && t.hist.completions == s.hist.completions
  {
    hide Do, Guard;
    Frame(c, act);
  }

  lemma JudgedSame(s: State, t: State)
    requires Judged(s)
    requires t.groups == s.groups || t.groups == map[]
    requires t.hist.requests == s.hist.requests && t.hist.verdicts == s.hist.verdicts && t.hist.hollow == s.hist.hollow
    requires t.hist.completions == s.hist.completions
    ensures Judged(t)
  {
    forall i | 0 <= i < |t.hist.verdicts| ensures VerdictTrue(t.hist, t.hist.verdicts[i]) {
      assert VerdictTrue(s.hist, s.hist.verdicts[i]);
    }
  }

  lemma JudgedGroup(c: Config, act: Action)
    requires Lifecycle(c) && Judged(c.st) && Guard(c, act) && (act.DoPop? || act.DoOpen? || act.DoDefer? || act.DoDisconnect?)
    ensures Judged(Do(c, act).st)
  {
    hide Judged, TargetSet, CanStart;
    if act.DoPop? {
      assert c.st.pending[0] in c.st.pending;
      JudgedReleased(c);
    } else if act.DoDisconnect? {
      JudgedSame(c.st, Do(c, act).st);
    } else {
      JudgedAccept(c, act.tech, act.mask);
      JudgedRequest(c, act);
    }
  }

  lemma JudgedReleased(c: Config)
    requires Lifecycle(c) && Judged(c.st) && Guard(c, DoPop) && c.st.pending[0] in c.st.pending
    ensures Judged(Do(c, DoPop).st)
  {
    JudgedOpened(PopPending(c.st), c.st.pending[0]);
  }

  lemma JudgedRequest(c: Config, act: Action)
    requires Guard(c, act) && (act.DoOpen? || act.DoDefer?) && Judged(AcceptGroup(c.st, act.tech, act.mask))
    ensures Judged(Do(c, act).st)
  {
    var s := AcceptGroup(c.st, act.tech, act.mask);
    if act.DoOpen? {
      JudgedOpened(s, NewGroup(c.st, act.tech, act.mask));
    } else {
      JudgedSame(s, Do(c, act).st);
    }
  }

  lemma JudgedFinished(c: Config, a: Address, ok: bool, msg: Message)
    requires Judged(c.st) && Guard(c, DoFinish(a, ok, msg))
    ensures Judged(Do(c, DoFinish(a, ok, msg)).st)
  {
    hide Judged, Finish;
    JudgedFinish(c.st, a, ok, msg);
  }

  lemma JudgedOther(c: Config, act: Action)
    requires Judged(c.st) && Guard(c, act)
    requires !act.DoFinish? && !act.DoSettle? && !act.DoPop? && !act.DoOpen? && !act.DoDefer? && !act.DoDisconnect?
    ensures Judged(Do(c, act).st)
  {
    hide Judged, Do, Guard;
    JudgedFrame(c, act);
    JudgedSame(c.st, Do(c, act).st);
  }

  lemma JudgedKept(c: Config, act: Action)
    requires Lifecycle(c) && Judged(c.st) && Ownership(c) && SettlingIdle(c) && Guard(c, act)
    ensures Judged(Do(c, act).st)
  {
    hide Judged, Do, Guard, Lifecycle, Ownership, SettlingIdle;
    if act.DoFinish? {
      JudgedFinished(c, act.address, act.ok, act.message);
    } else if act.DoSettle? {
      JudgedSettle(c);
    } else if act.DoPop? || act.DoOpen? || act.DoDefer? || act.DoDisconnect? {
      JudgedGroup(c, act);
    } else {
      JudgedOther(c, act);
    }
  }

  lemma SettlingKept(c: Config, act: Action)
    requires SettlingIdle(c) && Guard(c, act)
    ensures SettlingIdle(Do(c, act))
  {
    hide Targets, TargetSet, Available, GroupsOpen, Hollow, Refresh;

  }
}
