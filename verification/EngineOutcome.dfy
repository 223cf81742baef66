/** What the end of one operation does to the groups, to its address and to the wake-ups, and what
    a timeout therefore means: failure, in the signal and in every group that waited. */
module EngineOutcome {
  import opened Protocol
  import opened EngineState
  import opened EngineSpec
  import opened EngineDatagram
  import opened EngineGroups
  import opened EngineTheorems

  // ---------- Starting deferred groups ----------

  // Every address the group waits for is executing.
  predicate Guarded(s: State, id: nat) {
    id in s.groups ==> forall b | b in s.groups[id].waiting :: StateOf(s, b).Sending?
  }

  predicate SameGroup(s: State, t: State, id: nat) {
    (id in t.groups <==> id in s.groups) && (id in s.groups ==> t.groups[id] == s.groups[id])
  }

  predicate SameAddress(s: State, t: State, a: Address) {
    && StateOf(t, a) == StateOf(s, a) && (a in t.contexts <==> a in s.contexts)
    && (a in s.contexts ==> t.contexts[a].command == s.contexts[a].command && t.contexts[a].completed == s.contexts[a].completed)
  }

  // A command of one of the given groups executes on the address.
  predicate Taken(t: State, ids: set<nat>, a: Address) {
    StateOf(t, a).Sending? && Live(t, a) && t.contexts[a].command.group in ids
  }

  predicate Emptied(t: State, a: Address) { StateOf(t, a).Idle? && a !in t.contexts }

  /** From `s` to `t` only groups in `ids` were started: the other group `id` is as it was, nothing
      was posted for `a`, and `a` is as it was, taken by one of them, or empty. */
  predicate Aside(s: State, t: State, ids: set<nat>, id: nat, a: Address) {
    && (forall p | p in t.pending :: p.id in ids)
    && t.posted[WakeUp(a)] == s.posted[WakeUp(a)] && s.hist.verdicts <= t.hist.verdicts
    && SameGroup(s, t, id) && Guarded(t, id)
    && (SameAddress(s, t, a) || Taken(t, ids, a) || Emptied(t, a))
  }

  // `id` is not among the groups that may be started.
  predicate Outside(s: State, ids: set<nat>, id: nat) {
    id !in ids && Guarded(s, id) && forall p | p in s.pending :: p.id in ids
  }

  lemma Then(s: State, t: State, u: State, ids: set<nat>, id: nat, a: Address)
    requires Aside(s, t, ids, id, a) && Aside(t, u, ids, id, a)
    ensures Aside(s, u, ids, id, a)
  {
  }

  lemma BeginAside(s: State, b: Address, cmd: Command, ids: set<nat>, id: nat, a: Address)
    requires Outside(s, ids, id) && cmd.group in ids && Available(s, b)
    ensures var t := Begin(s, b, cmd, true);
      && Aside(s, t, ids, id, a) && Outside(t, ids, id) && t.pending == s.pending
      && Live(t, b) && StateOf(t, b).Sending? && (id in t.groups ==> b !in t.groups[id].waiting)
      && t.contexts[b].command == cmd
  {
  }

  lemma {:induction false} ExecAside(s: State, b: Address, cmd: Command, ids: set<nat>, id: nat, a: Address)
    requires Outside(s, ids, id) && cmd.group in ids
    ensures Aside(s, Exec(s, b, cmd, true, false), ids, id, a)
    decreases |s.pending|, 3
  {
    if Available(s, b) {
      hide Begin, Aside, Guarded, Complete, EmptyRequest;
      var t := Begin(s, b, cmd, true);
      BeginAside(s, b, cmd, ids, id, a);
      if EmptyRequest(t, cmd) {
        CompleteAside(t, b, NotBuilt, ids, id, a);
        Then(s, t, Complete(t, b, false, NotBuilt), ids, id, a);
      } else {
        ArmAside(s, t, b, ids, id, a);
      }
    }
  }

  lemma ArmAside(s: State, t: State, b: Address, ids: set<nat>, id: nat, a: Address)
    requires Aside(s, t, ids, id, a) && b in t.contexts
    ensures Aside(s, Arm(t, b), ids, id, a)
  {
  }

  // The end of an operation the group does not wait for.
  lemma SettleAside(s: State, b: Address, msg: Message, ids: set<nat>, id: nat, a: Address)
    requires Outside(s, ids, id) && Live(s, b) && StateOf(s, b).Sending? && (id in s.groups ==> b !in s.groups[id].waiting)
    ensures var u := Settle(Finish(s, b, false, msg), b, false);
      Aside(s, u, ids, id, a) && Outside(u, ids, id) && u.pending == s.pending
  {
  }

  lemma {:induction false} CompleteAside(s: State, b: Address, msg: Message, ids: set<nat>, id: nat, a: Address)
    requires Outside(s, ids, id) && Live(s, b) && StateOf(s, b).Sending? && (id in s.groups ==> b !in s.groups[id].waiting)
    ensures Aside(s, Complete(s, b, false, msg), ids, id, a)
    decreases |s.pending|, 2
  {
    hide Finish, Settle, Aside, Outside, TryStart, Release;
    var u := Settle(Finish(s, b, false, msg), b, false);
    SettleAside(s, b, msg, ids, id, a);
    TryStartAside(u, ids, id, a);
    Then(s, u, TryStart(u), ids, id, a);
    ReleaseAside(s, TryStart(u), ids, id, a);
  }

  lemma ReleaseAside(s: State, t: State, ids: set<nat>, id: nat, a: Address)
    requires Aside(s, t, ids, id, a)
    ensures Aside(s, Release(t), ids, id, a)
  {
  }

  lemma {:induction false} TryStartAside(u: State, ids: set<nat>, id: nat, a: Address)
    requires Outside(u, ids, id)
    ensures Aside(u, TryStart(u), ids, id, a)
    decreases |u.pending|, 1
  {
    hide StartLoop, CanStart, Targets, TargetSet;
    if u.pending != [] && CanStart(u, u.pending[0].mask) {
      var g := u.pending[0];
      var o := OpenGroup(PopPending(u), g);
      OpenAside(u, ids, id, a);
      StartLoopAside(o, Targets(g.mask), g, ids, id, a);
      Then(u, o, StartLoop(o, Targets(g.mask), g), ids, id, a);
    }
  }

  lemma OpenAside(u: State, ids: set<nat>, id: nat, a: Address)
    requires Outside(u, ids, id) && u.pending != []
    ensures var o := OpenGroup(PopPending(u), u.pending[0]);
      Aside(u, o, ids, id, a) && Outside(o, ids, id) && u.pending[0].id in ids && |o.pending| < |u.pending|
  {
    hide TargetSet;
    assert u.pending[0] in u.pending;
  }

  lemma {:induction false} StartLoopAside(s: State, todo: seq<Address>, g: Group, ids: set<nat>, id: nat, a: Address)
    requires Outside(s, ids, id) && g.id in ids
    ensures Aside(s, StartLoop(s, todo, g), ids, id, a)
    decreases |s.pending|, 4, |todo|
  {
    hide Exec, Aside;
    if todo == [] {
      Unmoved(s, ids, id, a);
    } else {
      var cmd := NewCommand(s, g.tech, None, g.id);
      var t := Exec(Create(s), todo[0], cmd, true, false);
      assert Outside(Create(s), ids, id);
      ExecAside(Create(s), todo[0], cmd, ids, id, a);
      CreateAside(s, t, ids, id, a);
      StartLoopAside(t, todo[1..], g, ids, id, a);
      Then(s, t, StartLoop(t, todo[1..], g), ids, id, a);
    }
  }

  lemma Unmoved(s: State, ids: set<nat>, id: nat, a: Address)
    requires Outside(s, ids, id)
    ensures Aside(s, s, ids, id, a)
  {
  }

  lemma CreateAside(s: State, t: State, ids: set<nat>, id: nat, a: Address)
    requires Outside(s, ids, id) && Aside(Create(s), t, ids, id, a)
    ensures Aside(s, t, ids, id, a) && Outside(t, ids, id)
  {
  }

  // ---------- The end of one operation ----------

  // One of the verdicts since `s`.
  predicate Decides(s: State, t: State, id: nat, ok: bool, results: map<Address, bool>) {
    exists i | |s.hist.verdicts| <= i < |t.hist.verdicts| :: t.hist.verdicts[i] == Verdict(id, ok, results)
  }

  /** From `s` to `t` the outcome of `a` reached the open group: it was decided if it waited for
      nothing else, and a group that did not wait for `a` is as it was. */
  predicate Reaches(s: State, t: State, id: nat, a: Address, ok: bool)
    requires id in s.groups
  {
    var g := s.groups[id];
    if a !in g.waiting then id in t.groups && t.groups[id] == g
    else if g.waiting == {a} then
      id !in t.groups && Decides(s, t, id, ok && forall b | b in g.results && b != a :: g.results[b], g.results[a := ok])
    else id in t.groups && t.groups[id] == GroupInfo(g.waiting - {a}, g.results[a := ok])
  }

  lemma AllResults(results: map<Address, bool>, a: Address, ok: bool)
    ensures AllTrue(results[a := ok]) <==> ok && forall b | b in results && b != a :: results[b]
  {
    var r := results[a := ok];
    assert r[a] == ok;
    assert forall b :: b in results && b != a ==> b in r && r[b] == results[b];
  }

  lemma SettleReaches(f: State, id: nat, a: Address, ok: bool)
    requires id in f.groups && forall other | other in f.groups :: other < f.nextGroupId
    ensures Reaches(f, Settle(f, a, ok), id, a, ok)
  {
    hide AllTrue;
    var u := Settle(f, a, ok);
    var news := Verdicts(f.groups, a, ok, 0, f.nextGroupId);
    if Closes(f.groups[id], a) {
      VerdictsIds(f.groups, a, ok, 0, f.nextGroupId);
      VerdictsTruthful(f.groups, a, ok, 0, f.nextGroupId);
      assert id in Closed(f.groups, a, 0) && id in DecidedIds(news);
      var k :| 0 <= k < |news| && news[k].id == id;
      assert Truthful(f.groups, a, ok, news[k]);
      AllResults(f.groups[id].results, a, ok);
      assert u.hist.verdicts[|f.hist.verdicts| + k] == news[k];
    }
  }

  lemma ReachesLater(s: State, u: State, t: State, ids: set<nat>, id: nat, a: Address, ok: bool)
    requires id in s.groups && Reaches(s, u, id, a, ok) && Aside(u, t, ids, id, a)
    ensures Reaches(s, t, id, a, ok)
  {
    hide Guarded, SameAddress, Taken, Emptied;
    var g := s.groups[id];
    if a in g.waiting && g.waiting == {a} {
      var all := ok && forall b | b in g.results && b != a :: g.results[b];
      var i :| |s.hist.verdicts| <= i < |u.hist.verdicts| && u.hist.verdicts[i] == Verdict(id, all, g.results[a := ok]);
      assert t.hist.verdicts[i] == u.hist.verdicts[i];
    }
  }

  // What holds of the groups of every reachable state.
  ghost predicate Orderly(s: State) {
    && (forall id | id in s.groups :: id < s.nextGroupId && id !in DeferredIds(s) && Guarded(s, id))
    && 0 !in s.groups && 0 !in DeferredIds(s)
  }

  /** The first operation to end at `a` reached every open group, `a` was left with a wake-up after
      a success and without one after a failure, unless a deferred group took it. */
  ghost predicate Concludes(s: State, t: State, a: Address, ok: bool) {
    && (forall id | id in s.groups :: Reaches(s, t, id, a, ok))
    && (forall b :: t.posted[WakeUp(b)] ==
          s.posted[WakeUp(b)] + if ok && b == a && !StateOf(s, a).Ready? then 1 else 0)
    && ((StateOf(t, a) == (if ok then Ready else Idle) && !Live(t, a)) || Taken(t, DeferredIds(s), a) || Emptied(t, a))
  }

  lemma FinishKeeps(s: State, a: Address, ok: bool, msg: Message)
    requires Live(s, a)
    ensures var u := Settle(Finish(s, a, ok, msg), a, ok);
      && u.pending == s.pending && StateOf(u, a) == (if ok then Ready else Idle) && !Live(u, a)
      && (forall b :: u.posted[WakeUp(b)] ==
            s.posted[WakeUp(b)] + if ok && b == a && !StateOf(s, a).Ready? then 1 else 0)
      && (forall b :: b != a ==> StateOf(u, b) == StateOf(s, b))
  {
  }

  lemma SettledOutside(s: State, a: Address, ok: bool, msg: Message, id: nat)
    requires Orderly(s) && Live(s, a) && id !in DeferredIds(s)
    ensures Outside(Settle(Finish(s, a, ok, msg), a, ok), DeferredIds(s), id)
  {
    hide Finish;
    var f := Finish(s, a, ok, msg);
    FinishKeeps(s, a, ok, msg);
    FinishGroups(s, a, ok, msg);
    assert forall p | p in s.pending :: p.id in DeferredIds(s);
  }

  lemma ReachesGroup(s: State, a: Address, ok: bool, msg: Message, id: nat)
    requires Orderly(s) && Live(s, a) && id in s.groups
    ensures Reaches(s, Complete(s, a, ok, msg), id, a, ok)
  {
    hide Finish, Settle, Aside, Outside, Reaches, TryStart, Release;
    var f, ids := Finish(s, a, ok, msg), DeferredIds(s);
    var u := Settle(f, a, ok);
    FinishGroups(s, a, ok, msg);
    SettleReaches(f, id, a, ok);
    SameReaches(s, f, u, id, a, ok);
    SettledOutside(s, a, ok, msg, id);
    TryStartAside(u, ids, id, a);
    ReleaseAside(u, TryStart(u), ids, id, a);
    ReachesLater(s, u, Release(TryStart(u)), ids, id, a, ok);
  }

  lemma SameReaches(s: State, f: State, u: State, id: nat, a: Address, ok: bool)
    requires id in f.groups && Reaches(f, u, id, a, ok) && SameGroups(s, f)
    ensures Reaches(s, u, id, a, ok)
  {
  }

  lemma LeavesAddress(s: State, a: Address, ok: bool, msg: Message, b: Address)
    requires Orderly(s) && Live(s, a)
    ensures var u, t := Settle(Finish(s, a, ok, msg), a, ok), Complete(s, a, ok, msg);
      Aside(u, t, DeferredIds(s), 0, b)
  {
    hide Finish, Settle, Aside, Outside, TryStart, Release;
    var u := Settle(Finish(s, a, ok, msg), a, ok);
    SettledOutside(s, a, ok, msg, 0);
    TryStartAside(u, DeferredIds(s), 0, b);
    ReleaseAside(u, TryStart(u), DeferredIds(s), 0, b);
  }

  /** Completing one operation, whatever deferred groups that starts. */
  lemma CompleteConcludes(s: State, a: Address, ok: bool, msg: Message)
    requires Orderly(s) && Live(s, a)
    ensures Concludes(s, Complete(s, a, ok, msg), a, ok)
  {
    hide Finish, Settle, Reaches, Complete;
    var u, t := Settle(Finish(s, a, ok, msg), a, ok), Complete(s, a, ok, msg);
    FinishKeeps(s, a, ok, msg);
    forall id | id in s.groups ensures Reaches(s, t, id, a, ok) {
      ReachesGroup(s, a, ok, msg, id);
    }
    forall b ensures t.posted[WakeUp(b)] == u.posted[WakeUp(b)] {
      LeavesAddress(s, a, ok, msg, b);
    }
    LeavesAddress(s, a, ok, msg, a);
  }

  // ---------- Runs ----------

  lemma RunOrderly(run: seq<Step>)
    requires ValidRun(run)
    ensures Orderly(Final(run))
  {
    hide Final, ValidRun;
    GroupLifecycle(run);
    SendingIsTimed(run);
    var s := Final(run);
    var issued := DeferredIds(s) + s.groups.Keys + DecidedIds(s.hist.verdicts) + s.hist.abandoned;
    assert 0 !in issued;
    forall id | id in s.groups ensures id < s.nextGroupId && id !in DeferredIds(s) && Guarded(s, id) {
      assert id in issued;
    }
  }

  // The group was told that `a` failed.
  predicate HearsFailure(s: State, t: State, id: nat, a: Address)
    requires id in s.groups && a in s.groups[id].waiting
  {
    var g := s.groups[id];
    if g.waiting == {a} then id !in t.groups && Decides(s, t, id, false, g.results[a := false])
    else id in t.groups && t.groups[id] == GroupInfo(g.waiting - {a}, g.results[a := false])
  }

  /** A timeout fails. In every run the command of the address is signalled as failed, with the
      timeout as its message and without data, and its fate says so; every group that waited for the
      address notes a failure there, and fails as a whole if that was the last result it needed;
      every other open group is as it was; no wake-up is posted for any address; and the address is
      Idle unless a deferred group has taken it. */
  lemma TimeoutFails(run: seq<Step>, a: Address)
    requires ValidRun(run) && Enabled(Final(run), TimeoutStep(a))
    ensures var s, t := Final(run), Apply(Final(run), TimeoutStep(a));
      var cmd := s.contexts[a].command;
      && |s.hist.completions| < |t.hist.completions|
      && t.hist.completions[|s.hist.completions|] == Completion(a, cmd, false, TimedOut, NoData)
      && cmd.serial in t.hist.fate && t.hist.fate[cmd.serial] == Finished(a, false)
      && (forall id | id in s.groups && a in s.groups[id].waiting :: HearsFailure(s, t, id, a))
      && (forall id | id in s.groups && a !in s.groups[id].waiting :: id in t.groups && t.groups[id] == s.groups[id])
      && (forall b :: t.posted[WakeUp(b)] == s.posted[WakeUp(b)])
      && ((StateOf(t, a).Idle? && !Live(t, a)) || Taken(t, DeferredIds(s), a))
  {
    hide Final, ValidRun, Complete, Orderly, Taken;
    var step := TimeoutStep(a);
    var s, t := Final(run), Apply(Final(run), step);
    RunOrderly(run);
    NothingLeaks(run);
    CompleteFirst(s, a, false, TimedOut);
    CompleteConcludes(s, a, false, TimedOut);
    forall id | id in s.groups && a in s.groups[id].waiting ensures HearsFailure(s, t, id, a) {
      assert Reaches(s, t, id, a, false);
    }
    forall id | id in s.groups && a !in s.groups[id].waiting ensures id in t.groups && t.groups[id] == s.groups[id] {
      assert Reaches(s, t, id, a, false);
    }
    Extend(run, step);
    PlacesAreExclusive(run + [step]);
    assert Signals(t.hist.fate, t.hist.completions[|s.hist.completions|]);
  }
}
