/** The life of a group: every issued id is deferred, active, decided or abandoned by a
    disconnect, never two of these, and it is decided at most once. */
module EngineGroups {
  import opened Protocol
  import opened EngineState
  import opened EngineSpec
  import opened EngineTrace

  function DeferredIds(s: State): set<nat> { set g | g in s.pending :: g.id }

  function DecidedIds(verdicts: seq<Verdict>): set<nat> { set v | v in verdicts :: v.id }

  predicate DistinctVerdicts(verdicts: seq<Verdict>) {
    forall i, j :: 0 <= i < j < |verdicts| ==> verdicts[i].id != verdicts[j].id
  }

  predicate Requested(s: State) {
    && (forall id | id in s.hist.requests :: 0 < id < s.nextGroupId)
    && (forall id | 0 < id < s.nextGroupId :: id in s.hist.requests)
    && (forall id | id in s.hist.requests :: s.hist.requests[id].id == id && s.hist.requests[id].mask != 0)
    && (forall g | g in s.pending :: g.id in s.hist.requests && s.hist.requests[g.id] == g)
  }

  predicate Split4(deferred: set<nat>, active: set<nat>, decided: set<nat>, abandoned: set<nat>, all: set<nat>) {
    deferred + active + decided + abandoned == all && deferred !! active !! decided !! abandoned
  }

  // The four places of an id partition the ids issued so far.
  predicate Partition(s: State) {
    var deferred, active, decided, abandoned := DeferredIds(s), s.groups.Keys, DecidedIds(s.hist.verdicts), s.hist.abandoned;
    Split4(deferred, active, decided, abandoned, s.hist.requests.Keys)
  }

  predicate Accounted(s: State) { Requested(s) && Partition(s) && DistinctVerdicts(s.hist.verdicts) }

  ghost predicate Lifecycle(c: Config) { Ids(c) && Accounted(c.st) }

  // ---------- Verdicts of one completion ----------

  function Closed(groups: map<nat, GroupInfo>, a: Address, from: nat): set<nat> {
    set id | id in groups && from <= id && Closes(groups[id], a)
  }

  predicate Truthful(groups: map<nat, GroupInfo>, a: Address, ok: bool, v: Verdict) {
    v.id in groups && v.results == Record(groups[v.id], a, ok).results && v.ok == AllTrue(v.results)
  }

  lemma DecidedConcat(xs: seq<Verdict>, ys: seq<Verdict>)
    ensures DecidedIds(xs + ys) == DecidedIds(xs) + DecidedIds(ys)
    ensures DistinctVerdicts(xs) && DistinctVerdicts(ys) && DecidedIds(xs) !! DecidedIds(ys) ==> DistinctVerdicts(xs + ys)
  {
    assert forall v :: v in xs + ys <==> v in xs || v in ys;
    if DistinctVerdicts(xs) && DistinctVerdicts(ys) && DecidedIds(xs) !! DecidedIds(ys) {
      forall i, j | 0 <= i < j < |xs + ys| ensures (xs + ys)[i].id != (xs + ys)[j].id {
        if i < |xs| <= j {
          assert (xs + ys)[i] in xs && (xs + ys)[j] in ys;
          assert (xs + ys)[i].id in DecidedIds(xs) && (xs + ys)[j].id in DecidedIds(ys);
        }
      }
    }
  }

  lemma ConsVerdict(v: Verdict, rest: seq<Verdict>)
    ensures DecidedIds([v] + rest) == {v.id} + DecidedIds(rest)
    ensures v.id !in DecidedIds(rest) && DistinctVerdicts(rest) ==> DistinctVerdicts([v] + rest)
  {
    assert DecidedIds([v]) == {v.id};
    DecidedConcat([v], rest);
  }

  lemma {:induction false} VerdictsIds(groups: map<nat, GroupInfo>, a: Address, ok: bool, from: nat, to: nat)
    requires forall id | id in groups :: id < to
    requires from <= to
    ensures DecidedIds(Verdicts(groups, a, ok, from, to)) == Closed(groups, a, from)
    ensures DistinctVerdicts(Verdicts(groups, a, ok, from, to))
    decreases if from < to then to - from else 0
  {
    if from < to {
      VerdictsIds(groups, a, ok, from + 1, to);
      var rest := Verdicts(groups, a, ok, from + 1, to);
      if from in groups && Closes(groups[from], a) {
        assert Closed(groups, a, from) == {from} + Closed(groups, a, from + 1);
        ConsVerdict(Verdicts(groups, a, ok, from, to)[0], rest);
      } else {
        assert Closed(groups, a, from) == Closed(groups, a, from + 1);
      }
    }
  }

  lemma {:induction false} VerdictsTruthful(groups: map<nat, GroupInfo>, a: Address, ok: bool, from: nat, to: nat)
    ensures forall v | v in Verdicts(groups, a, ok, from, to) :: Truthful(groups, a, ok, v) && Closes(groups[v.id], a)
    decreases if from < to then to - from else 0
  {
    if from < to {
      VerdictsTruthful(groups, a, ok, from + 1, to);
    }
  }

  // ---------- Actions ----------

  predicate SameGroups(s: State, t: State) {
    t.groups == s.groups && t.pending == s.pending && t.nextGroupId == s.nextGroupId && t.hist.requests == s.hist.requests &&
    t.hist.verdicts == s.hist.verdicts && t.hist.abandoned == s.hist.abandoned
  }

  lemma BeginGroups(s: State, a: Address, cmd: Command, suppress: bool)
    ensures SameGroups(s, Begin(s, a, cmd, suppress))
  {
  }

  lemma FinishGroups(s: State, a: Address, ok: bool, msg: Message)
    requires Live(s, a)
    ensures SameGroups(s, Finish(s, a, ok, msg))
  {
  }

  lemma LifecycleFrame(c: Config, act: Action)
    requires Guard(c, act)
    requires !act.DoDefer? && !act.DoPop? && !act.DoOpen? && !act.DoDisconnect? && !act.DoSettle?
    ensures SameGroups(c.st, Do(c, act).st)
  {
    hide Do, Guard;
    Frame(c, act);
  }

  lemma MoveClosed(deferred: set<nat>, active: set<nat>, decided: set<nat>, abandoned: set<nat>, all: set<nat>, closed: set<nat>)
    requires Split4(deferred, active, decided, abandoned, all) && closed <= active
    ensures Split4(deferred, active - closed, decided + closed, abandoned, all)
    ensures decided !! closed
  {
  }

  // The ids a completion decides, and the verdicts it emits for them.
  lemma SettledKeys(s: State, a: Address, ok: bool)
    ensures Settle(s, a, ok).groups.Keys == s.groups.Keys - Closed(s.groups, a, 0)
  {
  }

  lemma SettledIds(groups: map<nat, GroupInfo>, before: seq<Verdict>, a: Address, ok: bool, next: nat)
    requires forall id | id in groups :: id < next
    requires DistinctVerdicts(before) && DecidedIds(before) !! Closed(groups, a, 0)
    ensures var after := before + Verdicts(groups, a, ok, 0, next);
      DecidedIds(after) == DecidedIds(before) + Closed(groups, a, 0) && DistinctVerdicts(after)
  {
    VerdictsIds(groups, a, ok, 0, next);
    DecidedConcat(before, Verdicts(groups, a, ok, 0, next));
  }

  lemma AccountedSettle(s: State, a: Address, ok: bool)
    requires Accounted(s)
    ensures Accounted(Settle(s, a, ok))
  {
    var t := Settle(s, a, ok);
    SettledKeys(s, a, ok);
    MoveClosed(DeferredIds(s), s.groups.Keys, DecidedIds(s.hist.verdicts), s.hist.abandoned, s.hist.requests.Keys,
               Closed(s.groups, a, 0));
    assert forall id | id in s.groups :: id in s.hist.requests.Keys;
    SettledIds(s.groups, s.hist.verdicts, a, ok, s.nextGroupId);
    assert t.hist.verdicts == s.hist.verdicts + Verdicts(s.groups, a, ok, 0, s.nextGroupId);
    assert DeferredIds(t) == DeferredIds(s);
    assert Requested(t);
  }

  lemma PoppedIds(s: State)
    requires s.pending != []
    requires forall i, j :: 0 <= i < j < |s.pending| ==> s.pending[i].id < s.pending[j].id
    ensures forall p | p in PopPending(s).pending :: p in s.pending && p.id != s.pending[0].id
    ensures DeferredIds(s) == {s.pending[0].id} + DeferredIds(PopPending(s))
  {
    var rest := s.pending[1..];
    assert s.pending == [s.pending[0]] + rest;
    forall p | p in rest ensures p in s.pending && p.id != s.pending[0].id {
      var i :| 0 <= i < |rest| && rest[i] == p;
      assert s.pending[i + 1] == p;
    }
  }

  lemma AccountedPop(s: State)
    requires Accounted(s) && s.pending != []
    requires forall i, j :: 0 <= i < j < |s.pending| ==> s.pending[i].id < s.pending[j].id
    ensures Accounted(OpenGroup(PopPending(s), s.pending[0]))
  {
    var t := OpenGroup(PopPending(s), s.pending[0]);
    PoppedIds(s);
    var g := s.pending[0];
    assert t.groups.Keys == s.groups.Keys + {g.id};
    assert DeferredIds(t) == DeferredIds(PopPending(s));
    assert g.id in DeferredIds(s) && g.id !in DeferredIds(t);
  }

  lemma AccountedDefer(s: State, tech: TechCommand, mask: Address)
    requires Accounted(s) && mask != 0 && 0 < s.nextGroupId
    ensures Accounted(Defer(AcceptGroup(s, tech, mask), NewGroup(s, tech, mask)))
  {
    var g := NewGroup(s, tech, mask);
    var t := Defer(AcceptGroup(s, tech, mask), g);
    assert g.id !in s.hist.requests.Keys;
    assert forall p :: p in t.pending <==> p == g || p in s.pending;
    assert DeferredIds(t) == DeferredIds(s) + {g.id};
  }

  lemma AccountedOpen(s: State, tech: TechCommand, mask: Address)
    requires Accounted(s) && mask != 0 && 0 < s.nextGroupId
    ensures Accounted(OpenGroup(AcceptGroup(s, tech, mask), NewGroup(s, tech, mask)))
  {
    hide TargetSet;
    var g := NewGroup(s, tech, mask);
    var u := OpenGroup(AcceptGroup(s, tech, mask), g);
    assert g.id !in s.hist.requests.Keys;
    assert DeferredIds(u) == DeferredIds(s);
    assert u.groups.Keys == s.groups.Keys + {g.id};
  }

  lemma AccountedDisconnect(s: State)
    requires Accounted(s)
    ensures Accounted(Disconnect(s))
  {
    assert DeferredIds(Disconnect(s)) == {};
  }

  lemma SameAccounted(s: State, t: State)
    requires Accounted(s) && SameGroups(s, t)
    ensures Accounted(t)
  {
  }

  lemma AccountedGroup(c: Config, act: Action)
    requires Lifecycle(c) && Guard(c, act)
    requires act.DoDefer? || act.DoOpen? || act.DoPop? || act.DoSettle? || act.DoDisconnect?
    ensures Accounted(Do(c, act).st)
  {
    hide Accounted, Targets, TargetSet, Settle, Disconnect;
    if act.DoDefer? || act.DoOpen? {
      AccountedDefer(c.st, act.tech, act.mask);
      AccountedOpen(c.st, act.tech, act.mask);
    } else if act.DoPop? {
      AccountedPop(c.st);
    } else if act.DoSettle? {
      AccountedSettle(c.st, c.settling.value.address, c.settling.value.ok);
    } else {
      AccountedDisconnect(c.st);
    }
  }

  lemma AccountedKept(c: Config, act: Action)
    requires Lifecycle(c) && Guard(c, act)
    ensures Accounted(Do(c, act).st)
  {
    hide Do, Guard, Accounted, Ids;
    if act.DoDefer? || act.DoOpen? || act.DoPop? || act.DoSettle? || act.DoDisconnect? {
      AccountedGroup(c, act);
    } else {
      LifecycleFrame(c, act);
      SameAccounted(c.st, Do(c, act).st);
    }
  }

  lemma LifecycleKept(c: Config, act: Action)
    requires Lifecycle(c) && Guard(c, act)
    ensures Lifecycle(Do(c, act))
  {
    IdsKept(c, act);
    AccountedKept(c, act);
  }
}
