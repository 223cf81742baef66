/** Every call of the engine is the fold of a legal sequence of actions. */
module EngineReplay {
  import opened Protocol
  import opened EngineState
  import opened EngineSpec
  import opened EngineTrace

  // Only submissions create commands of their own, queue them or accept groups.
  predicate Submits(act: Action) { act.DoCreate? || act.DoEnqueue? || act.DoDefer? || act.DoOpen? }

  // The actions of calls that neither submit nor disconnect.
  predicate Internal(acts: seq<Action>) { forall act | act in acts :: !Submits(act) && !act.DoDisconnect? }

  lemma {:induction false} ExecReplay(c: Config, suppress: bool, sent: bool) returns (acts: seq<Action>)
    requires Ids(c) && Holding(c) && c.begun.None? && c.settling.None? && c.parsing.None?
    requires suppress <==> c.hand.value.command.group != 0
    requires Loose(c) || !EmptyRequest(c.st, c.hand.value.command)
    requires Gate(c) && (c.hand.value.command.group == 0 ==> Available(c.st, c.hand.value.address))
    ensures Internal(acts)
    ensures Leads(c, acts,
      Placed(c).(st := Exec(c.st, c.hand.value.address, c.hand.value.command, suppress, sent)))
    decreases |c.st.pending|, 3, 0
  {
    var cmd, a := c.hand.value.command, c.hand.value.address;
    if !Available(c.st, a) {
      acts := [DoDrop];
      One(c, DoDrop);
    } else {
      var begin := DoBegin(suppress);
      var d := Do(c, begin);
      One(c, begin);
      IdsKept(c, begin);
      var rest := BegunReplay(d, cmd, suppress, sent);
      Join(c, [begin], d, rest, Placed(c).(st := Exec(c.st, a, cmd, suppress, sent)));
      acts := [begin] + rest;
    }
  }

  lemma {:induction false} BegunReplay(c: Config, cmd: Command, suppress: bool, sent: bool) returns (acts: seq<Action>)
    requires Ids(c) && c.hand.None? && c.begun.Some? && c.settling.None? && c.parsing.None? && Live(c.st, c.begun.value)
    requires Loose(c) || !EmptyRequest(c.st, cmd)
    requires !suppress ==> c.owed == {}
    ensures Internal(acts)
    ensures Leads(c, acts, c.(st := Begun(c.st, c.begun.value, cmd, suppress, sent), begun := None))
    decreases |c.st.pending|, 2, 1
  {
    var a := c.begun.value;
    if EmptyRequest(c.st, cmd) {
      acts := CompleteReplay(c, a, false, NotBuilt);
    } else if !suppress && cmd.tech.VOLUME? {
      var d := Do(c, DoUnstage);
      One(c, DoUnstage);
      IdsKept(c, DoUnstage);
      var msg := if sent then VolumeSent else VolumeNotSent;
      var rest := CompleteReplay(d, a, sent, msg);
      Join(c, [DoUnstage], d, rest, d.(st := Complete(d.st, a, sent, msg), begun := None));
      acts := [DoUnstage] + rest;
    } else {
      acts := [DoArm];
      One(c, DoArm);
    }
  }

  lemma {:induction false} CompleteReplay(c: Config, a: Address, ok: bool, msg: Message) returns (acts: seq<Action>)
    requires Ids(c) && Guard(c, DoFinish(a, ok, msg))
    ensures Internal(acts) && acts != [] && acts[0] == DoFinish(a, ok, msg)
    ensures Leads(c, acts, c.(st := Complete(c.st, a, ok, msg), begun := None, parsing := None))
    decreases |c.st.pending|, 2, 0
  {
    hide GroupsOpen, NewCommand, Create, Enqueue, Dequeue, Arm, Finish, Settle, OpenGroup, PopPending, TryStart,
      Resting, Owed, Legal, Fold, Ids;
    var d := FinishReplay(c, a, ok, msg);
    var rest := TryStartReplay(d);
    var e := d.(st := TryStart(d.st), due := d.due - 1);
    var post := ReleaseReplay(e);
    Join(d, rest, e, post, e.(st := Release(e.st)));
    Join(c, [DoFinish(a, ok, msg), DoSettle], d, rest + post, e.(st := Release(e.st)));
    acts := [DoFinish(a, ok, msg), DoSettle] + (rest + post);
  }

  // The result is recorded for the operation, then for the groups that wait for it.
  lemma FinishReplay(c: Config, a: Address, ok: bool, msg: Message) returns (d: Config)
    requires Ids(c) && Guard(c, DoFinish(a, ok, msg))
    ensures d == c.(st := Settle(Finish(c.st, a, ok, msg), a, ok), begun := None, parsing := None, due := c.due + 1)
    ensures Leads(c, [DoFinish(a, ok, msg), DoSettle], d) && Ids(d)
    ensures |d.st.pending| == |c.st.pending| && Loose(d)
  {
    hide Begin, SetParse, Finish, Settle, OpenGroup, PopPending, AcceptGroup, Owed, Holding, Gate, Legal, Fold, Leads,
      Ids;
    var finish := DoFinish(a, ok, msg);
    var c1 := Do(c, finish);
    One(c, finish);
    IdsKept(c, finish);
    d := Do(c1, DoSettle);
    One(c1, DoSettle);
    IdsKept(c1, DoSettle);
    Join(c, [finish], c1, [DoSettle], d);
    assert [finish] + [DoSettle] == [finish, DoSettle];
  }

  lemma ReleaseReplay(c: Config) returns (acts: seq<Action>)
    requires Calm(c)
    ensures Internal(acts) && Leads(c, acts, c.(st := Release(c.st)))
  {
    if GroupsOpen(c.st) {
      acts := [];
    } else {
      acts := [DoPost];
      One(c, DoPost);
    }
  }

  lemma {:induction false} TryStartReplay(c: Config) returns (acts: seq<Action>)
    requires Ids(c) && c.due > 0 && Calm(c) && Loose(c)
    ensures Internal(acts)
    ensures Leads(c, acts, c.(st := TryStart(c.st), due := c.due - 1))
    decreases |c.st.pending|, 1, 0
  {
    hide StartLoop;
    if c.st.pending == [] || !CanStart(c.st, c.st.pending[0].mask) {
      One(c, DoDecline);
      acts := [DoDecline];
    } else {
      var g := c.st.pending[0];
      var c1 := Do(c, DoPop);
      One(c, DoPop);
      TargetsSound(g.mask);
      IdsKept(c, DoPop);
      var rest := StartLoopReplay(c1, Targets(g.mask), g);
      assert c1.owed - Owed(g) == c.owed;
      Join(c, [DoPop], c1, rest, c1.(st := StartLoop(c1.st, Targets(g.mask), g), owed := c.owed));
      acts := [DoPop] + rest;
    }
  }

  lemma {:induction false} StartLoopReplay(c: Config, todo: seq<Address>, g: Group) returns (acts: seq<Action>)
    requires Ids(c) && Calm(c) && g.id != 0 && Distinct(todo) && 0 !in todo
    requires Pairs(g.id, todo) <= c.owed
    requires c.st.hist.hollow || !Hollow(c.st, g.tech)
    ensures Internal(acts)
    ensures Leads(c, acts, c.(st := StartLoop(c.st, todo, g), owed := c.owed - Pairs(g.id, todo)))
    decreases |c.st.pending|, 4, |todo|
  {
    hide Transition, Refresh, CanStart, Hollow, Enqueue, Dequeue, FromQueue, Begin, Arm, SetParse, Finish, Settle,
      OpenGroup, PopPending, AcceptGroup, Exec, Resting, Owed, Gate, Ids;
    if todo == [] {
      acts := [];
      assert c.owed - Pairs(g.id, todo) == c.owed;
    } else {
      var first, d := FirstReplay(c, todo, g);
      PairsStep(g.id, todo);
      var rest := StartLoopReplay(d, todo[1..], g);
      var e := d.(st := StartLoop(d.st, todo[1..], g), owed := d.owed - Pairs(g.id, todo[1..]));
      assert e.owed == c.owed - Pairs(g.id, todo);
      Join(c, first, d, rest, e);
      acts := first + rest;
    }
  }

  // One round of the start loop.
  lemma {:induction false} FirstReplay(c: Config, todo: seq<Address>, g: Group) returns (acts: seq<Action>, d: Config)
    requires Ids(c) && Calm(c) && g.id != 0 && Distinct(todo) && todo != [] && 0 !in todo
    requires Pairs(g.id, todo) <= c.owed
    requires c.st.hist.hollow || !Hollow(c.st, g.tech)
    ensures d == c.(st := Exec(Create(c.st), todo[0], NewCommand(c.st, g.tech, None, g.id), true, false),
                    owed := c.owed - {(g.id, todo[0])})
    ensures Internal(acts) && Leads(c, acts, d)
    ensures Ids(d) && (d.st.hist.hollow || !Hollow(d.st, g.tech))
    decreases |c.st.pending|, 4, 0
  {
    assert (g.id, todo[0]) in Pairs(g.id, todo);
    var create := DoCreateFor(g.id, todo[0], g.tech);
    var c1 := Do(c, create);
    One(c, create);
    IdsKept(c, create);
    var exec := ExecReplay(c1, true, false);
    d := Placed(c1).(st := Exec(c1.st, todo[0], c1.hand.value.command, true, false));
    IdsFold(c1, exec, d);
    Join(c, [create], c1, exec, d);
    ExecStaged(c1.st, todo[0], c1.hand.value.command);
    acts := [create] + exec;
  }

  // Starting a command that has a request completes nothing and keeps the staged volume.
  lemma ExecStaged(s: State, a: Address, cmd: Command)
    requires s.hist.hollow || !EmptyRequest(s, cmd)
    ensures Exec(s, a, cmd, true, false).hist.hollow || Exec(s, a, cmd, true, false).staged == s.staged
  {
  }
}
