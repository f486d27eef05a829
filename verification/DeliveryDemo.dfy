/** The demo's delivery object (examples/demo/source_delivery.go): its methods, field by field, are the world's functions. */
module DeliveryDemo {
  import opened Basics
  import opened Delivery
  import D = DeliveryRuns

  /** The teams one approval answers. */
  method TeamsAnswered(prefix: string, owners: seq<Team>, groups: seq<string>, approved: seq<Team>) returns (teams: seq<Team>)
    ensures teams == AnsweredTeams(prefix, owners, groups, approved)
  {
    teams := approved;
    for i := 0 to |owners|
      invariant AnsweredTeams(prefix, owners[i..], groups, teams) == AnsweredTeams(prefix, owners, groups, approved)
    {
      assert owners[i..][1..] == owners[i + 1..];
      if InTeam(prefix, groups, owners[i]) && owners[i] !in teams {
        teams := teams + [owners[i]];
      }
    }
  }

  lemma {:induction false} WithoutAt(us: seq<Uid>, u: Uid, i: nat)
    requires i < |us| && us[i] == u && u !in us[..i]
    ensures Without(us, u) == us[..i] + us[i + 1..]
    decreases |us|
  {
    if i > 0 {
      assert us[0] == us[..i][0];
      assert us[1..][..i - 1] == us[..i][1..];
      WithoutAt(us[1..], u, i - 1);
    }
  }

  class Demo {
    const rules: Rules
    var stages: map<Key, Stage>
    var book: map<Uid, Op>
    var listed: seq<Uid>
    var streams: map<Key, Stream>
    var n: nat
    var tasks: multiset<Task>
    var immediate: bool
    var views: Option<Views>

    constructor (rules: Rules, stages: map<Key, Stage>, streams: map<Key, Stream>)
      ensures this.rules == rules && Model() == World(stages, map[], [], streams, 0, multiset{}, true, None)
    {
      this.rules, this.stages, this.streams := rules, stages, streams;
      book, listed, n, tasks, immediate, views := map[], [], 0, multiset{}, true, None;
    }

    function Model(): World
      reads this
    {
      World(stages, book, listed, streams, n, tasks, immediate, views)
    }

    method Keep(k: Key, st: Statement, own: bool)
      requires k in stages && k in streams
      modifies this
      ensures Model() == Store(rules, old(Model()), k, st, own)
    {
      var s := streams[k];
      if !own {
        streams := streams[k := s.(unreadable := s.unreadable + 1)];
        return;
      }
      streams := streams[k := s.(recs := s.recs + [Stored(rules.id(st), st)])];
      stages := stages[k := stages[k].(head := rules.id(st), recordedSeq := st.num)];
    }

    method MakeGap(k: Key)
      requires k in stages && k in streams
      modifies this
      ensures Model() == GapAndStranger(rules, old(Model()), k)
    {
      var st := stages[k];
      stages := stages[k := st.(num := st.num + 1)];
      var gap := Statement(|streams[k].recs| + 1, st.head, 0, "", "", st.num + 1);
      Keep(k, gap, true);
      Keep(k, gap.(num := 99), false);
    }

    method ReplanOne(u: Uid)
      requires u in book
      modifies this`book
      ensures book == old(book)[u := Replanned(rules, old(Model()), old(book[u]))]
    {
      var op := book[u];
      if Replans(op) {
        var req := Request(op.spec.stage, op.spec.kind, op.spec.from, op.spec.to, 0, "", false);
        var p := PlanOf(rules, Model(), req, op.actor);
        if p.Some? && p.value.plan.predicted != Rejects {
          book := book[u := op.(plan := if p.value.plan.human then p.value.plan else op.plan.(ordered := false))];
        }
      }
    }

    method ReplanNext(us: seq<Uid>)
      requires us != [] && forall j | 0 <= j < |us| :: us[j] in book
      modifies this`book
      ensures book.Keys == old(book.Keys) && Replan(rules, Model(), us[1..]) == Replan(rules, old(Model()), us)
    {
      ReplanOne(us[0]);
      assert Model() == old(Model()).(book := book);
    }

    method ReplanHeld()
      requires Sane(Model())
      modifies this`book
      ensures Model() == Replan(rules, old(Model()), old(listed))
    {
      var us := listed;
      ghost var all := Replan(rules, Model(), us);
      while us != []
        invariant forall j | 0 <= j < |us| :: us[j] in book
        invariant Replan(rules, Model(), us) == all
      {
        ReplanNext(us);
        us := us[1..];
      }
    }

    method ConcludeOp(u: Uid, outcome: Outcome, v: Verification)
      requires Sane(Model()) && u in book
      modifies this
      ensures Model() == Conclude(rules, old(Model()), u, outcome, v)
    {
      EndOp(u, outcome, v);
      RecordOp(u);
      ReplanHeld();
    }

    method EndOp(u: Uid, outcome: Outcome, v: Verification)
      requires Has(Model(), u)
      modifies this
      ensures Model() == Ended(rules, old(Model()), u, outcome, v)
    {
      var op := book[u];
      var k := op.spec.stage;
      var st := stages[k];
      var c := Conclusion(u, st.num + 1, outcome, v);
      var kept := st.concluded + [c];
      if |kept| > MAX_CONCLUDED {
        kept := kept[|kept| - MAX_CONCLUDED..];
      }
      var pointer := PointerAfter(st, op, outcome);
      stages := stages[k := st.(num := st.num + 1, concluded := kept, ever := st.ever + [c], pointer := pointer,
                                memory := rules.remember(st.memory, op, outcome, v))];
      assert stages[k] == ConcludedStage(rules, st, op, u, outcome, v);
      book := book[u := ConcludedOp(st, op, outcome)];
    }

    method RecordOp(u: Uid)
      requires Has(Model(), u)
      modifies this
      ensures Model() == Recorded(rules, old(Model()), u)
    {
      var op := book[u];
      var k := op.spec.stage;
      if k in streams {
        Keep(k, Statement(|streams[k].recs| + 1, stages[k].head, u, op.before, op.after, 0), true);
      }
    }

    method ProposeOp(req: Request, actor: User)
      requires Sane(Model())
      modifies this
      ensures Model() == Propose(rules, old(Model()), req, actor)
      decreases Depth(rules, Model(), req, actor), 6
    {
      var p := PlanOf(rules, Model(), req, actor);
      if p.None? || (req.digest != "" && req.digest != p.value.plan.digest) {
        return;
      }
      if req.kind == Rollback &&
         !AdmitRollback(p.value.spec, stages[req.stage], book[req.undoes], ClassOf(rules, actor), req.caused) {
        return;
      }
      n := n + 1;
      book := book[n := Op(p.value.spec, actor, p.value.plan, Admitted, false, "", "", [], [], 0, 0, 0)];
      listed := listed + [n];
      assert Some(Model()) == Admit(rules, old(Model()), req, actor);
      EnactOp(n);
    }

    method EnactOp(u: Uid)
      requires Sane(Model()) && u in book
      modifies this
      ensures Model() == Enact(rules, old(Model()), u)
      decreases Rank(Model(), u), 5
    {
      match book[u].plan.predicted {
        case Rejects => ConcludeOp(u, Rejected, Unstated);
        case Holds => book := book[u := book[u].(phase := Held)];
        case Waits => book := book[u := book[u].(phase := Pending)];
        case Starts => StartOp(u);
      }
    }

    method StartOp(u: Uid)
      requires Sane(Model()) && u in book
      modifies this
      ensures Model() == Start(rules, old(Model()), u)
      decreases Rank(Model(), u), 4
    {
      var op := book[u];
      book := book[u := op.(phase := Running, starts := op.starts + 1, applied := op.applied || op.spec.kind == Autonomy)];
      assert Model() == Started(old(Model()), u);
      if op.spec.kind == Autonomy {
        ConcludeOp(u, Succeeded, Unstated);
      } else if immediate {
        ApplyOp(u);
      } else {
        tasks := tasks + multiset{ToApply(u)};
      }
    }

    method ApplyOp(u: Uid)
      requires Sane(Model()) && u in book
      modifies this
      ensures Model() == FireApply(rules, old(Model()), u)
      decreases Rank(Model(), u), 3
    {
      var op := book[u];
      var k := op.spec.stage;
      var st := stages[k];
      book := book[u := op.(before := st.pointer, after := op.spec.to, applied := true, phase := Verifying, moves := op.moves + 1)];
      stages := stages[k := st.(pointer := op.spec.to, lastOp := u, memory := rules.holdAfter(st.memory, op))];
      assert Model() == Apply(rules, old(Model()), u);
      if immediate {
        VerifyOp(u);
      } else {
        tasks := tasks + multiset{ToVerify(u)};
      }
    }

    method VerifyOp(u: Uid)
      requires Sane(Model()) && u in book
      modifies this
      ensures Model() == FireVerify(rules, old(Model()), u)
      decreases Rank(Model(), u), 2
    {
      match rules.check(Model(), u) {
        case Fail =>
          ConcludeOp(u, Failed, Unverified);
          AutoRollback(u, true);
        case Unknown => book := book[u := book[u].(phase := Held)];
        case Pass => ConcludeOp(u, Succeeded, Verified);
      }
    }

    method AutoRollback(u: Uid, caused: bool)
      requires Sane(Model()) && u in book
      modifies this
      ensures Model() == RollBack(rules, old(Model()), u, caused)
      decreases Rank(Model(), u), 1
    {
      if book[u].before != "" {
        ProposeOp(Undo(Model(), u, caused), PROMOTER);
      }
      LowerLevel(u, caused);
    }

    method LowerLevel(u: Uid, caused: bool)
      requires Sane(Model()) && u in book
      modifies this
      ensures Model() == StepDown(rules, old(Model()), u, caused)
      decreases Rank(Model(), u), 0
    {
      if StepsDown(rules, Model(), u, caused) {
        ProposeOp(StepDownOf(rules, Model(), u), PROMOTER);
      }
    }

    method DecideOp(u: Uid, a: Answer)
      requires Sane(Model()) && u in book
      modifies this
      ensures Model() == Decide(rules, old(Model()), u, a)
    {
      n := n + 1;
      var op := book[u];
      var teams := TeamsAnswered(rules.prefix, op.plan.owners, a.groups, op.approved);
      op := op.(answers := op.answers + [a], approved := teams);
      book := book[u := op];
      assert Model() == Recount(rules, old(Model()), u, a);
      if a.decision != Reject && TeamsWaiting(op.plan.owners, teams) != [] {
      } else if a.decision == Reject && op.applied {
        ConcludeOp(u, Failed, Unstated);
        AutoRollback(u, false);
      } else if a.decision == Reject {
        ConcludeOp(u, Rejected, Unstated);
      } else if op.applied {
        ConcludeOp(u, Succeeded, AcceptedUnknown);
      } else {
        StartOp(u);
      }
    }

    // ---- what the dashboard calls -----------------------------------------------------------------------

    method AskFor(req: Request, actor: User)
      requires Sane(Model())
      modifies this
      ensures Model() == D.Step(rules, old(Model()), D.Asks(req, actor))
    {
      ProposeOp(req, actor);
      views := None;
    }

    method Approve(ns: string, u: Uid, a: Answer)
      requires Sane(Model())
      modifies this
      ensures Model() == D.Step(rules, old(Model()), D.Decides(ns, u, a))
    {
      if u in listed && book[u].spec.stage.ns == ns && book[u].phase == Held {
        DecideOp(u, a);
      }
      views := None;
    }

    method Withdraw(ns: string, u: Uid)
      requires Sane(Model())
      modifies this
      ensures Model() == D.Step(rules, old(Model()), D.Cancels(ns, u))
    {
      var i := 0;
      while i < |listed| && !(listed[i] == u && book[u].spec.stage.ns == ns)
        invariant 0 <= i <= |listed|
        invariant u in book && book[u].spec.stage.ns == ns ==> u !in listed[..i]
      {
        i := i + 1;
      }
      if i == |listed| || book[u].applied || book[u].phase == Concluded {
        return;
      }
      WithoutAt(listed, u, i);
      listed := listed[..i] + listed[i + 1..];
      views := None;
    }

    method RunStep(t: Task)
      requires Sane(Model()) && t in tasks && t.uid in book
      modifies this
      ensures Model() == D.Step(rules, old(Model()), D.Steps(t))
    {
      RunTask(t);
      views := None;
    }

    method RunTask(t: Task)
      requires Sane(Model()) && t.uid in book
      modifies this
      ensures Model() == D.Fire(rules, old(Model()), t)
    {
      tasks := tasks - multiset{t};
      assert Model() == old(Model()).(tasks := tasks);
      if t.ToApply? {
        ApplyOp(t.uid);
      } else {
        VerifyOp(t.uid);
      }
    }

    method Snapshot() returns (v: Views)
      requires Sane(Model())
      modifies this`views
      ensures Model() == D.Step(rules, old(Model()), D.Reads) && Some(v) == views
    {
      if views.None? {
        var ops: seq<Op> := [];
        for i := 0 to |listed|
          invariant ops == D.Ops(Model(), listed[..i]) && Model() == old(Model())
        {
          assert listed[..i + 1][..i] == listed[..i];
          ops := ops + [book[listed[i]]];
        }
        assert listed[..|listed|] == listed;
        views := Some(Views(stages, ops));
      }
      v := views.value;
    }
  }
}
