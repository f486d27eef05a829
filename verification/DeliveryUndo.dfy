/** When a version that fails its checks is undone, and when it stays (examples/demo/source_delivery.go:719-763). */
module DeliveryUndo {
  import opened Basics
  import opened Delivery
  import opened DeliveryLedger
  import opened DeliveryLife
  import opened DeliveryPromises
  import opened DeliveryRuns
  import opened Versions

  // ---- what a rollback needs -----------------------------------------------------------------------

  /** The rollback of `u` on the Stage `k`. */
  function UndoSpec(k: Key, op: Op, u: Uid): Spec {
    Spec(Rollback, k, op.after, op.before, u)
  }

  /**
   A rollback is admitted if and only if the operation it cites is listed in its namespace and
   applied, its Stage is where that one went, and it can go back: to a version of its own service that
   did not fail there, as an actor who may, with a plan. The cited operation's Stage is not asked for.
   */
  lemma {:induction false} RollbackAdmittedIff(r: Rules, w: World, req: Request, actor: User)
    requires Sane(w) && req.kind == Rollback && req.digest == "" && req.stage in w.stages && req.undoes in w.book
    ensures var op := w.book[req.undoes]; var st := w.stages[req.stage]; var spec := UndoSpec(req.stage, op, req.undoes);
            Admit(r, w, req, actor).Some? <==>
              && req.undoes in w.listed && op.spec.stage.ns == req.stage.ns && op.applied && st.pointer == op.after
              && op.before != "" && Known(r.registry, req.stage.name, op.before) && op.before !in st.memory.failed
              && (op.spec.kind == Promote || ClassOf(r, actor) == Human || ClassOf(r, actor) == BreakGlass) && !(st.memory.frozen && ClassOf(r, actor) == Agent && !req.caused)
              && r.planFor(w, spec, actor).Some?
    ensures var a := Admit(r, w, req, actor); var spec := UndoSpec(req.stage, w.book[req.undoes], req.undoes);
            a.Some? ==> a.value.book[a.value.n].spec == spec && Some(a.value.book[a.value.n].plan) == r.planFor(w, spec, actor)
  {
  }

  /** The promoter undoes promotes and nothing else. */
  lemma {:induction false} OnlyPromotesAreUndone(r: Rules, w: World, u: Uid, caused: bool)
    requires Sane(w) && u in w.book && w.book[u].spec.kind != Promote
    ensures RollBack(r, w, u, caused) == w
  {
    RollbackAdmittedIff(r, w, Undo(w, u, caused), PROMOTER);
  }

  // ---- what one request makes -------------------------------------------------------------------------

  /** Begun: applied already where steps run at once, otherwise with its apply queued. */
  predicate Undoing(w: World, x: Uid, spec: Spec) {
    && x in w.book && w.book[x].spec == spec
    && if w.immediate then w.book[x].applied else w.book[x].phase == Running && ToApply(x) in w.tasks
  }

  /** A new operation undoes as `spec` says. */
  ghost predicate Undone(w: World, w': World, spec: Spec) {
    exists x :: x !in w.book && Undoing(w', x, spec)
  }

  lemma {:induction false} ConcludeKeeps(r: Rules, w: World, u: Uid, outcome: Outcome, v: Verification)
    requires Sane(w) && u in w.book
    ensures var w' := Conclude(r, w, u, outcome, v); w'.book[u].applied == w.book[u].applied && w'.book[u].spec == w.book[u].spec
  {
    var w1 := Recorded(r, Ended(r, w, u, outcome, v), u);
    assert SameButPlan(w1.book[u], Replan(r, w1, w1.listed).book[u]);
  }

  /** Checking anything but a promote makes nothing and leaves it applied. */
  lemma {:induction false} VerifyMakesNothing(r: Rules, w: World, u: Uid)
    requires Sane(w) && u in w.book && w.book[u].spec.kind != Promote
    ensures var w' := FireVerify(r, w, u); w'.book.Keys == w.book.Keys && (w.book[u].applied ==> w'.book[u].applied)
  {
    match r.check(w, u)
    case Fail =>
      ConcludeKeeps(r, w, u, Failed, Unverified);
      OnlyPromotesAreUndone(r, Conclude(r, w, u, Failed, Unverified), u, true);
    case Unknown =>
    case Pass => ConcludeKeeps(r, w, u, Succeeded, Verified);
  }

  lemma {:induction false} StartMakesNothing(r: Rules, w: World, u: Uid)
    requires Sane(w) && u in w.book && w.book[u].spec.kind != Promote
    ensures Start(r, w, u).book.Keys == w.book.Keys
    ensures w.book[u].spec.kind != Autonomy ==> Undoing(Start(r, w, u), u, w.book[u].spec)
  {
    if w.book[u].spec.kind != Autonomy && w.immediate {
      AtOnceMakesNothing(r, w, u);
    }
  }

  lemma {:induction false} AtOnceMakesNothing(r: Rules, w: World, u: Uid)
    requires Sane(w) && u in w.book && w.book[u].spec.kind != Promote && w.book[u].spec.kind != Autonomy && w.immediate
    ensures var w' := Start(r, w, u); w'.book.Keys == w.book.Keys && w'.book[u].applied
  {
    var v := AtOnceVerifies(r, w, u);
    VerifyMakesNothing(r, v, u);
  }

  /** Where steps run at once, starting goes straight to the check of the applied version. */
  lemma {:induction false} AtOnceVerifies(r: Rules, w: World, u: Uid) returns (v: World)
    requires Sane(w) && u in w.book && w.book[u].spec.kind != Autonomy && w.immediate
    ensures Sane(v) && v.book.Keys == w.book.Keys && u in v.book && v.book[u].applied && v.book[u].spec == w.book[u].spec
    ensures Start(r, w, u) == FireVerify(r, v, u)
  {
    v := Apply(r, Started(w, u), u);
  }

  lemma {:induction false} NotStarted(r: Rules, w: World, u: Uid)
    requires Sane(w) && u in w.book && w.book[u].phase == Admitted && !w.book[u].applied && w.book[u].plan.predicted != Starts
    ensures Enact(r, w, u).book.Keys == w.book.Keys && !Begun(Enact(r, w, u).book[u])
  {
    if w.book[u].plan.predicted == Rejects {
      ConcludeKeeps(r, w, u, Rejected, Unstated);
    }
  }

  lemma {:induction false} EnactMakesNothing(r: Rules, w: World, u: Uid)
    requires Sane(w) && u in w.book && w.book[u].spec.kind != Promote && w.book[u].phase == Admitted && !w.book[u].applied
    ensures Enact(r, w, u).book.Keys == w.book.Keys
    ensures w.book[u].plan.predicted != Starts ==> !Begun(Enact(r, w, u).book[u])
    ensures w.book[u].plan.predicted == Starts && w.book[u].spec.kind != Autonomy ==> Undoing(Enact(r, w, u), u, w.book[u].spec)
  {
    if w.book[u].plan.predicted == Starts {
      StartMakesNothing(r, w, u);
    } else {
      NotStarted(r, w, u);
    }
  }

  /** One operation at most, of the kind asked for. */
  lemma {:induction false} ProposeMakesOne(r: Rules, w: World, req: Request, actor: User)
    requires Sane(w) && req.kind != Promote
    ensures var w' := Propose(r, w, req, actor);
            forall x | x in w'.book && x !in w.book :: x == w.n + 1 && w'.book[x].spec.kind == req.kind
  {
    if Admit(r, w, req, actor).Some? {
      var a := Admit(r, w, req, actor).value;
      AdmittedNew(r, w, req, actor);
      EnactMakesNothing(r, a, a.n);
    }
  }

  // ---- one failed promote --------------------------------------------------------------------------------

  /** The world in which the promoter has concluded `u` as failed. */
  function Failing(r: Rules, w: World, u: Uid, v: Verification): World
    requires Sane(w) && u in w.book
  {
    Conclude(r, w, u, Failed, v)
  }

  /** What the Stage of `u` will count as failed. */
  function FailedThen(r: Rules, w: World, u: Uid, v: Verification): seq<string>
    requires Sane(w) && u in w.book
  {
    r.remember(w.stages[w.book[u].spec.stage].memory, w.book[u], Failed, v).failed
  }

  predicate PlanStarts(plan: Option<Plan>) {
    plan.Some? && plan.value.predicted == Starts
  }

  /** Still listed, its Stage still on it, with a version before it that did not fail and a plan back to it that starts. */
  predicate Undoable(r: Rules, w: World, u: Uid, v: Verification)
    requires Sane(w) && u in w.book
  {
    var op := w.book[u]; var k := op.spec.stage;
    && u in w.listed && w.stages[k].pointer == op.after && op.before != "" && op.before !in FailedThen(r, w, u, v)
    && PlanStarts(r.planFor(Failing(r, w, u, v), UndoSpec(k, op, u), PROMOTER))
  }

  /** Concluding as failed leaves the operation, its place in the list and its Stage's pointer as they were. */
  lemma {:induction false} FailingKeeps(r: Rules, w: World, u: Uid, v: Verification)
    requires Sane(w) && u in w.book && w.book[u].spec.kind != Autonomy
    ensures var c := Failing(r, w, u, v); var op := w.book[u];
            && u in c.book && c.book[u] == ConcludedOp(w.stages[op.spec.stage], op, Failed).(plan := c.book[u].plan)
            && c.listed == w.listed && c.n == w.n && c.book.Keys == w.book.Keys && c.immediate == w.immediate
            && op.spec.stage in c.stages && c.stages[op.spec.stage].pointer == w.stages[op.spec.stage].pointer
            && c.stages[op.spec.stage].memory.failed == FailedThen(r, w, u, v)
  {
    var w2 := Recorded(r, Ended(r, w, u, Failed, v), u);
    assert SameButPlan(w2.book[u], Replan(r, w2, w2.listed).book[u]);
  }

  /** The world after the rollback was proposed, and after the step-down. */
  ghost predicate Unfolds(r: Rules, c: World, u: Uid, caused: bool, w1: World, w2: World) {
    && Sane(c) && u in c.book && w2 == RollBack(r, c, u, caused)
    && w1 == (if c.book[u].before == "" then c else Propose(r, c, Undo(c, u, caused), PROMOTER))
    && Kept(w1, w2, 0) && 0 !in w1.book && w2.immediate == w1.immediate
    && forall x | x in w2.book && x !in w1.book :: w2.book[x].spec.kind == Autonomy
  }

  lemma {:induction false} StepDownMakes(r: Rules, w: World, u: Uid, caused: bool)
    requires Good(r, w, 0) && u in w.book
    ensures var w' := StepDown(r, w, u, caused);
            Kept(w, w', 0) && forall x | x in w'.book && x !in w.book :: w'.book[x].spec.kind == Autonomy
  {
    StepDownGood(r, w, u, caused);
    ProposeMakesOne(r, w, StepDownOf(r, w, u), PROMOTER);
  }

  lemma {:induction false} Unfold(r: Rules, c: World, u: Uid, caused: bool) returns (w1: World, w2: World)
    requires Good(r, c, 0) && u in c.book
    ensures Unfolds(r, c, u, caused, w1, w2)
  {
    w1 := c;
    if c.book[u].before != "" {
      ProposeGood(r, c, Undo(c, u, caused), PROMOTER);
      w1 := Propose(r, c, Undo(c, u, caused), PROMOTER);
    }
    StepDownMakes(r, w1, u, caused);
    w2 := StepDown(r, w1, u, caused);
  }

  /** Nothing refuses the rollback of `u`, and its plan starts. */
  predicate UndoStarts(r: Rules, c: World, u: Uid)
    requires Has(c, u)
  {
    var op := c.book[u]; var k := op.spec.stage;
    && u in c.listed && c.stages[k].pointer == op.after && op.before !in c.stages[k].memory.failed
    && PlanStarts(r.planFor(c, UndoSpec(k, op, u), PROMOTER))
  }

  lemma {:induction false} UndoAdmitted(r: Rules, c: World, u: Uid, caused: bool)
    requires Sane(c) && u in c.book && OpHome(r, c.book[u]) && c.book[u].spec.kind == Promote && c.book[u].applied && c.book[u].before != ""
    ensures var a := Admit(r, c, Undo(c, u, caused), PROMOTER);
            && (UndoStarts(r, c, u) <==> a.Some? && a.value.book[a.value.n].plan.predicted == Starts)
            && (a.Some? ==> a.value.n == c.n + 1 && a.value.immediate == c.immediate
                            && a.value.book[a.value.n].spec == UndoSpec(c.book[u].spec.stage, c.book[u], u))
  {
    RollbackAdmittedIff(r, c, Undo(c, u, caused), PROMOTER);
  }

  /** An admitted request is enacted. */
  lemma {:induction false} Enacted(r: Rules, c: World, req: Request) returns (a: World, w1: World)
    requires Sane(c) && req.kind == Rollback && Admit(r, c, req, PROMOTER).Some?
    ensures a == Admit(r, c, req, PROMOTER).value && w1 == Propose(r, c, req, PROMOTER)
    ensures a.n in a.book && w1.book.Keys == a.book.Keys
    ensures forall x | x in w1.book && x !in c.book :: x == a.n
    ensures a.book[a.n].plan.predicted != Starts ==> !Begun(w1.book[a.n])
    ensures a.book[a.n].plan.predicted == Starts ==> Undoing(w1, a.n, a.book[a.n].spec)
  {
    a := Admit(r, c, req, PROMOTER).value;
    w1 := Enact(r, a, a.n);
    AdmittedNew(r, c, req, PROMOTER);
    EnactMakesNothing(r, a, a.n);
  }

  lemma {:induction false} EnactedIff(c: World, a: World, w1: World, spec: Spec, starts: bool)
    requires a.n == c.n + 1 && a.n in a.book && w1.book.Keys == a.book.Keys && a.book[a.n].spec == spec
    requires forall x | x in w1.book && x !in c.book :: x == a.n
    requires a.book[a.n].plan.predicted != Starts ==> !Begun(w1.book[a.n])
    requires a.book[a.n].plan.predicted == Starts ==> Undoing(w1, a.n, a.book[a.n].spec)
    requires starts <==> a.book[a.n].plan.predicted == Starts
    ensures starts ==> Undoing(w1, c.n + 1, spec)
    ensures !starts ==> forall x | x in w1.book && x !in c.book :: !Begun(w1.book[x])
  {
  }

  /** The promoter's rollback has begun in `w1` exactly then. */
  lemma {:induction false} ProposedIff(r: Rules, c: World, u: Uid, caused: bool) returns (w1: World)
    requires Sane(c) && u in c.book && OpHome(r, c.book[u]) && c.book[u].spec.kind == Promote && c.book[u].applied && c.book[u].before != ""
    ensures w1 == Propose(r, c, Undo(c, u, caused), PROMOTER)
    ensures UndoStarts(r, c, u) ==> Undoing(w1, c.n + 1, UndoSpec(c.book[u].spec.stage, c.book[u], u))
    ensures !UndoStarts(r, c, u) ==> forall x | x in w1.book && x !in c.book :: !Begun(w1.book[x])
  {
    UndoAdmitted(r, c, u, caused);
    if Admit(r, c, Undo(c, u, caused), PROMOTER).Some? {
      var a;
      a, w1 := Enacted(r, c, Undo(c, u, caused));
      EnactedIff(c, a, w1, UndoSpec(c.book[u].spec.stage, c.book[u], u), UndoStarts(r, c, u));
    } else {
      w1 := c;
    }
  }

  lemma {:induction false} KeptUndoing(w: World, w': World, x: Uid, spec: Spec)
    requires Kept(w, w', 0) && x != 0 && x in w.book && w'.immediate == w.immediate
    ensures Undoing(w', x, spec) <==> Undoing(w, x, spec)
  {
    assert SameButPlan(w.book[x], w'.book[x]);
  }

  /** What comes of a failed promote, by what could be seen when it was concluded. */
  lemma {:induction false} UndoneIff(r: Rules, c: World, u: Uid, caused: bool)
    requires Good(r, c, 0) && u in c.book && OpHome(r, c.book[u]) && c.book[u].spec.kind == Promote && c.book[u].applied
    ensures var spec := UndoSpec(c.book[u].spec.stage, c.book[u], u);
            Undone(c, RollBack(r, c, u, caused), spec) <==> c.book[u].before != "" && UndoStarts(r, c, u)
  {
    var spec := UndoSpec(c.book[u].spec.stage, c.book[u], u);
    var w1, w2 := Unfold(r, c, u, caused);
    if c.book[u].before != "" {
      var w1' := ProposedIff(r, c, u, caused);
    }
    UndoneFrom(c, w1, w2, spec, c.book[u].before != "" && UndoStarts(r, c, u));
  }

  lemma {:induction false} UndoneFrom(c: World, w1: World, w2: World, spec: Spec, starts: bool)
    requires Sane(c) && Kept(w1, w2, 0) && 0 !in w1.book && w2.immediate == w1.immediate && spec.kind == Rollback
    requires forall x | x in w2.book && x !in w1.book :: w2.book[x].spec.kind == Autonomy
    requires starts ==> Undoing(w1, c.n + 1, spec)
    requires !starts ==> forall x | x in w1.book && x !in c.book :: !Begun(w1.book[x])
    ensures Undone(c, w2, spec) <==> starts
  {
    if starts {
      KeptUndoing(w1, w2, c.n + 1, spec);
      assert c.n + 1 !in c.book;
    } else {
      forall x | x !in c.book ensures !Undoing(w2, x, spec) {
        NotUndoing(c, w1, w2, x, spec);
      }
    }
  }

  lemma {:induction false} NotUndoing(c: World, w1: World, w2: World, x: Uid, spec: Spec)
    requires Kept(w1, w2, 0) && 0 !in w1.book && spec.kind == Rollback && x !in c.book
    requires x in w2.book && x !in w1.book ==> w2.book[x].spec.kind == Autonomy
    requires x in w1.book ==> !Begun(w1.book[x])
    ensures !Undoing(w2, x, spec)
  {
    if x in w1.book {
      assert SameButPlan(w1.book[x], w2.book[x]);
    }
  }

  // ---- wherever the check is made ------------------------------------------------------------------------

  lemma {:induction false} FailRollsBack(r: Rules, w: World, u: Uid)
    requires Sane(w) && u in w.book && r.check(w, u) == Fail
    ensures FireVerify(r, w, u) == RollBack(r, Failing(r, w, u, Unverified), u, true)
  {
  }

  lemma {:induction false} FailingGood(r: Rules, w: World, u: Uid, v: Verification)
    requires Good(r, w, u) && Ledger(r, w) && u in w.book && Idle(w, u) && Ending(r.prefix, w.book[u], Failed)
    ensures var c := Failing(r, w, u, v); Good(r, c, 0) && u in c.book && OpHome(r, c.book[u])
  {
    ConcludeGood(r, w, u, Failed, v);
    ConcludeLedger(r, w, u, Failed, v);
  }

  /** Seen before the conclusion or after it, what the rollback needs is the same. */
  lemma {:induction false} UndoableIs(r: Rules, w: World, u: Uid, v: Verification)
    requires Sane(w) && u in w.book && w.book[u].spec.kind != Autonomy
    ensures var c := Failing(r, w, u, v); Has(c, u) && (Undoable(r, w, u, v) <==> c.book[u].before != "" && UndoStarts(r, c, u))
    ensures var c := Failing(r, w, u, v); UndoSpec(c.book[u].spec.stage, c.book[u], u) == UndoSpec(w.book[u].spec.stage, w.book[u], u)
  {
    FailingKeeps(r, w, u, v);
  }

  /** A promote concluded as failed is undone exactly then, whatever it was concluded for. */
  lemma {:induction false} FailedIsUndoneIff(r: Rules, w: World, u: Uid, v: Verification, caused: bool)
    requires Good(r, w, u) && Ledger(r, w) && u in w.book && Idle(w, u) && Ending(r.prefix, w.book[u], Failed)
    requires w.book[u].spec.kind == Promote && w.book[u].applied
    ensures Undone(w, RollBack(r, Failing(r, w, u, v), u, caused), UndoSpec(w.book[u].spec.stage, w.book[u], u))
            <==> Undoable(r, w, u, v)
  {
    FailingGood(r, w, u, v);
    FailingKeeps(r, w, u, v);
    UndoableIs(r, w, u, v);
    UndoneIff(r, Failing(r, w, u, v), u, caused);
  }

  /**
   Wherever the promoter checks a released promote, in a step of its own or at once, and the check
   fails, the rollback to the version before it begins if and only if the promote is still listed, its
   Stage is still on it, there is a version before it that did not fail, and the plan back to it starts.
   */
  lemma {:induction false} CheckedFailureIff(r: Rules, w: World, u: Uid)
    requires Good(r, w, u) && Ledger(r, w) && u in w.book && Idle(w, u) && Released(r.prefix, w.book[u])
    requires w.book[u].spec.kind == Promote && r.check(w, u) == Fail
    ensures Undone(w, FireVerify(r, w, u), UndoSpec(w.book[u].spec.stage, w.book[u], u)) <==> Undoable(r, w, u, Unverified)
  {
    FailedIsUndoneIff(r, w, u, Unverified, true);
    FailRollsBack(r, w, u);
  }

  lemma {:induction false} TakenStands(r: Rules, w: World, u: Uid)
    requires Whole(r, w) && Enabled(w, Steps(ToVerify(u)))
    ensures var w1 := Taken(w, ToVerify(u)); Good(r, w1, u) && Ledger(r, w1) && Idle(w1, u) && Released(r.prefix, w1.book[u])
  {
    TakenGood(r, w, ToVerify(u));
    AlikeLedger(r, w, Taken(w, ToVerify(u)));
  }

  lemma {:induction false} VerifyStepIs(r: Rules, w: World, u: Uid)
    requires Enabled(w, Steps(ToVerify(u)))
    ensures Step(r, w, Steps(ToVerify(u))) == Changed(FireVerify(r, Taken(w, ToVerify(u)), u))
  {
  }

  lemma {:induction false} ChangedUndoing(w: World, spec: Spec)
    ensures forall x :: Undoing(Changed(w), x, spec) <==> Undoing(w, x, spec)
  {
  }

  /** In every run, so it is for the step in which a promote fails its checks. */
  lemma {:induction false} FailureIsUndoneIff(r: Rules, w: World, u: Uid)
    requires Reachable(r, w) && Enabled(w, Steps(ToVerify(u))) && w.book[u].spec.kind == Promote && r.check(Taken(w, ToVerify(u)), u) == Fail
    ensures Undone(w, Step(r, w, Steps(ToVerify(u))), UndoSpec(w.book[u].spec.stage, w.book[u], u))
            <==> Undoable(r, Taken(w, ToVerify(u)), u, Unverified)
  {
    ReachableWhole(r, w);
    TakenStands(r, w, u);
    CheckedFailureIff(r, Taken(w, ToVerify(u)), u);
    VerifyStepIs(r, w, u);
    ChangedUndoing(FireVerify(r, Taken(w, ToVerify(u)), u), UndoSpec(w.book[u].spec.stage, w.book[u], u));
  }

  /** The world in which a promote that starts while steps run at once is checked. */
  function Shipped(r: Rules, w: World, u: Uid): World
    requires Sane(w) && u in w.book
  {
    Apply(r, Started(w, u), u)
  }

  lemma {:induction false} ShippedStands(r: Rules, w: World, u: Uid)
    requires Good(r, w, u) && Ledger(r, w) && u in w.book && Idle(w, u) && Ready(r.prefix, w.book[u]) && w.book[u].spec.kind == Promote
    ensures var v := Shipped(r, w, u); Good(r, v, u) && Ledger(r, v) && u in v.book && Idle(v, u) && Released(r.prefix, v.book[u])
    ensures Shipped(r, w, u).book.Keys == w.book.Keys && Shipped(r, w, u).book[u].spec == w.book[u].spec
  {
    ShippedGood(r, w, u);
    ShippedLedger(r, w, u);
  }

  lemma {:induction false} ShippedGood(r: Rules, w: World, u: Uid)
    requires Good(r, w, u) && u in w.book && Idle(w, u) && Ready(r.prefix, w.book[u]) && w.book[u].spec.kind == Promote
    ensures var v := Shipped(r, w, u); Good(r, v, u) && u in v.book && Idle(v, u) && Released(r.prefix, v.book[u])
  {
    var w1 := Started(w, u);
    StartedGood(r, w, u);
    AppliedGood(r, w1, u);
    AppliedReleased(r.prefix, w1.stages[w.book[u].spec.stage], w1.book[u]);
  }

  lemma {:induction false} ShippedLedger(r: Rules, w: World, u: Uid)
    requires Ledger(r, w) && u in w.book && w.book[u].phase != Concluded && w.book[u].spec.kind == Promote
    ensures Ledger(r, Shipped(r, w, u))
  {
    OneLedger(r, w, Started(w, u), u);
    AppliedLedger(r, Started(w, u), u);
  }

  /** And so it is in the replay, where a promote that starts is applied and checked at once. */
  lemma {:induction false} ReplayedFailureIff(r: Rules, w: World, u: Uid)
    requires Good(r, w, u) && Ledger(r, w) && u in w.book && Idle(w, u) && Ready(r.prefix, w.book[u]) && w.book[u].spec.kind == Promote
    requires w.immediate && r.check(Shipped(r, w, u), u) == Fail
    ensures var op := Shipped(r, w, u).book[u];
            Undone(w, Start(r, w, u), UndoSpec(op.spec.stage, op, u)) <==> Undoable(r, Shipped(r, w, u), u, Unverified)
  {
    ShippedStands(r, w, u);
    CheckedFailureIff(r, Shipped(r, w, u), u);
    assert Start(r, w, u) == FireVerify(r, Shipped(r, w, u), u);
  }

  // ---- a promote cancelled while it runs ------------------------------------------------------------------------

  /** Off the list, and asked for by a person: nothing is done about it. */
  lemma {:induction false} NothingToUndo(r: Rules, c: World, u: Uid)
    requires Sane(c) && u in c.book && u !in c.listed && ClassOf(r, c.book[u].actor) == Human
    ensures RollBack(r, c, u, true) == c
  {
    RollbackAdmittedIff(r, c, Undo(c, u, true), PROMOTER);
  }

  /** Once it is off the list, a failed promote gets no rollback of any kind. */
  lemma {:induction false} UnlistedIsNotUndone(r: Rules, c: World, u: Uid)
    requires Good(r, c, 0) && u in c.book && u !in c.listed
    ensures forall x | x in RollBack(r, c, u, true).book && x !in c.book :: RollBack(r, c, u, true).book[x].spec.kind != Rollback
  {
    var w1, w2 := Unfold(r, c, u, true);
    RollbackAdmittedIff(r, c, Undo(c, u, true), PROMOTER);
    assert w1 == c;
  }

  lemma {:induction false} FailedUnlisted(r: Rules, w: World, u: Uid)
    requires Good(r, w, u) && Ledger(r, w) && u in w.book && Idle(w, u) && Released(r.prefix, w.book[u])
    requires u !in w.listed && r.check(w, u) == Fail
    ensures var w' := FireVerify(r, w, u); forall x | x in w'.book && x !in w.book :: w'.book[x].spec.kind != Rollback
  {
    FailingGood(r, w, u, Unverified);
    FailingKeeps(r, w, u, Unverified);
    UnlistedIsNotUndone(r, Failing(r, w, u, Unverified), u);
    FailRollsBack(r, w, u);
  }

  /**
   A promote cancelled while it runs is applied all the same, and if it then fails its checks the
   promoter finds no operation to undo: no rollback is made.
   */
  lemma {:induction false} CancelledFailureStays(r: Rules, w: World, u: Uid)
    requires Reachable(r, w) && u in w.book && u !in w.listed && Enabled(w, Steps(ToVerify(u))) && r.check(Taken(w, ToVerify(u)), u) == Fail
    ensures var w' := Step(r, w, Steps(ToVerify(u))); forall x | x in w'.book && x !in w.book :: w'.book[x].spec.kind != Rollback
  {
    ReachableWhole(r, w);
    TakenStands(r, w, u);
    FailedUnlisted(r, Taken(w, ToVerify(u)), u);
    VerifyStepIs(r, w, u);
  }

  /** Released, waiting to be accepted or rejected, and off the list where decisions look for it. */
  predicate Shelved(w: World, u: Uid) {
    u in w.book && w.book[u].applied && w.book[u].phase == Held && u !in w.listed
  }

  lemma {:induction false} StepShelved(r: Rules, w: World, e: Event, u: Uid)
    requires Enabled(w, e) && Good(r, w, 0) && Shelved(w, u)
    ensures Shelved(Step(r, w, e), u)
  {
    StepGood(r, w, e);
    assert Fine(r.prefix, w.book, w.tasks, u);
    assert u != 0 && Touches(w, e) != u;
    assert SameButPlan(w.book[u], Step(r, w, e).book[u]);
  }

  lemma {:induction false} RunShelved(r: Rules, w: World, es: seq<Event>, w': World, u: Uid)
    requires Good(r, w, 0) && Shelved(w, u) && Run(r, w, es, w')
    ensures Shelved(w', u)
    decreases |es|
  {
    if es != [] {
      StepGood(r, w, es[0]);
      StepShelved(r, w, es[0], u);
      RunShelved(r, Step(r, w, es[0]), es[1..], w', u);
    }
  }

  /** If instead its checks cannot tell, it waits for a decision nobody can give: in every run it stays held, neither accepted nor rejected. */
  lemma {:induction false} CancelledUnknownStays(r: Rules, w: World, u: Uid, es: seq<Event>, w': World)
    requires Reachable(r, w) && u in w.book && u !in w.listed && Enabled(w, Steps(ToVerify(u))) && r.check(Taken(w, ToVerify(u)), u) == Unknown
    requires Run(r, Step(r, w, Steps(ToVerify(u))), es, w')
    ensures Shelved(w', u) && w'.book[u].ends == 0
  {
    ReachableWhole(r, w);
    var w1 := Step(r, w, Steps(ToVerify(u)));
    StepWhole(r, w, Steps(ToVerify(u)));
    assert Fine(r.prefix, w.book, w.tasks, u);
    RunShelved(r, w1, es, w', u);
    RunWhole(r, w1, es, w');
    assert Fine(r.prefix, w'.book, w'.tasks, u) && u != 0;
  }

  const HERE := Key("n", "s")

  const GO := Plan(Starts, [], false, false, "", 0)

  /** Every plan starts and every check fails. */
  function Strict(g: Registry): Rules {
    Rules(g, (_, _, _) => Some(GO), (_, _) => Fail, (m, _, _, _) => m, (m, _) => m, _ => Human, "", l => l, _ => false, _ => "")
  }

  function Placed(from: string): Stage {
    Stage(from, None, 0, 0, "", 0, [], [], Memory(false, [], "", 0))
  }

  function Before(from: string): World {
    World(map[HERE := Placed(from)], map[], [], map[], 0, multiset{}, false, None)
  }

  function Asking(to: string): Event {
    Asks(Request(HERE, Promote, "", to, 0, "", false), "a")
  }

  function Promoting(from: string, to: string): Op {
    Op(Spec(Promote, HERE, from, to, 0), "a", GO, Running, false, "", "", [], [], 1, 0, 0)
  }

  /** The promote asked for, running. */
  function Asked(from: string, to: string): World {
    Before(from).(book := map[1 := Promoting(from, to)], listed := [1], n := 1, tasks := multiset{ToApply(1)})
  }

  /** A new operation, as its plan makes it. */
  function Made(spec: Spec, plan: Plan): Op {
    Op(spec, "a", plan, Admitted, false, "", "", [], [], 0, 0, 0)
  }

  lemma {:induction false} AdmitIs(r: Rules, w: World, req: Request, spec: Spec, plan: Plan)
    requires Sane(w) && req.digest == "" && req.kind != Rollback && req.stage in w.stages
    requires SpecFor(r, w, req) == Some(spec) && Plannable(r, spec) && r.planFor(w, spec, "a") == Some(plan)
    ensures Admit(r, w, req, "a") == Some(w.(n := w.n + 1, book := w.book[w.n + 1 := Made(spec, plan)], listed := w.listed + [w.n + 1]))
  {
    assert PlanOf(r, w, req, "a") == Some(Planned(plan, spec));
  }

  lemma {:induction false} AskedAdmits(g: Registry, from: string, to: string)
    requires Known(g, HERE.name, to)
    ensures var op := Made(Promoting(from, to).spec, GO);
            Sane(Before(from)) && Admit(Strict(g), Before(from), Asking(to).req, "a") == Some(Before(from).(book := map[1 := op], listed := [1], n := 1))
  {
    var w, op := Before(from), Made(Promoting(from, to).spec, GO);
    AdmitIs(Strict(g), w, Asking(to).req, op.spec, GO);
    assert w.book[1 := op] == map[1 := op] && w.listed + [1] == [1];
  }

  lemma {:induction false} AskedStarted(g: Registry, from: string, to: string, a: World)
    requires Sane(a) && a == Before(from).(book := map[1 := Made(Promoting(from, to).spec, GO)], listed := [1], n := 1)
    ensures Enact(Strict(g), a, 1) == Asked(from, to)
  {
    assert Started(a, 1).book == map[1 := Promoting(from, to)];
    assert Start(Strict(g), a, 1).tasks == multiset{ToApply(1)};
  }

  lemma {:induction false} AskedRuns(g: Registry, from: string, to: string)
    requires Known(g, HERE.name, to)
    ensures Enabled(Before(from), Asking(to)) && Step(Strict(g), Before(from), Asking(to)) == Asked(from, to)
  {
    AskedAdmits(g, from, to);
    var a := Before(from).(book := map[1 := Made(Promoting(from, to).spec, GO)], listed := [1], n := 1);
    AskedStarted(g, from, to, a);
    assert Propose(Strict(g), Before(from), Asking(to).req, "a") == Asked(from, to);
  }

  function Cancelled(from: string, to: string): World {
    Asked(from, to).(listed := [])
  }

  lemma {:induction false} CancelsRunning(g: Registry, from: string, to: string)
    ensures Enabled(Asked(from, to), Cancels("n", 1)) && Step(Strict(g), Asked(from, to), Cancels("n", 1)) == Cancelled(from, to)
  {
    assert Without([1], 1) == [];
  }

  function Applied(from: string, to: string): World {
    Before(from).(stages := map[HERE := Placed(from).(pointer := to, lastOp := 1)], n := 1, tasks := multiset{ToVerify(1)},
                  book := map[1 := Promoting(from, to).(phase := Verifying, applied := true, before := from, after := to, moves := 1)])
  }

  lemma {:induction false} CancelledApplies(g: Registry, from: string, to: string, w: World)
    requires w == Cancelled(from, to).(tasks := multiset{})
    ensures Sane(w) && Apply(Strict(g), w, 1) == Applied(from, to).(tasks := multiset{})
  {
    assert Sane(w);
    assert Apply(Strict(g), w, 1).stages == Applied(from, to).stages && Apply(Strict(g), w, 1).book == Applied(from, to).book;
  }

  lemma {:induction false} AppliesCancelled(g: Registry, from: string, to: string)
    ensures Enabled(Cancelled(from, to), Steps(ToApply(1))) && Step(Strict(g), Cancelled(from, to), Steps(ToApply(1))) == Applied(from, to)
  {
    var w := Taken(Cancelled(from, to), ToApply(1));
    assert w.tasks == multiset{};
    CancelledApplies(g, from, to, w);
    assert FireApply(Strict(g), w, 1) == Applied(from, to);
  }

  lemma {:induction false} FourSteps(r: Rules, w0: World, w1: World, w2: World, w3: World, w4: World, a: Event, b: Event, c: Event, d: Event)
    requires Enabled(w0, a) && Step(r, w0, a) == w1 && Enabled(w1, b) && Step(r, w1, b) == w2
    requires Enabled(w2, c) && Step(r, w2, c) == w3 && Enabled(w3, d) && Step(r, w3, d) == w4
    ensures Run(r, w0, [a, b, c, d], w4)
  {
    assert [d][1..] == [] && [c, d][1..] == [d] && [b, c, d][1..] == [c, d] && [a, b, c, d][1..] == [b, c, d];
    assert Run(r, w4, [], w4) && Run(r, w3, [d], w4) && Run(r, w2, [c, d], w4) && Run(r, w1, [b, c, d], w4);
  }

  lemma {:induction false} BeforeBegins(g: Registry, from: string)
    requires Known(g, HERE.name, from)
    ensures Begins(Strict(g), Before(from))
  {
  }

  /** Whatever the two versions: asked for, cancelled while running, applied, failed, the failed version stays and nothing undoes it. */
  lemma {:induction false} FailedVersionStays(g: Registry, from: string, to: string) returns (w: World)
    requires Known(g, HERE.name, from) && Known(g, HERE.name, to)
    ensures Begins(Strict(g), Before(from))
    ensures Run(Strict(g), Before(from), [Asking(to), Cancels("n", 1), Steps(ToApply(1)), Steps(ToVerify(1))], w)
    ensures HERE in w.stages && w.stages[HERE].pointer == to && w.book.Keys == {1} && w.tasks == multiset{}
  {
    BeforeBegins(g, from);
    AskedRuns(g, from, to);
    CancelsRunning(g, from, to);
    AppliesCancelled(g, from, to);
    FailsForGood(g, from, to);
    w := Step(Strict(g), Applied(from, to), Steps(ToVerify(1)));
    FourSteps(Strict(g), Before(from), Asked(from, to), Cancelled(from, to), Applied(from, to), w,
              Asking(to), Cancels("n", 1), Steps(ToApply(1)), Steps(ToVerify(1)));
  }

  lemma {:induction false} FailsForGood(g: Registry, from: string, to: string)
    ensures Enabled(Applied(from, to), Steps(ToVerify(1)))
    ensures var w := Step(Strict(g), Applied(from, to), Steps(ToVerify(1)));
            HERE in w.stages && w.stages[HERE].pointer == to && w.book.Keys == {1} && w.tasks == multiset{}
  {
    var w := Taken(Applied(from, to), ToVerify(1));
    var c := Failing(Strict(g), w, 1, Unverified);
    FailingKeeps(Strict(g), w, 1, Unverified);
    FailRollsBack(Strict(g), w, 1);
    NothingToUndo(Strict(g), c, 1);
  }
}
