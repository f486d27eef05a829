/** What a decision, a check and a request come to: what the Stage is told and what follows (examples/demo/source_delivery.go:602-825, 1035-1066). */
module DeliveryDecisions {
  import opened Basics
  import opened Delivery
  import opened DeliveryLedger
  import opened DeliveryLife
  import opened DeliveryPromises
  import opened DeliveryRuns
  import opened DeliveryUndo

  /** The Stage's conclusions go on from what they were with this one of `u`. */
  predicate Adds(st: Stage, st': Stage, u: Uid, outcome: Outcome, v: Verification) {
    st.ever + [Conclusion(u, st.num + 1, outcome, v)] <= st'.ever
  }

  /** The Stage of `u` is told so. */
  predicate StageTold(w: World, w': World, u: Uid, outcome: Outcome, v: Verification)
    requires Has(w, u)
  {
    var k := w.book[u].spec.stage;
    k in w'.stages && Adds(w.stages[k], w'.stages[k], u, outcome, v)
  }

  /** A conclusion is told to its Stage, which remembers what the policy says of it; no other Stage changes. */
  lemma {:induction false} ConcludeTells(r: Rules, w: World, u: Uid, outcome: Outcome, v: Verification)
    requires Sane(w) && u in w.book
    ensures StageTold(w, Conclude(r, w, u, outcome, v), u, outcome, v)
    ensures var k := w.book[u].spec.stage; var w' := Conclude(r, w, u, outcome, v);
            && k in w'.stages && w'.stages[k].memory == r.remember(w.stages[k].memory, w.book[u], outcome, v)
            && forall k' | k' in w.stages && k' != k :: k' in w'.stages && w'.stages[k'] == w.stages[k']
  {
  }

  lemma {:induction false} ToldOn(w: World, w1: World, w2: World, u: Uid, outcome: Outcome, v: Verification)
    requires Has(w, u) && StageTold(w, w1, u, outcome, v) && Accounted(w1, w2)
    ensures StageTold(w, w2, u, outcome, v)
  {
    assert StageAccounted(w1, w2, w.book[u].spec.stage);
  }

  /** Whatever a rollback sets off, the failure before it stays told. */
  lemma {:induction false} FailedTells(r: Rules, w: World, u: Uid, v: Verification, caused: bool)
    requires Ledger(r, w) && u in w.book && w.book[u].phase != Concluded
    ensures StageTold(w, RollBack(r, Conclude(r, w, u, Failed, v), u, caused), u, Failed, v)
  {
    var c := Conclude(r, w, u, Failed, v);
    ConcludeTells(r, w, u, Failed, v);
    ConcludeLedger(r, w, u, Failed, v);
    RollBackLedger(r, c, u, caused);
    ToldOn(w, c, RollBack(r, c, u, caused), u, Failed, v);
  }

  // ---- decisions ------------------------------------------------------------------------------------

  /** Some team the plan asks has not been answered for, by this answer or before it. */
  predicate StillWaits(r: Rules, op: Op, a: Answer) {
    exists t | t in op.plan.owners :: t !in op.approved && !(r.prefix + t in a.groups && !("system:" <= r.prefix + t))
  }

  lemma {:induction false} WaitsIs(r: Rules, op: Op, a: Answer)
    ensures var op' := Answered(r, op, a); TeamsWaiting(op'.plan.owners, op'.approved) != [] <==> StillWaits(r, op, a)
  {
  }

  /** The five ways a decision goes. */
  lemma {:induction false} DecideIs(r: Rules, w: World, u: Uid, a: Answer)
    requires Sane(w) && u in w.book
    ensures var w1 := Recount(r, w, u, a); var op := w.book[u];
            Decide(r, w, u, a) ==
            if a.decision != Reject && StillWaits(r, op, a) then w1
            else if a.decision == Reject && op.applied then RollBack(r, Conclude(r, w1, u, Failed, Unstated), u, false)
            else if a.decision == Reject then Conclude(r, w1, u, Rejected, Unstated)
            else if op.applied then Conclude(r, w1, u, Succeeded, AcceptedUnknown)
            else Start(r, w1, u)
  {
    WaitsIs(r, w.book[u], a);
  }

  lemma {:induction false} DecidesStep(r: Rules, w: World, ns: string, u: Uid, a: Answer)
    requires Sane(w) && Decidable(w, ns, u)
    ensures Enabled(w, Decides(ns, u, a)) && Step(r, w, Decides(ns, u, a)) == Changed(Decide(r, w, u, a))
  {
  }

  /** The world a decision is counted in. */
  lemma {:induction false} Counted(r: Rules, w: World, u: Uid, a: Answer)
    requires Whole(r, w) && u in w.book && w.book[u].phase == Held
    ensures var w1 := Recount(r, w, u, a);
            && Good(r, w1, u) && Ledger(r, w1) && Idle(w1, u) && w1.stages == w.stages && w1.book[u] == Answered(r, w.book[u], a)
            && (if w.book[u].applied then Ending(r.prefix, w1.book[u], Failed) else Ready(r.prefix, w1.book[u]))
  {
    RecountGood(r, w, u, a);
    OneLedger(r, w, Recount(r, w, u, a), u);
    assert u != 0 && Fine(r.prefix, w.book, w.tasks, u);
  }

  /**
   What the Stage is told of a decision: nothing while a team still waits or the change only starts; a
   rejection before release as rejected, after release as failed; an acceptance after release as a
   success that was accepted unknown.
   */
  ghost predicate DecidedAs(r: Rules, w: World, u: Uid, a: Answer, w': World)
    requires Has(w, u)
  {
    var op := w.book[u];
    if a.decision != Reject && StillWaits(r, op, a) then
      w'.stages == w.stages && w'.streams == w.streams && w'.tasks == w.tasks && w'.book == w.book[u := Answered(r, op, a)]
    else if a.decision == Reject then StageTold(w, w', u, if op.applied then Failed else Rejected, Unstated)
    else if op.applied then StageTold(w, w', u, Succeeded, AcceptedUnknown)
    else u in w'.book && (Begun(w'.book[u]) || (op.spec.kind == Autonomy && StageTold(w, w', u, Succeeded, Unstated)))
  }

  lemma {:induction false} RejectTells(r: Rules, w: World, w1: World, u: Uid)
    requires Has(w, u) && u in w1.book && Ledger(r, w1) && w1.book[u].phase != Concluded
    requires w1.stages == w.stages && w1.book[u].spec == w.book[u].spec
    ensures StageTold(w, Conclude(r, w1, u, Rejected, Unstated), u, Rejected, Unstated)
    ensures StageTold(w, RollBack(r, Conclude(r, w1, u, Failed, Unstated), u, false), u, Failed, Unstated)
    ensures StageTold(w, Conclude(r, w1, u, Succeeded, AcceptedUnknown), u, Succeeded, AcceptedUnknown)
  {
    ConcludeTells(r, w1, u, Rejected, Unstated);
    ConcludeTells(r, w1, u, Succeeded, AcceptedUnknown);
    FailedTells(r, w1, u, Unstated, false);
  }

  lemma {:induction false} RejectedAs(r: Rules, w: World, u: Uid, a: Answer)
    requires Whole(r, w) && u in w.book && w.book[u].phase == Held && a.decision == Reject
    ensures DecidedAs(r, w, u, a, Decide(r, w, u, a))
  {
    Counted(r, w, u, a);
    RejectTells(r, w, Recount(r, w, u, a), u);
  }

  lemma {:induction false} AcceptedAs(r: Rules, w: World, u: Uid, a: Answer)
    requires Whole(r, w) && u in w.book && w.book[u].phase == Held && a.decision != Reject && w.book[u].applied
    ensures DecidedAs(r, w, u, a, Decide(r, w, u, a))
  {
    Counted(r, w, u, a);
    DecideIs(r, w, u, a);
    RejectTells(r, w, Recount(r, w, u, a), u);
  }

  lemma {:induction false} ApprovedAs(r: Rules, w: World, u: Uid, a: Answer)
    requires Whole(r, w) && u in w.book && w.book[u].phase == Held && a.decision != Reject && !w.book[u].applied
    ensures DecidedAs(r, w, u, a, Decide(r, w, u, a))
  {
    Counted(r, w, u, a);
    DecideIs(r, w, u, a);
    StartBegins(r, Recount(r, w, u, a), u);
  }

  lemma {:induction false} DecideTells(r: Rules, w: World, u: Uid, a: Answer)
    requires Whole(r, w) && u in w.book && w.book[u].phase == Held
    ensures DecidedAs(r, w, u, a, Decide(r, w, u, a))
  {
    if a.decision == Reject {
      RejectedAs(r, w, u, a);
    } else if w.book[u].applied {
      AcceptedAs(r, w, u, a);
    } else {
      ApprovedAs(r, w, u, a);
    }
  }

  /** In every reachable world. */
  lemma {:induction false} DecisionTells(r: Rules, w: World, ns: string, u: Uid, a: Answer)
    requires Reachable(r, w) && Decidable(w, ns, u)
    ensures Enabled(w, Decides(ns, u, a)) && Has(w, u) && DecidedAs(r, w, u, a, Step(r, w, Decides(ns, u, a)))
  {
    ReachableWhole(r, w);
    DecideTells(r, w, u, a);
    DecidesStep(r, w, ns, u, a);
    ChangedAs(r, w, u, a, Decide(r, w, u, a));
  }

  lemma {:induction false} ChangedAs(r: Rules, w: World, u: Uid, a: Answer, w': World)
    requires Has(w, u) && DecidedAs(r, w, u, a, w')
    ensures DecidedAs(r, w, u, a, Changed(w'))
  {
  }

  /** Starting releases a version, or queues it, or is a level change done. */
  lemma {:induction false} StartBegins(r: Rules, w: World, u: Uid)
    requires Good(r, w, u) && Ledger(r, w) && u in w.book && Idle(w, u) && Ready(r.prefix, w.book[u])
    ensures var w' := Start(r, w, u); u in w'.book && (Begun(w'.book[u]) || (w.book[u].spec.kind == Autonomy && StageTold(w, w', u, Succeeded, Unstated)))
  {
    var w1 := Started(w, u);
    if w.book[u].spec.kind == Autonomy {
      ConcludeTells(r, w1, u, Succeeded, Unstated);
    } else if w.immediate {
      StartedGood(r, w, u);
      AppliedStays(r, w1, u);
    }
  }

  lemma {:induction false} AppliedStays(r: Rules, w: World, u: Uid)
    requires Good(r, w, u) && u in w.book && Idle(w, u) && Launched(r.prefix, w.book[u])
    ensures u in FireApply(r, w, u).book && (w.immediate ==> FireApply(r, w, u).book[u].applied)
  {
    var v := Apply(r, w, u);
    AppliedGood(r, w, u);
    AppliedReleased(r.prefix, w.stages[w.book[u].spec.stage], w.book[u]);
    if w.immediate {
      VerifiedStays(r, v, u);
    }
  }

  lemma {:induction false} VerifiedStays(r: Rules, w: World, u: Uid)
    requires Good(r, w, u) && u in w.book && Idle(w, u) && Released(r.prefix, w.book[u])
    ensures u in FireVerify(r, w, u).book && FireVerify(r, w, u).book[u].applied
  {
    match r.check(w, u)
    case Fail =>
      var c := Conclude(r, w, u, Failed, Unverified);
      ConcludeKeeps(r, w, u, Failed, Unverified);
      FailedGood(r, w, u);
      RollBackGood(r, c, u, true);
      assert SameButPlan(c.book[u], RollBack(r, c, u, true).book[u]);
    case Unknown =>
    case Pass => ConcludeKeeps(r, w, u, Succeeded, Verified);
  }

  /**
   In every reachable world, rejecting a released promote begins the rollback to the version before
   it if and only if its Stage is still on it, that version is there and did not fail, and the plan
   back starts.
   */
  lemma {:induction false} RejectionIsUndoneIff(r: Rules, w: World, ns: string, u: Uid, a: Answer)
    requires Reachable(r, w) && Decidable(w, ns, u) && w.book[u].applied && w.book[u].spec.kind == Promote && a.decision == Reject
    ensures Enabled(w, Decides(ns, u, a))
    ensures Undone(w, Step(r, w, Decides(ns, u, a)), UndoSpec(w.book[u].spec.stage, w.book[u], u))
            <==> Undoable(r, Recount(r, w, u, a), u, Unstated)
  {
    var w1, x, undoable := CountedUndoneIff(r, w, u, a);
    RejectStep(r, w, ns, u, a, w1, x);
    SameNew(w, w1, x, UndoSpec(w.book[u].spec.stage, w.book[u], u));
  }

  /** The world the answer is counted in, what its rejection makes of it, and whether it can be undone there. */
  lemma {:induction false} CountedUndoneIff(r: Rules, w: World, u: Uid, a: Answer) returns (w1: World, x: World, undoable: bool)
    requires Reachable(r, w) && u in w.book && w.book[u].phase == Held && w.book[u].applied && w.book[u].spec.kind == Promote
    ensures Sane(w) && w1 == Recount(r, w, u, a) && w1.book.Keys == w.book.Keys
    ensures x == RollBack(r, Failing(r, w1, u, Unstated), u, false) && undoable == Undoable(r, w1, u, Unstated)
    ensures Undone(w1, x, UndoSpec(w.book[u].spec.stage, w.book[u], u)) <==> undoable
  {
    w1 := CountedFails(r, w, u, a);
    x, undoable := UndoneFails(r, w1, u);
  }

  lemma {:induction false} CountedFails(r: Rules, w: World, u: Uid, a: Answer) returns (w1: World)
    requires Reachable(r, w) && u in w.book && w.book[u].phase == Held && w.book[u].applied
    ensures Sane(w) && w1 == Recount(r, w, u, a) && w1.book.Keys == w.book.Keys
    ensures Good(r, w1, u) && Ledger(r, w1) && Idle(w1, u) && Ending(r.prefix, w1.book[u], Failed)
    ensures w1.book[u].spec == w.book[u].spec && w1.book[u].applied && w1.book[u].before == w.book[u].before && w1.book[u].after == w.book[u].after
  {
    ReachableWhole(r, w);
    w1 := Recount(r, w, u, a);
    Counted(r, w, u, a);
  }

  lemma {:induction false} UndoneFails(r: Rules, w: World, u: Uid) returns (x: World, undoable: bool)
    requires Good(r, w, u) && Ledger(r, w) && u in w.book && Idle(w, u) && Ending(r.prefix, w.book[u], Failed)
    requires w.book[u].spec.kind == Promote && w.book[u].applied
    ensures x == RollBack(r, Failing(r, w, u, Unstated), u, false) && undoable == Undoable(r, w, u, Unstated)
    ensures Undone(w, x, UndoSpec(w.book[u].spec.stage, w.book[u], u)) <==> undoable
  {
    x, undoable := RollBack(r, Failing(r, w, u, Unstated), u, false), Undoable(r, w, u, Unstated);
    FailedIsUndoneIff(r, w, u, Unstated, false);
  }

  /** Dropping the views and counting an answer make no operation. */
  lemma {:induction false} SameNew(w: World, w1: World, w': World, spec: Spec)
    requires w1.book.Keys == w.book.Keys
    ensures Undone(w, Changed(w'), spec) <==> Undone(w1, w', spec)
  {
    ChangedUndoing(w', spec);
  }

  lemma {:induction false} RejectStep(r: Rules, w: World, ns: string, u: Uid, a: Answer, w1: World, x: World)
    requires Sane(w) && Decidable(w, ns, u) && w.book[u].applied && a.decision == Reject
    requires w1 == Recount(r, w, u, a) && x == RollBack(r, Failing(r, w1, u, Unstated), u, false)
    ensures Enabled(w, Decides(ns, u, a)) && Step(r, w, Decides(ns, u, a)) == Changed(x)
  {
    RejectIs(r, w, u, a);
    DecidesStep(r, w, ns, u, a);
  }

  lemma {:induction false} RejectIs(r: Rules, w: World, u: Uid, a: Answer)
    requires Sane(w) && u in w.book && w.book[u].applied && a.decision == Reject
    ensures Decide(r, w, u, a) == RollBack(r, Failing(r, Recount(r, w, u, a), u, Unstated), u, false)
  {
  }

  // ---- checks ------------------------------------------------------------------------------------------

  /** What the Stage is told of a check in every reachable world: a pass as verified, a failure as unverified, and nothing of one that cannot tell. */
  lemma {:induction false} CheckTells(r: Rules, w: World, u: Uid)
    requires Reachable(r, w) && Enabled(w, Steps(ToVerify(u)))
    ensures var w' := Step(r, w, Steps(ToVerify(u)));
            match r.check(Taken(w, ToVerify(u)), u)
            case Pass => StageTold(w, w', u, Succeeded, Verified)
            case Fail => StageTold(w, w', u, Failed, Unverified)
            case Unknown => w'.stages == w.stages && u in w'.book && w'.book[u] == w.book[u].(phase := Held)
  {
    ReachableWhole(r, w);
    TakenStands(r, w, u);
    VerifyStepIs(r, w, u);
    CheckedAs(r, Taken(w, ToVerify(u)), u);
  }

  lemma {:induction false} CheckedAs(r: Rules, w: World, u: Uid)
    requires Ledger(r, w) && u in w.book && w.book[u].phase != Concluded
    ensures match r.check(w, u)
            case Pass => StageTold(w, FireVerify(r, w, u), u, Succeeded, Verified)
            case Fail => StageTold(w, FireVerify(r, w, u), u, Failed, Unverified)
            case Unknown => FireVerify(r, w, u) == Rests(w, u, Held)
  {
    match r.check(w, u)
    case Pass => ConcludeTells(r, w, u, Succeeded, Verified);
    case Fail => FailedTells(r, w, u, Unverified, true);
    case Unknown =>
  }
}
