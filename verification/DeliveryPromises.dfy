/** What the delivery world promises in every run. */
module DeliveryPromises {
  import opened Basics
  import opened Delivery
  import opened DeliveryLedger
  import opened DeliveryLife
  import opened DeliveryRuns
  import opened Versions

  // ---- each operation goes forward, once -----------------------------------------------------------

  /** How far an operation has come: not begun, running, applied, concluded. */
  function Progress(op: Op): nat {
    if op.phase == Concluded then 3 else if op.applied then 2 else if op.phase == Running then 1 else 0
  }

  /** No step takes any operation back, so none starts twice or is applied twice, cancelled or not. */
  lemma {:induction false} ForwardOnly(r: Rules, w: World, e: Event, u: Uid)
    requires Reachable(r, w) && Enabled(w, e) && u in w.book
    ensures u in Step(r, w, e).book && Progress(w.book[u]) <= Progress(Step(r, w, e).book[u])
  {
    ReachableWhole(r, w);
    var w' := Step(r, w, e);
    StepLedger(r, w, e);
    StepGood(r, w, e);
    assert OpGrows(w.book[u], w'.book[u]);
    assert Fine(r.prefix, w.book, w.tasks, u) && Fine(r.prefix, w'.book, w'.tasks, u);
    CountsProgress(w.book[u], w.tasks[ToApply(u)], w.tasks[ToVerify(u)]);
    CountsProgress(w'.book[u], w'.tasks[ToApply(u)], w'.tasks[ToVerify(u)]);
  }

  /** The counts of an operation say the same. */
  lemma {:induction false} CountsProgress(op: Op, toApply: nat, toVerify: nat)
    requires Stands(op, toApply, toVerify)
    ensures Progress(op) == if op.ends == 1 then 3 else if op.moves == 1 then 2 else if op.starts == 1 then 1 else 0
    ensures op.starts <= 1 && op.moves <= op.starts && op.ends <= 1
  {
  }

  /** Each operation ever made starts, moves a pointer and concludes at most once; its Stage tells its conclusion exactly when it has concluded, once. */
  lemma {:induction false} OnceEach(r: Rules, w: World, u: Uid)
    requires Reachable(r, w) && u in w.book
    ensures w.book[u].starts <= 1 && w.book[u].moves <= w.book[u].starts && w.book[u].ends <= 1
    ensures w.book[u].spec.stage in w.stages
    ensures var cs := w.stages[w.book[u].spec.stage].ever; OccurOnce(cs) && (Occurs(cs, u) <==> w.book[u].phase == Concluded)
  {
    ReachableWhole(r, w);
    assert Fine(r.prefix, w.book, w.tasks, u);
    var k := w.book[u].spec.stage;
    assert Keeps(r, w.book, k, w.stages[k]);
    assert Occurs(w.stages[k].ever, u) <==> EndedHere(w.book, k, u);
  }

  /** A Stage's pointer changes only in a step in which an operation of that Stage makes the one move it ever makes. */
  lemma {:induction false} PointerHasMover(r: Rules, w: World, e: Event, k: Key)
    requires Reachable(r, w) && Enabled(w, e) && k in w.stages && k in Step(r, w, e).stages
    requires Step(r, w, e).stages[k].pointer != w.stages[k].pointer
    ensures exists u :: Mover(w, Step(r, w, e), k, u) && Step(r, w, e).book[u].moves == 1
  {
    ReachableWhole(r, w);
    StepLedger(r, w, e);
    StepGood(r, w, e);
    OnlyMove(r, w, Step(r, w, e), k);
  }

  lemma {:induction false} OnlyMove(r: Rules, w: World, w': World, k: Key)
    requires Accounted(w, w') && FineBut(r.prefix, w'.book, w'.tasks, 0) && 0 !in w'.book
    requires k in w.stages && k in w'.stages && w'.stages[k].pointer != w.stages[k].pointer
    ensures exists u :: Mover(w, w', k, u) && w'.book[u].moves == 1
  {
    assert StageAccounted(w, w', k);
    var u :| Mover(w, w', k, u);
    assert Fine(r.prefix, w'.book, w'.tasks, u);
  }

  // ---- what is queued -----------------------------------------------------------------------------------

  /** One apply is queued exactly while an operation runs, one verify exactly while it is verified, and nothing else is queued. */
  lemma {:induction false} QueueIsPhase(r: Rules, w: World, u: Uid)
    requires Reachable(r, w)
    ensures w.tasks[ToApply(u)] == if u in w.book && w.book[u].phase == Running then 1 else 0
    ensures w.tasks[ToVerify(u)] == if u in w.book && w.book[u].phase == Verifying then 1 else 0
  {
    ReachableWhole(r, w);
    if u in w.book {
      assert Fine(r.prefix, w.book, w.tasks, u);
    } else {
      assert ToApply(u) !in w.tasks && ToVerify(u) !in w.tasks;
    }
  }

  /** Waiting on an earlier change, or cancelled before it ran: nobody can act on it any more. */
  predicate Parked(w: World, u: Uid) {
    && u in w.book && !w.book[u].applied && w.book[u].phase != Running && w.book[u].phase != Concluded
    && (w.book[u].phase == Pending || u !in w.listed)
  }

  lemma {:induction false} StepParked(r: Rules, w: World, e: Event, u: Uid)
    requires Enabled(w, e) && Good(r, w, 0) && Parked(w, u)
    ensures Parked(Step(r, w, e), u) && SameButPlan(w.book[u], Step(r, w, e).book[u])
  {
    StepGood(r, w, e);
    assert Fine(r.prefix, w.book, w.tasks, u);
    assert u != 0;
    assert Touches(w, e) != u;
  }

  lemma {:induction false} RunParked(r: Rules, w: World, es: seq<Event>, w': World, u: Uid)
    requires Good(r, w, 0) && Parked(w, u) && Run(r, w, es, w')
    ensures Parked(w', u) && SameButPlan(w.book[u], w'.book[u])
    decreases |es|
  {
    if es != [] {
      StepGood(r, w, es[0]);
      StepParked(r, w, es[0], u);
      RunParked(r, Step(r, w, es[0]), es[1..], w', u);
    }
  }

  /** A promote that found its Stage frozen stays pending for good, unfrozen or not: nothing takes it up again. */
  lemma {:induction false} PendingStays(r: Rules, w: World, u: Uid, es: seq<Event>, w': World)
    requires Reachable(r, w) && u in w.book && w.book[u].phase == Pending && Run(r, w, es, w')
    ensures u in w'.book && w'.book[u].phase == Pending && !w'.book[u].applied
  {
    ReachableWhole(r, w);
    assert Fine(r.prefix, w.book, w.tasks, u);
    RunParked(r, w, es, w', u);
  }

  /** This step neither names `u` as the Stage's last operation nor changes the pointer on its account alone. */
  ghost predicate StepSpares(w: World, w': World, k: Key, u: Uid) {
    && k in w.stages && k in w'.stages && w'.stages[k].lastOp != u
    && (w'.stages[k].pointer != w.stages[k].pointer ==> exists x :: x != u && Mover(w, w', k, x))
  }

  /** However the world goes on, the operation never moves its Stage's pointer. */
  ghost predicate NeverMoves(r: Rules, w: World, u: Uid)
    requires u in w.book
  {
    forall es, w', e | Run(r, w, es, w') && Enabled(w', e) :: StepSpares(w', Step(r, w', e), w.book[u].spec.stage, u)
  }

  lemma {:induction false} ParkedSpares(r: Rules, w: World, e: Event, u: Uid)
    requires Whole(r, w) && Parked(w, u) && Enabled(w, e)
    ensures StepSpares(w, Step(r, w, e), w.book[u].spec.stage, u)
  {
    var w', k := Step(r, w, e), w.book[u].spec.stage;
    StepWhole(r, w, e);
    StepLedger(r, w, e);
    StepParked(r, w, e, u);
    assert StageAccounted(w, w', k) && Keeps(r, w'.book, k, w'.stages[k]) && u != 0;
    if w'.stages[k].pointer != w.stages[k].pointer {
      var x :| Mover(w, w', k, x);
      assert x != u;
    }
  }

  /** A cancelled operation never moves its Stage's pointer exactly when it was not running yet: a queued apply is not taken back. */
  lemma {:induction false} CancelStops(r: Rules, w: World, ns: string, u: Uid)
    requires Reachable(r, w) && Cancellable(w, ns, u)
    ensures Enabled(w, Cancels(ns, u)) && u in Step(r, w, Cancels(ns, u)).book
    ensures NeverMoves(r, Step(r, w, Cancels(ns, u)), u) <==> w.book[u].phase != Running
  {
    ReachableWhole(r, w);
    var w1 := Step(r, w, Cancels(ns, u));
    StepWhole(r, w, Cancels(ns, u));
    WithoutDrops(w.listed, u);
    assert Fine(r.prefix, w.book, w.tasks, u);
    if w.book[u].phase == Running {
      CancelledStillApplies(r, w1, u);
    } else {
      ParkedForGood(r, w1, u);
    }
  }

  lemma {:induction false} ParkedForGood(r: Rules, w: World, u: Uid)
    requires Whole(r, w) && Parked(w, u)
    ensures NeverMoves(r, w, u)
  {
    forall es, w', e | Run(r, w, es, w') && Enabled(w', e) ensures StepSpares(w', Step(r, w', e), w.book[u].spec.stage, u) {
      RunWhole(r, w, es, w');
      RunParked(r, w, es, w', u);
      ParkedSpares(r, w', e, u);
    }
  }

  /** The queued apply of a running operation moves the pointer, listed or not. */
  lemma {:induction false} CancelledStillApplies(r: Rules, w: World, u: Uid)
    requires Whole(r, w) && u in w.book && w.book[u].phase == Running
    ensures !NeverMoves(r, w, u)
  {
    assert Fine(r.prefix, w.book, w.tasks, u);
    AppliesOnce(r, w, u);
    ApplyingMoves(r, w, u);
  }

  lemma {:induction false} ApplyingMoves(r: Rules, w: World, u: Uid)
    requires Enabled(w, Steps(ToApply(u)))
    requires var w' := Step(r, w, Steps(ToApply(u))); var k := w.book[u].spec.stage; k in w'.stages && w'.stages[k].lastOp == u
    ensures !NeverMoves(r, w, u)
  {
    assert Run(r, w, [], w);
  }

  /** An apply puts the Stage on the version asked for, as its last operation, and notes where it came from. */
  lemma {:induction false} AppliesOnce(r: Rules, w: World, u: Uid)
    requires Enabled(w, Steps(ToApply(u))) && !w.immediate
    ensures var w' := Step(r, w, Steps(ToApply(u))); var k := w.book[u].spec.stage;
            && u in w'.book && w'.book[u].moves == w.book[u].moves + 1
            && k in w'.stages && w'.stages[k].pointer == w.book[u].spec.to && w'.stages[k].lastOp == u
            && w'.stages[k].memory == r.holdAfter(w.stages[k].memory, w.book[u])
            && w'.book[u].before == w.stages[k].pointer && w'.book[u].after == w'.stages[k].pointer
  {
  }

  /** The operation a rollback cites is found by its namespace; it is of the rollback's own Stage, because a digest is of one service. */
  lemma {:induction false} CitesOwnStage(r: Rules, w: World, u: Uid)
    requires Ledger(r, w) && u in w.book && w.book[u].spec.kind == Rollback && Bound(w.book, u)
    ensures w.book[w.book[u].spec.undoes].spec.stage == w.book[u].spec.stage
  {
    var c := w.book[u].spec.undoes;
    assert OpHome(r, w.book[u]) && OpHome(r, w.book[c]);
    var g, n, n', d := r.registry, w.book[u].spec.stage.name, w.book[c].spec.stage.name, w.book[c].before;
    var v, v' :| Names(g, n, v, d) && Names(g, n', v', d);
    OneService(g, n, v, n', v', d);
  }

  /** Queued or at once, the move of a rollback puts its Stage on the version that was there before the operation it cites, one of that Stage. */
  lemma {:induction false} RollbackMoves(r: Rules, w: World, u: Uid)
    requires Good(r, w, u) && Ledger(r, w) && u in w.book && w.book[u].spec.kind == Rollback
    ensures var c := w.book[u].spec.undoes; var k := w.book[u].spec.stage;
            && c in w.book && w.book[c].applied && w.book[c].spec.stage == k
            && k in Apply(r, w, u).stages && Apply(r, w, u).stages[k].pointer == w.book[c].before != ""
  {
    assert Bound(w.book, u);
    CitesOwnStage(r, w, u);
  }

  /**
   In every reachable world each rollback ever made cites an applied operation of its own Stage; once
   applied, in a step of its own or at once, it left the Stage on the version from before that
   operation, and while it is queued its step will.
   */
  lemma {:induction false} RollbackRestores(r: Rules, w: World, u: Uid)
    requires Reachable(r, w) && u in w.book && w.book[u].spec.kind == Rollback
    ensures var c := w.book[u].spec.undoes; var k := w.book[u].spec.stage;
            && c in w.book && w.book[c].applied && w.book[c].spec.stage == k && w.book[c].before != ""
            && (w.book[u].applied ==> w.book[u].after == w.book[c].before)
            && (Enabled(w, Steps(ToApply(u))) ==>
                  var w' := Step(r, w, Steps(ToApply(u))); k in w'.stages && w'.stages[k].pointer == w.book[c].before)
  {
    ReachableWhole(r, w);
    assert Bound(w.book, u) && OpHome(r, w.book[u]);
    CitesOwnStage(r, w, u);
    if Enabled(w, Steps(ToApply(u))) {
      AppliesOnce(r, w, u);
    }
  }

  /** Every team the plan asks was answered for, by somebody of it who did not reject the change. */
  ghost predicate AllAnswered(prefix: string, owners: seq<Team>, answers: seq<Answer>) {
    && (forall i | 0 <= i < |answers| :: answers[i].decision != Reject)
    && (forall t | t in owners :: SpokenFor(prefix, answers, t))
  }

  predicate Begun(op: Op) {
    op.phase == Running || op.applied
  }

  /** A held operation starts only by a decision that leaves no asked team waiting. */
  lemma {:induction false} StartsWhenAnswered(r: Rules, w: World, e: Event, u: Uid)
    requires Reachable(r, w) && Enabled(w, e) && u in w.book && w.book[u].phase == Held && !w.book[u].applied
    requires var w' := Step(r, w, e); u in w'.book && Begun(w'.book[u])
    ensures e.Decides? && e.uid == u && AllAnswered(r.prefix, w.book[u].plan.owners, w.book[u].answers + [e.answer])
  {
    ReachableWhole(r, w);
    StepGood(r, w, e);
    assert Fine(r.prefix, w.book, w.tasks, u);
    HeldIsTouched(r, w, e, u);
    DecidedStart(r, w, u, e.answer);
    NoTeamWaits(r, w.book[u], e.answer);
  }

  lemma {:induction false} NoTeamWaits(r: Rules, op: Op, a: Answer)
    requires Told(r.prefix, op) && op.phase == Held && !op.applied && a.decision != Reject
    requires forall t | t in op.plan.owners :: t in Answered(r, op, a).approved
    ensures AllAnswered(r.prefix, op.plan.owners, op.answers + [a])
  {
    AnsweredSpokenFor(r, op, a);
  }

  lemma {:induction false} HeldIsTouched(r: Rules, w: World, e: Event, u: Uid)
    requires Enabled(w, e) && u in w.book && Kept(w, Step(r, w, e), Touches(w, e)) && u != 0
    requires Fine(r.prefix, w.book, w.tasks, u) && w.book[u].phase == Held && !w.book[u].applied
    requires var w' := Step(r, w, e); u in w'.book && Begun(w'.book[u])
    ensures e.Decides? && e.uid == u && Decidable(w, e.ns, u)
  {
    assert Touches(w, e) == u;
  }

  lemma {:induction false} DecidedStart(r: Rules, w: World, u: Uid, a: Answer)
    requires Sane(w) && u in w.book && w.book[u].phase == Held && !w.book[u].applied && Begun(Decide(r, w, u, a).book[u])
    ensures a.decision != Reject
    ensures var op := Answered(r, w.book[u], a); forall t | t in op.plan.owners :: t in op.approved
  {
    var w1 := Recount(r, w, u, a);
    if a.decision == Reject {
      RejectedNeverBegins(r, w1, u);
      assert false;
    }
  }

  lemma {:induction false} RejectedNeverBegins(r: Rules, w: World, u: Uid)
    requires Sane(w) && u in w.book && !w.book[u].applied
    ensures !Begun(Conclude(r, w, u, Rejected, Unstated).book[u])
  {
  }

  /** Records chain from 1, the Stage points at the last, every conclusion has its own, and the window holds the last twenty in order. */
  lemma {:induction false} HistoryHolds(r: Rules, w: World, k: Key)
    requires Reachable(r, w) && k in w.stages
    ensures Window(w.stages[k])
    ensures var st := w.stages[k];
            |st.concluded| == (if |st.ever| < 20 then |st.ever| else 20) && st.concluded == st.ever[|st.ever| - |st.concluded|..]
    ensures k in w.streams ==> Chain(w.stages[k], w.streams[k]) && Evidenced(w.stages[k], w.streams[k])
  {
    ReachableWhole(r, w);
    assert Filed(w.stages[k], StreamOf(w.streams, k));
  }

  /** A read shows the world as it is, whether it finds views or makes them. */
  lemma {:induction false} ReadsAreCurrent(r: Rules, w: World)
    requires Reachable(r, w) && Enabled(w, Reads)
    ensures var v := Step(r, w, Reads).views;
            && v.Some? && v.value.stages == w.stages && |v.value.ops| == |w.listed|
            && forall i | 0 <= i < |w.listed| :: w.listed[i] in w.book && v.value.ops[i] == w.book[w.listed[i]]
  {
    ReachableWhole(r, w);
  }
}
