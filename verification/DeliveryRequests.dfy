/** What a request comes to, and when the promoter lowers a Stage's level (examples/demo/source_delivery.go:508-639, 769-825). */
module DeliveryRequests {
  import opened Basics
  import opened Delivery
  import opened DeliveryDecisions
  import opened DeliveryLedger
  import opened DeliveryLife
  import opened DeliveryPromises
  import opened DeliveryRuns
  import opened DeliveryUndo
  import opened Versions

  // ---- requests --------------------------------------------------------------------------------------

  /** What a request for a version or a level asks for, if it names one there is. */
  function Asking(r: Rules, w: World, req: Request): Option<Spec> {
    if req.stage !in w.stages then None
    else if req.kind == Autonomy then
      if req.to == "" then None
      else Some(Spec(Autonomy, req.stage, if req.from == "" then w.stages[req.stage].memory.level else req.from, req.to, 0))
    else if !Known(r.registry, req.stage.name, req.to) then None
    else Some(Spec(req.kind, req.stage, if req.from == "" then w.stages[req.stage].pointer else req.from, req.to, 0))
  }

  /** A request is taken if and only if what it asks for can be planned and its plan is the one it was shown; the operation is for that, by that actor, with that plan. */
  lemma {:induction false} RequestTakenIff(r: Rules, w: World, req: Request, actor: User)
    requires Sane(w) && req.kind != Rollback
    ensures Admit(r, w, req, actor).Some? <==>
            && Asking(r, w, req).Some? && r.planFor(w, Asking(r, w, req).value, actor).Some?
            && (req.digest == "" || req.digest == r.planFor(w, Asking(r, w, req).value, actor).value.digest)
    ensures var a := Admit(r, w, req, actor);
            a.Some? ==> && a.value.n !in w.book && a.value.book == w.book[a.value.n := a.value.book[a.value.n]] && a.value.listed == w.listed + [a.value.n]
                        && var op := a.value.book[a.value.n];
                           op.spec == Asking(r, w, req).value && op.actor == actor && Some(op.plan) == r.planFor(w, op.spec, actor)
  {
  }

  /** A new operation is rejected, held, pending or begun as its plan predicts. */
  ghost predicate EnactedAs(a: World, w': World, u: Uid)
    requires Has(a, u)
  {
    && u in w'.book
    && match a.book[u].plan.predicted
       case Rejects => StageTold(a, w', u, Rejected, Unstated)
       case Holds => w' == a.(book := a.book[u := a.book[u].(phase := Held)])
       case Waits => w' == a.(book := a.book[u := a.book[u].(phase := Pending)])
       case Starts => Begun(w'.book[u]) || (a.book[u].spec.kind == Autonomy && StageTold(a, w', u, Succeeded, Unstated))
  }

  lemma {:induction false} Enacts(r: Rules, a: World, u: Uid)
    requires Good(r, a, 0) && Ledger(r, a) && u in a.book && Idle(a, u) && Ready(r.prefix, a.book[u])
    ensures EnactedAs(a, Enact(r, a, u), u)
  {
    match a.book[u].plan.predicted
    case Rejects => ConcludeTells(r, a, u, Rejected, Unstated);
    case Starts => StartBegins(r, a, u);
    case _ =>
  }

  /** In every reachable world a request changes nothing but the views, or makes one operation and does with it what its plan predicts. */
  lemma {:induction false} RequestDoes(r: Rules, w: World, req: Request, actor: User)
    requires Reachable(r, w)
    ensures Enabled(w, Asks(req, actor)) && Sane(w)
    ensures var w' := Step(r, w, Asks(req, actor));
            match Admit(r, w, req, actor)
            case None => w' == Changed(w)
            case Some(a) => exists x :: w' == Changed(x) && EnactedAs(a, x, a.n)
  {
    ReachableWhole(r, w);
    if Admit(r, w, req, actor).Some? {
      var a := Admit(r, w, req, actor).value;
      AdmittedGood(r, w, req, actor);
      AdmittedLedger(r, w, req, actor);
      Enacts(r, a, a.n);
      assert Step(r, w, Asks(req, actor)) == Changed(Enact(r, a, a.n));
    }
  }

  // ---- levels ------------------------------------------------------------------------------------------

  /** Returning to observe clears the pointer; leaving it takes up what runs, if anything was seen to; any other change of level, and any that does not succeed, leaves it. */
  lemma {:induction false} LevelMoves(r: Rules, w: World, u: Uid, outcome: Outcome, v: Verification)
    requires Sane(w) && u in w.book && w.book[u].spec.kind == Autonomy
    ensures var k := w.book[u].spec.stage; var w' := Conclude(r, w, u, outcome, v); var st := w.stages[k]; var spec := w.book[u].spec;
            && k in w'.stages
            && (outcome != Succeeded ==> w'.stages[k].pointer == st.pointer)
            && (outcome == Succeeded && spec.to == "observe" ==> w'.stages[k].pointer == "")
            && (outcome == Succeeded && spec.to != "observe" && spec.from == "observe" && st.observed.Some? ==> w'.stages[k].pointer == st.observed.value)
            && (outcome == Succeeded && spec.to != "observe" && (spec.from != "observe" || st.observed.None?) ==> w'.stages[k].pointer == st.pointer)
            && u in w'.book && (w'.stages[k].pointer != st.pointer ==> w'.book[u].before == st.pointer && w'.book[u].after == w'.stages[k].pointer)
  {
    var w1 := Recorded(r, Ended(r, w, u, outcome, v), u);
    assert SameButPlan(w1.book[u], Replan(r, w1, w1.listed).book[u]);
  }

  /** An automatic level, and a promote an agent or controller shipped that nobody answered for. */
  predicate MayLower(r: Rules, w: World, u: Uid)
    requires Has(w, u)
  {
    var op := w.book[u]; var level := w.stages[op.spec.stage].memory.level;
    && op.spec.kind == Promote && ClassOf(r, op.actor) != Human && op.answers == [] && r.automatic(level)
    && r.below(level) != "" && r.planFor(w, Lower(r, w, u), PROMOTER).Some?
  }

  /** One level down from where the Stage of `u` is. */
  function Lower(r: Rules, w: World, u: Uid): Spec
    requires Has(w, u)
  {
    var k := w.book[u].spec.stage;
    Spec(Autonomy, k, w.stages[k].memory.level, r.below(w.stages[k].memory.level), 0)
  }

  ghost predicate Makes(w: World, w': World, spec: Spec) {
    exists x :: x !in w.book && x in w'.book && w'.book[x].spec == spec
  }

  lemma {:induction false} LowerTakenIff(r: Rules, w: World, u: Uid)
    requires Sane(w) && u in w.book
    ensures var a := Admit(r, w, StepDownOf(r, w, u), PROMOTER);
            && (a.Some? <==> Lower(r, w, u).to != "" && r.planFor(w, Lower(r, w, u), PROMOTER).Some?)
            && (a.Some? ==> a.value.n !in w.book && a.value.book[a.value.n].spec == Lower(r, w, u))
  {
    RequestTakenIff(r, w, StepDownOf(r, w, u), PROMOTER);
  }

  lemma {:induction false} LowerMakes(r: Rules, w: World, u: Uid)
    requires Sane(w) && u in w.book && Admit(r, w, StepDownOf(r, w, u), PROMOTER).Some?
    ensures Makes(w, Propose(r, w, StepDownOf(r, w, u), PROMOTER), Lower(r, w, u))
  {
    var a := Admit(r, w, StepDownOf(r, w, u), PROMOTER).value;
    LowerTakenIff(r, w, u);
    assert a.n in Enact(r, a, a.n).book && Enact(r, a, a.n).book[a.n].spec == a.book[a.n].spec;
  }

  lemma {:induction false} StepDownIff(r: Rules, w: World, u: Uid, caused: bool)
    requires Sane(w) && u in w.book
    ensures var w' := StepDown(r, w, u, caused);
            && (caused && MayLower(r, w, u) <==> Makes(w, w', Lower(r, w, u)))
            && (!(caused && MayLower(r, w, u)) ==> w' == w)
  {
    LowerTakenIff(r, w, u);
    if caused && MayLower(r, w, u) {
      LowerMakes(r, w, u);
    }
  }

  /**
   In every reachable world, the step in which an operation fails its checks ends by lowering its
   Stage's level if and only if it may be lowered in the world its rollback leaves.
   */
  lemma {:induction false} FailureLowersIff(r: Rules, w: World, u: Uid) returns (w1: World)
    requires Reachable(r, w) && Enabled(w, Steps(ToVerify(u))) && r.check(Taken(w, ToVerify(u)), u) == Fail
    ensures var c := Failing(r, Taken(w, ToVerify(u)), u, Unverified);
            Sane(c) && u in c.book && w1 == if c.book[u].before == "" then c else Propose(r, c, Undo(c, u, true), PROMOTER)
    ensures Has(w1, u) && (MayLower(r, w1, u) <==> Makes(w1, Step(r, w, Steps(ToVerify(u))), Lower(r, w1, u)))
    ensures !MayLower(r, w1, u) ==> Step(r, w, Steps(ToVerify(u))) == Changed(w1)
  {
    ReachableWhole(r, w);
    var t := Taken(w, ToVerify(u));
    TakenStands(r, w, u);
    FailingGood(r, t, u, Unverified);
    var c := Failing(r, t, u, Unverified);
    var w2;
    w1, w2 := Unfold(r, c, u, true);
    FailRollsBack(r, t, u);
    VerifyStepIs(r, w, u);
    StepDownIff(r, w1, u, true);
  }

  // ---- what else happens --------------------------------------------------------------------------------

  /** A cancellation takes off the list an operation of that namespace that is listed, not applied and not concluded; any other changes nothing. */
  lemma {:induction false} CancelTakesIff(r: Rules, w: World, ns: string, u: Uid)
    requires Reachable(r, w)
    ensures Enabled(w, Cancels(ns, u))
    ensures var w' := Step(r, w, Cancels(ns, u));
            if u in w.listed && u in w.book && w.book[u].spec.stage.ns == ns && !w.book[u].applied && w.book[u].phase != Concluded
            then w' == Changed(w.(listed := w'.listed)) && u !in w'.listed && (forall x | x != u :: x in w'.listed <==> x in w.listed)
            else w' == w
  {
    ReachableWhole(r, w);
    WithoutDrops(w.listed, u);
    WithoutKeeps(w.listed, u);
  }

  lemma {:induction false} WithoutKeeps(us: seq<Uid>, u: Uid)
    ensures forall x | x != u :: x in Without(us, u) <==> x in us
  {
    if us != [] {
      WithoutKeeps(us[1..], u);
      assert us == [us[0]] + us[1..];
    }
  }

  /** A decision on what is not held, not listed or of another namespace changes nothing but the views. */
  lemma {:induction false} OnlyHeldIsDecided(r: Rules, w: World, ns: string, u: Uid, a: Answer)
    requires Reachable(r, w)
    requires !(u in w.listed && u in w.book && w.book[u].spec.stage.ns == ns && w.book[u].phase == Held)
    ensures Enabled(w, Decides(ns, u, a)) && Step(r, w, Decides(ns, u, a)) == Changed(w)
  {
    ReachableWhole(r, w);
  }

  /** A record signed by a stranger is counted and changes nothing else; the story's gap is recorded as one, with a stranger's beside it. */
  lemma {:induction false} StrangersOnlyCount(r: Rules, w: World, k: Key, x: Statement)
    requires Reachable(r, w) && k in w.streams && k in w.stages
    ensures Enabled(w, Strange(k, x))
    ensures var w' := Step(r, w, Strange(k, x));
            w' == w.(streams := w.streams[k := Stream(w.streams[k].recs, w.streams[k].unreadable + 1)])
    ensures Enabled(w, Gap(k)) ==>
              var w' := Step(r, w, Gap(k));
              && k in w'.streams && k in w'.stages && w'.streams[k].unreadable == w.streams[k].unreadable + 1
              && |w'.streams[k].recs| == |w.streams[k].recs| + 1 && w.streams[k].recs <= w'.streams[k].recs
              && w'.streams[k].recs[|w.streams[k].recs|].statement == Statement(|w.streams[k].recs| + 1, w.stages[k].head, 0, "", "", w.stages[k].num + 1)
              && w'.stages[k].num == w.stages[k].num + 1
              && w'.stages[k].ever == w.stages[k].ever && w'.stages[k].pointer == w.stages[k].pointer && w'.book == w.book
  {
    ReachableWhole(r, w);
  }
}
