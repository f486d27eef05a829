/** What planning held changes again achieves (examples/demo/source_delivery.go:830-848). */
module DeliveryPlans {
  import opened Basics
  import opened Delivery
  import opened DeliveryLedger
  import opened DeliveryLife
  import opened DeliveryRuns

  /** All a plan reads: the Stages and, for the level a Stage is proposed, the listed operation that last moved it. */
  ghost predicate SeesSame(w: World, w': World) {
    && w'.stages == w.stages && w'.listed == w.listed && w'.book.Keys == w.book.Keys
    && forall u | u in w.book && w.book[u].applied :: w'.book[u] == w.book[u]
  }

  /** The operation a Stage names as its last was applied, as it is in every run. */
  predicate LastWasApplied(w: World) {
    forall k | k in w.stages && w.stages[k].lastOp in w.book :: w.book[w.stages[k].lastOp].applied
  }

  /** Plans read no more than that. */
  ghost predicate PlansReadThat(r: Rules) {
    forall w: World, w': World, spec, actor | SeesSame(w, w') && LastWasApplied(w) :: r.planFor(w, spec, actor) == r.planFor(w', spec, actor)
  }

  /** The plan the change would get in `w`. */
  function Anew(r: Rules, w: World, op: Op): Option<Plan> {
    match PlanOf(r, w, Request(op.spec.stage, op.spec.kind, op.spec.from, op.spec.to, 0, "", false), op.actor)
    case None => None
    case Some(p) => Some(p.plan)
  }

  /** It asks what its plan in `w` asks, or no longer waits for an order. */
  predicate AsksNow(r: Rules, w: World, op: Op) {
    !op.plan.ordered || Anew(r, w, op) == Some(op.plan)
  }

  /** It can be planned, and not only to be rejected. */
  predicate StillStands(r: Rules, w: World, op: Op) {
    Anew(r, w, op).Some? && Anew(r, w, op).value.predicted != Rejects
  }

  /** Released to nobody yet, and waiting for another change to go first. */
  predicate WaitsForOrder(op: Op) {
    op.phase == Held && !op.applied && op.plan.ordered
  }

  /** What going over `op` in `w` leaves: its new plan, or the old one with no order to wait for; nothing else about it changes. */
  predicate GoneOver(r: Rules, w: World, op: Op, op': Op) {
    if !WaitsForOrder(op) || !StillStands(r, w, op) then op' == op
    else if Anew(r, w, op).value.human then op' == op.(plan := Anew(r, w, op).value)
    else op' == op.(plan := op.plan.(ordered := false))
  }

  /** Planning a held change again brings it up to date exactly when it still stands; otherwise it keeps its old plan. */
  lemma {:induction false} ReplannedIff(r: Rules, w: World, op: Op)
    ensures GoneOver(r, w, op, Replanned(r, w, op))
    ensures WaitsForOrder(op) && op.plan.predicted != Rejects ==> (AsksNow(r, w, Replanned(r, w, op)) <==> StillStands(r, w, op))
  {
  }

  lemma {:induction false} SamePlan(r: Rules, w: World, w': World, op: Op)
    requires PlansReadThat(r) && SeesSame(w, w') && LastWasApplied(w) && 0 !in w.book
    ensures Anew(r, w, op) == Anew(r, w', op) && Replanned(r, w, op) == Replanned(r, w', op)
  {
    if op.spec.stage in w.stages {
      var req := Request(op.spec.stage, op.spec.kind, op.spec.from, op.spec.to, 0, "", false);
      var spec := SpecFor(r, w, req);
      assert spec == SpecFor(r, w', req);
      if spec.Some? {
        assert r.planFor(w, spec.value, op.actor) == r.planFor(w', spec.value, op.actor);
      }
    }
  }

  /** Going over held changes leaves all a plan reads as it was. */
  lemma {:induction false} ReplanIsUnseen(r: Rules, w: World, us: seq<Uid>)
    requires forall i | 0 <= i < |us| :: us[i] in w.book
    ensures SeesSame(w, Replan(r, w, us))
    decreases |us|
  {
    if us != [] {
      var w1 := w.(book := w.book[us[0] := Replanned(r, w, w.book[us[0]])]);
      ReplanIsUnseen(r, w1, us[1..]);
      assert SeesSame(w, w1);
    }
  }

  /** In whatever order they are gone over, each change ends as planning it again once, in the world they end in, leaves it. */
  lemma {:induction false} ReplanIsCurrent(r: Rules, w: World, us: seq<Uid>, u: Uid)
    requires PlansReadThat(r) && LastWasApplied(w) && 0 !in w.book && u in w.book
    requires (forall i | 0 <= i < |us| :: us[i] in w.book) && forall i, j | 0 <= i < j < |us| :: us[i] != us[j]
    ensures var w' := Replan(r, w, us);
            u in w'.book && w'.book[u] == if u in us then Replanned(r, w', w.book[u]) else w.book[u]
    decreases |us|
  {
    if us != [] {
      var w1 := w.(book := w.book[us[0] := Replanned(r, w, w.book[us[0]])]);
      assert LastWasApplied(w1);
      ReplanIsCurrent(r, w1, us[1..], u);
      var w' := Replan(r, w, us);
      assert w' == Replan(r, w1, us[1..]);
      if u == us[0] {
        assert u !in us[1..];
        ReplanIsUnseen(r, w, us);
        SamePlan(r, w, w', w.book[u]);
      } else {
        assert w1.book[u] == w.book[u];
        assert u in us <==> u in us[1..];
      }
    }
  }

  /** After any conclusion a listed change that was held for an order asks what it asks now, or no longer waits, exactly when it still stands. */
  lemma {:induction false} ConcludeReplans(r: Rules, w: World, u: Uid, outcome: Outcome, v: Verification, x: Uid)
    requires Sane(w) && u in w.book && PlansReadThat(r) && LastWasApplied(w) && x in w.listed && x != u
    requires forall i, j | 0 <= i < j < |w.listed| :: w.listed[i] != w.listed[j]
    ensures var w' := Conclude(r, w, u, outcome, v);
            && x in w'.book && GoneOver(r, w', w.book[x], w'.book[x])
            && (WaitsForOrder(w.book[x]) && w.book[x].plan.predicted != Rejects ==> (AsksNow(r, w', w'.book[x]) <==> StillStands(r, w', w.book[x])))
  {
    var w1 := Recorded(r, Ended(r, w, u, outcome, v), u);
    assert 0 !in w.book && w1.book[x] == w.book[x];
    EndedLastApplied(r, w, u, outcome, v);
    ReplanIsCurrent(r, w1, w1.listed, x);
    ReplannedIff(r, Conclude(r, w, u, outcome, v), w.book[x]);
  }

  lemma {:induction false} EndedLastApplied(r: Rules, w: World, u: Uid, outcome: Outcome, v: Verification)
    requires Has(w, u) && LastWasApplied(w)
    ensures LastWasApplied(Recorded(r, Ended(r, w, u, outcome, v), u))
  {
  }

  lemma {:induction false} LastsApplied(r: Rules, w: World)
    requires Ledger(r, w) && Sane(w)
    ensures LastWasApplied(w) && 0 !in w.book
  {
    forall k | k in w.stages && w.stages[k].lastOp in w.book ensures w.book[w.stages[k].lastOp].applied {
      assert Keeps(r, w.book, k, w.stages[k]);
    }
  }

  /**
   In every run, the step in which an operation passes its checks brings every other listed change
   that was held for an order up to date, if and only if it can still be planned and not only to be
   rejected in the world the step ends in; any other keeps its old plan and question.
   */
  lemma {:induction false} PassReplans(r: Rules, w: World, u: Uid, x: Uid)
    requires Reachable(r, w) && PlansReadThat(r) && Enabled(w, Steps(ToVerify(u))) && r.check(Taken(w, ToVerify(u)), u) == Pass
    requires x in w.listed && x in w.book && x != u
    ensures var w' := Step(r, w, Steps(ToVerify(u)));
            && x in w'.book && GoneOver(r, w', w.book[x], w'.book[x])
            && (WaitsForOrder(w.book[x]) ==> (AsksNow(r, w', w'.book[x]) <==> StillStands(r, w', w.book[x])))
  {
    ReachableWhole(r, w);
    StepWhole(r, w, Steps(ToVerify(u)));
    LastsApplied(r, w);
    LastsApplied(r, Step(r, w, Steps(ToVerify(u))));
    assert Fine(r.prefix, w.book, w.tasks, x);
    PassConcludes(r, w, u);
    ConcludeReplans(r, Taken(w, ToVerify(u)), u, Succeeded, Verified, x);
    ViewsUnseen(r, Conclude(r, Taken(w, ToVerify(u)), u, Succeeded, Verified), w.book[x], x);
  }

  /** Dropping the views changes nothing a plan reads. */
  lemma {:induction false} ViewsUnseen(r: Rules, c: World, op: Op, x: Uid)
    requires PlansReadThat(r) && LastWasApplied(Changed(c)) && 0 !in c.book && x in c.book
    ensures Anew(r, Changed(c), op) == Anew(r, c, op) && Anew(r, Changed(c), c.book[x]) == Anew(r, c, c.book[x])
  {
    SamePlan(r, Changed(c), c, op);
    SamePlan(r, Changed(c), c, c.book[x]);
  }
}
