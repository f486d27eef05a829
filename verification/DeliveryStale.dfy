/** A held change whose new plan is a rejection keeps asking its old question (examples/demo/source_delivery.go:838-840). */
module DeliveryStale {
  import opened Basics
  import opened Delivery
  import opened DeliveryPlans
  import opened DeliveryRuns
  import opened DeliveryUndo
  import opened Versions

  const THERE := Key("n", "t")

  /** Held for an order, with one team to ask. */
  const ORDERED := Plan(Holds, ["team"], true, true, "", 0)

  const REFUSED := Plan(Rejects, [], false, false, "", 0)

  /** A change of THERE waits while HERE is on `from` and is rejected once it moved; all checks pass. */
  function Moving(g: Registry, from: string): Rules {
    Rules(g, (w: World, spec: Spec, _) => if spec.stage == HERE then Some(GO)
                                          else if HERE in w.stages && w.stages[HERE].pointer == from then Some(ORDERED) else Some(REFUSED),
          (_, _) => Pass, (m, _, _, _) => m, (m, _) => m, _ => Human, "", l => l, _ => false, _ => "")
  }

  lemma {:induction false} MovingReadsStages(g: Registry, from: string)
    ensures PlansReadThat(Moving(g, from))
  {
  }

  function Both(from: string): World {
    World(map[HERE := Placed(from), THERE := Placed("")], map[], [], map[], 0, multiset{}, false, None)
  }

  function AskingThere(v: string): Event {
    Asks(Request(THERE, Promote, "", v, 0, "", false), "a")
  }

  function Waiting(v: string): Op {
    Op(Spec(Promote, THERE, "", v, 0), "a", ORDERED, Held, false, "", "", [], [], 0, 0, 0)
  }

  function OneHeld(from: string, v: string): World {
    Both(from).(book := map[1 := Waiting(v)], listed := [1], n := 1)
  }

  lemma {:induction false} AdmitsThere(g: Registry, from: string, v: string)
    requires Known(g, THERE.name, v)
    ensures var w, op := Both(from), Made(Waiting(v).spec, ORDERED);
            Sane(w) && Admit(Moving(g, from), w, AskingThere(v).req, "a") == Some(w.(book := map[1 := op], listed := [1], n := 1))
  {
    var w, op := Both(from), Made(Waiting(v).spec, ORDERED);
    AdmitIs(Moving(g, from), w, AskingThere(v).req, op.spec, ORDERED);
    assert w.book[1 := op] == map[1 := op] && w.listed + [1] == [1];
  }

  lemma {:induction false} AskedHolds(g: Registry, from: string, v: string)
    requires Known(g, THERE.name, v)
    ensures Enabled(Both(from), AskingThere(v)) && Step(Moving(g, from), Both(from), AskingThere(v)) == OneHeld(from, v)
  {
    AdmitsThere(g, from, v);
    var a := Both(from).(book := map[1 := Made(Waiting(v).spec, ORDERED)], listed := [1], n := 1);
    assert Rests(a, 1, Held).book == map[1 := Waiting(v)];
    assert Propose(Moving(g, from), Both(from), AskingThere(v).req, "a") == Rests(a, 1, Held);
  }

  function OneRunning(from: string, to: string, v: string): World {
    OneHeld(from, v).(book := map[1 := Waiting(v), 2 := Promoting(from, to)], listed := [1, 2], n := 2, tasks := multiset{ToApply(2)})
  }

  lemma {:induction false} AdmitsHere(g: Registry, from: string, to: string, v: string)
    requires Known(g, HERE.name, to)
    ensures var w, op := OneHeld(from, v), Made(Promoting(from, to).spec, GO);
            Sane(w) && Admit(Moving(g, from), w, Asking(to).req, "a") == Some(w.(book := map[1 := Waiting(v), 2 := op], listed := [1, 2], n := 2))
  {
    var w, op := OneHeld(from, v), Made(Promoting(from, to).spec, GO);
    AdmitIs(Moving(g, from), w, Asking(to).req, op.spec, GO);
    assert w.book[2 := op] == map[1 := Waiting(v), 2 := op] && w.listed + [2] == [1, 2];
  }

  lemma {:induction false} StartsHere(g: Registry, from: string, to: string, v: string, a: World)
    requires Sane(a) && a == OneHeld(from, v).(book := map[1 := Waiting(v), 2 := Made(Promoting(from, to).spec, GO)], listed := [1, 2], n := 2)
    ensures Enact(Moving(g, from), a, 2) == OneRunning(from, to, v)
  {
    assert Started(a, 2).book == map[1 := Waiting(v), 2 := Promoting(from, to)];
    assert Start(Moving(g, from), a, 2).tasks == multiset{ToApply(2)};
  }

  lemma {:induction false} AskedStarts(g: Registry, from: string, to: string, v: string)
    requires Known(g, HERE.name, to)
    ensures Enabled(OneHeld(from, v), Asking(to)) && Step(Moving(g, from), OneHeld(from, v), Asking(to)) == OneRunning(from, to, v)
  {
    AdmitsHere(g, from, to, v);
    var a := OneHeld(from, v).(book := map[1 := Waiting(v), 2 := Made(Promoting(from, to).spec, GO)], listed := [1, 2], n := 2);
    assert Admit(Moving(g, from), OneHeld(from, v), Asking(to).req, "a") == Some(a);
    StartsHere(g, from, to, v, a);
    assert Propose(Moving(g, from), OneHeld(from, v), Asking(to).req, "a") == OneRunning(from, to, v);
  }

  /** The second is released, the first still held. */
  predicate Released(from: string, to: string, v: string, w: World) {
    && HERE in w.stages && w.stages[HERE].pointer == to && w.tasks == multiset{ToVerify(2)} && w.listed == [1, 2]
    && w.book.Keys == {1, 2} && w.book[1] == Waiting(v) && w.book[2].spec == Spec(Promote, HERE, from, to, 0) && !w.immediate
  }

  lemma {:induction false} AppliesSecond(g: Registry, from: string, to: string, v: string)
    ensures Enabled(OneRunning(from, to, v), Steps(ToApply(2)))
    ensures Released(from, to, v, Step(Moving(g, from), OneRunning(from, to, v), Steps(ToApply(2))))
  {
    var w := OneRunning(from, to, v);
    assert Taken(w, ToApply(2)).tasks == multiset{};
  }

  lemma {:induction false} BothBegin(g: Registry, from: string)
    requires Known(g, HERE.name, from)
    ensures Begins(Moving(g, from), Both(from))
  {
  }

  lemma {:induction false} ThreeSteps(r: Rules, w0: World, w1: World, w2: World, w3: World, a: Event, b: Event, c: Event)
    requires Enabled(w0, a) && Step(r, w0, a) == w1 && Enabled(w1, b) && Step(r, w1, b) == w2 && Enabled(w2, c) && Step(r, w2, c) == w3
    ensures Run(r, w0, [a, b, c], w3)
  {
    assert [c][1..] == [] && [b, c][1..] == [c] && [a, b, c][1..] == [b, c];
    assert Run(r, w3, [], w3) && Run(r, w2, [c], w3) && Run(r, w1, [b, c], w3);
  }

  lemma {:induction false} Reaches(g: Registry, from: string, to: string, v: string) returns (w: World)
    requires Known(g, HERE.name, from) && Known(g, HERE.name, to) && Known(g, THERE.name, v)
    ensures Begins(Moving(g, from), Both(from)) && Run(Moving(g, from), Both(from), [AskingThere(v), Asking(to), Steps(ToApply(2))], w)
    ensures Released(from, to, v, w)
  {
    BothBegin(g, from);
    AskedHolds(g, from, v);
    AskedStarts(g, from, to, v);
    AppliesSecond(g, from, to, v);
    w := Step(Moving(g, from), OneRunning(from, to, v), Steps(ToApply(2)));
    ThreeSteps(Moving(g, from), Both(from), OneHeld(from, v), OneRunning(from, to, v), w, AskingThere(v), Asking(to), Steps(ToApply(2)));
  }

  /** Concluding anything but a level change leaves the pointer where it is. */
  lemma {:induction false} PointerStays(r: Rules, w: World, u: Uid, outcome: Outcome, v: Verification)
    requires Sane(w) && u in w.book && w.book[u].spec.kind != Autonomy
    ensures var k := w.book[u].spec.stage;
            k in Conclude(r, w, u, outcome, v).stages && Conclude(r, w, u, outcome, v).stages[k].pointer == w.stages[k].pointer
  {
  }

  lemma {:induction false} OnlyRejected(g: Registry, from: string, v: string, w: World)
    requires HERE in w.stages && w.stages[HERE].pointer != from
    ensures !StillStands(Moving(g, from), w, Waiting(v))
  {
  }

  lemma {:induction false} NoLongerStands(g: Registry, from: string, to: string, v: string, w: World)
    requires Released(from, to, v, w) && Enabled(w, Steps(ToVerify(2))) && from != to
    ensures !StillStands(Moving(g, from), Step(Moving(g, from), w, Steps(ToVerify(2))), Waiting(v))
  {
    PassConcludes(Moving(g, from), w, 2);
    PointerStays(Moving(g, from), Taken(w, ToVerify(2)), 2, Succeeded, Verified);
    OnlyRejected(g, from, v, Step(Moving(g, from), w, Steps(ToVerify(2))));
  }

  /**
   A change held until HERE moves, whose new plan is a rejection: after HERE moved and passed its
   checks it is still held for the order, with a plan that is not the one it would get now.
   */
  lemma {:induction false} StaleQuestionStays(g: Registry, from: string, to: string, v: string) returns (w: World)
    requires Known(g, HERE.name, from) && Known(g, HERE.name, to) && Known(g, THERE.name, v) && from != to
    ensures PlansReadThat(Moving(g, from)) && Begins(Moving(g, from), Both(from))
    ensures Run(Moving(g, from), Both(from), [AskingThere(v), Asking(to), Steps(ToApply(2))], w) && Enabled(w, Steps(ToVerify(2)))
    ensures var w' := Step(Moving(g, from), w, Steps(ToVerify(2)));
            1 in w'.book && WaitsForOrder(w'.book[1]) && !AsksNow(Moving(g, from), w', w'.book[1])
  {
    MovingReadsStages(g, from);
    w := Reaches(g, from, to, v);
    assert Reachable(Moving(g, from), w);
    StaleAfter(g, from, to, v, w);
  }

  lemma {:induction false} StaleAfter(g: Registry, from: string, to: string, v: string, w: World)
    requires PlansReadThat(Moving(g, from)) && Reachable(Moving(g, from), w) && Released(from, to, v, w) && from != to
    ensures Enabled(w, Steps(ToVerify(2)))
    ensures var w' := Step(Moving(g, from), w, Steps(ToVerify(2)));
            1 in w'.book && WaitsForOrder(w'.book[1]) && !AsksNow(Moving(g, from), w', w'.book[1])
  {
    ReachableSane(Moving(g, from), w);
    PassReplans(Moving(g, from), w, 2, 1);
    NoLongerStands(g, from, to, v, w);
  }

  lemma {:induction false} ReachableSane(r: Rules, w: World)
    requires Reachable(r, w)
    ensures Sane(w)
  {
    ReachableWhole(r, w);
  }
}
