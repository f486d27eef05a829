/**
 The runner of the demo's guided tour (examples/demo/tour.js): the step it is on, the gate it
 watches on each animation frame and the three ways it moves. The page it draws on is left out;
 the gate's answer and the clock come in with each event.
 */
module Tour {
  // milliseconds
  const SETTLE := 750
  const CONFIRM := 350
  const SKIP_WAIT := 6000

  datatype Stop = Stop(gated: bool, hold: bool, observe: bool)

  /** The runner's variables and the state of its two forward buttons; zero times are unset. */
  datatype State = State(tour: seq<Stop>, step: nat, running: bool, visit: int, leftVisit: int,
                         armed: bool, forward: bool, openSince: int, confirmAt: int, skipUntil: int, lastInput: int,
                         nextHidden: bool, skipHidden: bool, skipDisabled: bool)

  const LOADED := State([], 0, false, 0, -1, false, false, 0, 0, 0, 0, true, true, true)

  predicate Shows(s: State) {
    s.running ==> s.step < |s.tour|
  }

  function At(s: State): Stop
    requires Shows(s) && s.running
  {
    s.tour[s.step]
  }

  function GoStep(s: State, i: int): (r: State)
    ensures Shows(s) ==> Shows(r)
  {
    if i < 0 || i >= |s.tour| || !s.running then s
    else s.(forward := i > s.step, step := i, visit := s.visit + 1, armed := false, openSince := 0, confirmAt := 0,
            nextHidden := s.tour[i].gated, skipHidden := !s.tour[i].gated, skipUntil := 0, skipDisabled := false)
  }

  function Advance(s: State): (r: State)
    ensures Shows(s) ==> Shows(r)
  {
    if !s.running || s.leftVisit == s.visit then s
    else GoStep(s.(leftVisit := s.visit), s.step + 1)
  }

  function SkipStep(s: State, now: int): State {
    if s.skipUntil != 0 then s else s.(skipUntil := now + SKIP_WAIT, skipDisabled := true)
  }

  /** The gate's answer, and whether it has settled by now. */
  function Observe(s: State, now: int, open: bool): State
    requires Shows(s) && s.running
  {
    var s1 := if !open then s.(armed := true, openSince := 0, confirmAt := 0)
              else if (s.armed || s.forward || At(s).observe) && s.openSince == 0 then s.(openSince := now) else s;
    if s1.openSince != 0 && s1.confirmAt == 0 && now - s1.openSince >= SETTLE && now - s1.lastInput >= SETTLE
    then s1.(confirmAt := now) else s1
  }

  function Frame(s: State, now: int, open: bool): (r: State)
    requires Shows(s)
    ensures Shows(r)
  {
    if !s.running || !At(s).gated then s
    else
      var s1 := Observe(s, now, open);
      if s1.confirmAt != 0 && At(s).hold then
        if s1.nextHidden then s1.(nextHidden := false, skipHidden := true, skipUntil := 0) else s1
      else if s1.confirmAt != 0 && now - s1.confirmAt >= CONFIRM then Advance(s1)
      else if s1.skipUntil != 0 && now > s1.skipUntil then Advance(s1)
      else s1
  }

  /** An empty tour starts too, but shows no step. */
  function Start(s: State, tour: seq<Stop>): (r: State)
    ensures Shows(s) && |tour| > 0 ==> Shows(r)
  {
    if s.running then s else GoStep(s.(tour := tour, running := true), 0)
  }

  function Exit(s: State): State {
    if !s.running then s
    else s.(running := false, skipUntil := 0, armed := false, forward := false, openSince := 0, confirmAt := 0)
  }

  function ClickNext(s: State): (r: State)
    ensures Shows(s) ==> Shows(r)
  {
    if s.step == |s.tour| - 1 then Exit(s) else Advance(s)
  }

  // ---- the object --------------------------------------------------------------------------------

  class Runner {
    var tour: seq<Stop>
    var step: nat
    var running: bool
    var visit: int
    var leftVisit: int
    var armed: bool
    var forward: bool
    var openSince: int
    var confirmAt: int
    var skipUntil: int
    var lastInput: int
    var nextHidden: bool
    var skipHidden: bool
    var skipDisabled: bool

    function Model(): State
      reads this
    {
      State(tour, step, running, visit, leftVisit, armed, forward, openSince, confirmAt, skipUntil, lastInput,
            nextHidden, skipHidden, skipDisabled)
    }

    constructor ()
      ensures Model() == LOADED
    {
      tour, step, running, visit, leftVisit := [], 0, false, 0, -1;
      armed, forward, openSince, confirmAt, skipUntil, lastInput := false, false, 0, 0, 0, 0;
      nextHidden, skipHidden, skipDisabled := true, true, true;
    }

    /** A step's forward buttons as it opens: Next, or Skip while its gate is shut. */
    method ShowButtons(gated: bool)
      modifies `nextHidden, `skipHidden, `skipUntil, `skipDisabled
      ensures nextHidden == gated && skipHidden == !gated && skipUntil == 0 && !skipDisabled
    {
      nextHidden, skipHidden, skipUntil, skipDisabled := gated, !gated, 0, false;
    }

    method GoTo(i: int)
      modifies this
      ensures Model() == GoStep(old(Model()), i)
    {
      if i < 0 || i >= |tour| || !running {
        return;
      }
      forward := i > step;
      step := i;
      visit := visit + 1;
      armed, openSince, confirmAt := false, 0, 0;
      ShowButtons(tour[i].gated);
    }

    method MoveOn()
      modifies this
      ensures Model() == Advance(old(Model()))
    {
      if !running || leftVisit == visit {
        return;
      }
      leftVisit := visit;
      GoTo(step + 1);
    }

    method Skip(now: int)
      modifies this
      ensures Model() == SkipStep(old(Model()), now)
    {
      if skipUntil != 0 {
        return;
      }
      skipUntil := now + SKIP_WAIT;
      skipDisabled := true;
    }

    method Watch(now: int, open: bool)
      requires Shows(Model()) && running
      modifies this
      ensures Model() == Observe(old(Model()), now, open)
    {
      if !open {
        armed := true;
        openSince := 0;
        confirmAt := 0;
      } else if (armed || forward || tour[step].observe) && openSince == 0 {
        openSince := now;
      }
      if openSince != 0 && confirmAt == 0 && now - openSince >= SETTLE && now - lastInput >= SETTLE {
        confirmAt := now;
      }
    }

    method Tick(now: int, open: bool)
      requires Shows(Model())
      modifies this
      ensures Model() == Frame(old(Model()), now, open)
    {
      if !running {
        return;
      }
      var stop := tour[step];
      if !stop.gated {
        return;
      }
      Watch(now, open);
      if confirmAt != 0 && stop.hold {
        if nextHidden {
          nextHidden := false;
          skipHidden := true;
          skipUntil := 0;
        }
        return;
      }
      if confirmAt != 0 && now - confirmAt >= CONFIRM {
        MoveOn();
        return;
      }
      if skipUntil != 0 && now > skipUntil {
        MoveOn();
      }
    }

    method Begin(tour: seq<Stop>)
      modifies this
      ensures Model() == Start(old(Model()), tour)
    {
      if running {
        return;
      }
      this.tour := tour;
      running := true;
      GoTo(0);
    }

    method Leave()
      modifies this
      ensures Model() == Exit(old(Model()))
    {
      if !running {
        return;
      }
      running := false;
      skipUntil := 0;
      armed := false;
      forward := false;
      openSince := 0;
      confirmAt := 0;
    }

    method PressNext()
      modifies this
      ensures Model() == ClickNext(old(Model()))
    {
      if step == |tour| - 1 {
        Leave();
      } else {
        MoveOn();
      }
    }
  }

  // ---- the controls ---------------------------------------------------------------------------------

  /** A tour begins at its first step, on a new visit, unless one is running. */
  lemma {:induction false} BeginsAtFirst(s: State, tour: seq<Stop>)
    requires |tour| > 0
    ensures var r := Start(s, tour);
            if s.running then r == s
            else r.running && r.tour == tour && r.step == 0 && r.visit == s.visit + 1 && r.nextHidden == tour[0].gated && r.skipHidden == !tour[0].gated
  {
  }

  /** Next on the last step ends the tour where it is; before it, it goes on by one, once a visit. */
  lemma {:induction false} NextGoesOn(s: State)
    requires Shows(s) && s.running
    ensures var r := ClickNext(s);
            if s.step + 1 == |s.tour| then !r.running && r.step == s.step && r.skipUntil == 0
            else if s.leftVisit == s.visit then r == s
            else r.running && r.step == s.step + 1 && r.visit == s.visit + 1 && r.leftVisit == s.visit && r.forward
  {
  }

  /** Back goes one back, except from the first step, and does not count as arriving forward. */
  lemma {:induction false} BackGoesBack(s: State)
    requires Shows(s) && s.running
    ensures var r := GoStep(s, s.step - 1);
            if s.step == 0 then r == s else r.running && r.step == s.step - 1 && r.visit == s.visit + 1 && !r.forward && r.leftVisit == s.leftVisit
  {
  }

  /** Leaving ends the tour where it is. */
  lemma {:induction false} LeaveEnds(s: State)
    ensures !Exit(s).running && Exit(s).step == s.step && Exit(s).tour == s.tour && (s.running ==> Exit(s).openSince == 0 && Exit(s).confirmAt == 0 && Exit(s).skipUntil == 0)
  {
  }

  /** A step with a gate not yet seen open, and nothing pending. */
  predicate Waiting(s: State) {
    Shows(s) && s.running && At(s).gated && s.openSince == 0 && s.confirmAt == 0 && s.skipUntil == 0 && s.leftVisit != s.visit
  }

  /**
   A gate that is news, seen open when it settles and when it is confirmed, with no input while it
   settles: a step that does not hold moves on by one, if there is one; a holding one shows Next.
   */
  lemma {:induction false} OpenGateMoves(s: State, t0: int, t1: int, t2: int)
    requires Waiting(s) && (s.armed || s.forward || At(s).observe) && 0 < t0 <= t1 - SETTLE && s.lastInput <= t1 - SETTLE && t1 <= t2 - CONFIRM
    requires s.nextHidden
    ensures var r := Frame(Frame(Frame(s, t0, true), t1, true), t2, true);
            if At(s).hold then r.step == s.step && r.visit == s.visit && !r.nextHidden && r.skipHidden
            else if s.step + 1 < |s.tour| then r.step == s.step + 1 && r.visit == s.visit + 1
            else r.step == s.step && r.visit == s.visit
  {
    var s1 := Frame(s, t0, true);
    assert s1 == s.(openSince := t0);
    var s2 := Frame(s1, t1, true);
    if At(s).hold {
      assert s2 == s1.(confirmAt := t1, nextHidden := false, skipHidden := true, skipUntil := 0);
    } else {
      assert s2 == s1.(confirmAt := t1);
    }
  }

  /** A gate seen shut is news from then on, and nothing counts as settled. */
  lemma {:induction false} ShutGateArms(s: State, now: int)
    requires Shows(s) && s.running && At(s).gated && s.skipUntil == 0
    ensures var r := Frame(s, now, false); r.armed && r.openSince == 0 && r.confirmAt == 0 && r.step == s.step && r.visit == s.visit
  {
  }
}
