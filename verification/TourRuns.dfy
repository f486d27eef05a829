/** Every sequence of frames, inputs and button presses a tour can see (examples/demo/tour.js). */
module TourRuns {
  import opened Tour

  datatype Event =
    | Tick(now: int, open: bool)
    | Input(now: int)
    | Skip(now: int)
    | Next
    | Back
    | Begin(tour: seq<Stop>)
    | Leave

  /**
   The runner and what happened so far: `past[since..]` is the current visit to a step, `spent`
   the visits that handed off, `clock` the last time anything was timed.
   */
  datatype World = World(tour: State, past: seq<Event>, since: nat, spent: seq<int>, clock: int)

  const OPENED := World(LOADED, [], 0, [], 0)

  predicate Timed(e: Event) {
    e.Tick? || e.Input? || e.Skip?
  }

  /** The clock does not go back; a button is pressed only while it is there and enabled. */
  predicate Enabled(w: World, e: Event) {
    && (Timed(e) ==> e.now > 0 && e.now >= w.clock)
    && match e
       case Tick(_, _) => Shows(w.tour)
       case Input(_) => w.tour.running
       case Skip(_) => w.tour.running && !w.tour.skipHidden && !w.tour.skipDisabled
       case Next => w.tour.running && !w.tour.nextHidden
       case Back => w.tour.running && w.tour.step > 0
       case Begin(tour) => |tour| > 0
       case Leave => true
  }

  function React(s: State, e: Event): State
    requires e.Tick? ==> Shows(s)
    requires e.Begin? ==> |e.tour| > 0
  {
    match e
    case Tick(now, open) => Frame(s, now, open)
    case Input(now) => s.(lastInput := now)
    case Skip(now) => SkipStep(s, now)
    case Next => ClickNext(s)
    case Back => GoStep(s, s.step - 1)
    case Begin(tour) => Start(s, tour)
    case Leave => Exit(s)
  }

  function Step(w: World, e: Event): World
    requires Enabled(w, e)
  {
    var s' := React(w.tour, e);
    var past' := w.past + [e];
    World(s', past', if s'.visit != w.tour.visit then |past'| else w.since,
          if s'.leftVisit != w.tour.leftVisit then w.spent + [s'.leftVisit] else w.spent,
          if Timed(e) then e.now else w.clock)
  }

  ghost predicate Run(w: World, es: seq<Event>, w': World)
    decreases |es|
  {
    if es == [] then w' == w
    else Enabled(w, es[0]) && Run(Step(w, es[0]), es[1..], w')
  }

  // ---- what the past says ------------------------------------------------------------------------

  /** The gate was seen open at `i` and on every frame from there. */
  ghost predicate OpenFrom(past: seq<Event>, i: nat) {
    i < |past| && past[i].Tick? && forall k | i <= k < |past| && past[k].Tick? :: past[k].open
  }

  /** The open gate is news: it was seen closed before on this visit, or the visit came by moving forward, or the step only observes. */
  ghost predicate IsNews(past: seq<Event>, since: nat, i: nat, forward: bool, observe: bool)
    requires i < |past|
  {
    forward || observe || exists k :: since <= k < i && past[k].Tick? && !past[k].open
  }

  /** Frame `c` came after a quiet settling time: the gate open since `i`, and no input within it. */
  ghost predicate SettledAt(past: seq<Event>, i: nat, c: nat) {
    && i <= c < |past| && past[i].Tick? && past[c].Tick? && past[c].now - past[i].now >= SETTLE
    && forall k | 0 <= k < c && past[k].Input? :: past[c].now - past[k].now >= SETTLE
  }

  ghost predicate SkippedAt(past: seq<Event>, since: nat, k: nat, deadline: int) {
    since <= k < |past| && past[k].Skip? && past[k].now + SKIP_WAIT == deadline
  }

  // ---- what every step keeps -------------------------------------------------------------------

  ghost predicate OpenedAt(past: seq<Event>, since: nat, s: State, observe: bool, i: nat) {
    since <= i && OpenFrom(past, i) && past[i].now == s.openSince && IsNews(past, since, i, s.forward, observe)
  }

  ghost predicate ConfirmedAt(past: seq<Event>, since: nat, s: State, observe: bool, i: nat, c: nat) {
    OpenedAt(past, since, s, observe, i) && SettledAt(past, i, c) && past[c].now == s.confirmAt
  }

  ghost predicate Opened(past: seq<Event>, since: nat, s: State, observe: bool) {
    s.openSince != 0 ==> exists i :: OpenedAt(past, since, s, observe, i)
  }

  ghost predicate Settled(past: seq<Event>, since: nat, s: State, observe: bool) {
    s.confirmAt != 0 ==> s.openSince != 0 && exists i, c :: ConfirmedAt(past, since, s, observe, i, c)
  }

  /** Whether the step was armed on this visit is what its frames say. */
  ghost predicate Armed(past: seq<Event>, since: nat, armed: bool) {
    armed ==> exists k :: since <= k < |past| && past[k].Tick? && !past[k].open
  }

  ghost predicate Skipped(past: seq<Event>, since: nat, s: State) {
    s.skipUntil != 0 ==> exists k :: SkippedAt(past, since, k, s.skipUntil)
  }

  ghost predicate Inputs(past: seq<Event>, s: State, clock: int) {
    s.lastInput <= clock && forall k | 0 <= k < |past| && past[k].Input? :: past[k].now <= s.lastInput
  }

  /** Only a holding step shows Continue on a gated step, and then neither skip nor its deadline is left. */
  predicate Buttons(s: State) {
    s.running && s.step < |s.tour| && At(s).gated ==>
      && (!s.nextHidden ==> At(s).hold && s.skipHidden && s.skipUntil == 0)
      && (s.confirmAt != 0 && At(s).hold ==> !s.nextHidden)
  }

  ghost predicate Visits(s: State, spent: seq<int>) {
    && s.leftVisit <= s.visit
    && (s.leftVisit == s.visit && s.running ==> s.step + 1 == |s.tour|)
    && (forall k | 0 <= k < |spent| :: spent[k] <= s.leftVisit)
    && (forall j, k | 0 <= j < k < |spent| :: spent[j] < spent[k])
  }

  function Observes(s: State): bool {
    s.running && s.step < |s.tour| && s.tour[s.step].observe
  }

  /** What needs nothing of the past. */
  predicate Sound(s: State) {
    && Shows(s)
    && (!s.running ==> s.openSince == 0 && s.confirmAt == 0 && s.skipUntil == 0)
    && (s.openSince != 0 ==> s.running && At(s).gated)
    && Buttons(s)
  }

  ghost predicate Times(past: seq<Event>, since: nat, s: State) {
    && Opened(past, since, s, Observes(s))
    && Settled(past, since, s, Observes(s))
    && Armed(past, since, s.armed)
    && Skipped(past, since, s)
  }

  ghost predicate Inv(w: World) {
    && Sound(w.tour) && w.since <= |w.past| && 0 <= w.clock
    && Times(w.past, w.since, w.tour)
    && Inputs(w.past, w.tour, w.clock)
    && Visits(w.tour, w.spent)
  }

  lemma {:induction false} OpenedGrows(past: seq<Event>, since: nat, s: State, s': State, observe: bool, e: Event, i: nat)
    requires OpenedAt(past, since, s, observe, i) && (e.Tick? ==> e.open)
    requires s'.openSince == s.openSince && s'.forward == s.forward
    ensures OpenedAt(past + [e], since, s', observe, i)
  {
    if !s.forward && !observe {
      var k :| since <= k < i && past[k].Tick? && !past[k].open;
      assert (past + [e])[k] == past[k];
    }
  }

  lemma {:induction false} ConfirmedGrows(past: seq<Event>, since: nat, s: State, s': State, observe: bool, e: Event, i: nat, c: nat)
    requires ConfirmedAt(past, since, s, observe, i, c) && (e.Tick? ==> e.open)
    requires s'.openSince == s.openSince && s'.forward == s.forward && s'.confirmAt == s.confirmAt
    ensures ConfirmedAt(past + [e], since, s', observe, i, c)
  {
    OpenedGrows(past, since, s, s', observe, e, i);
  }

  /** Anything but a frame leaves what the gate showed as it was, or starts again. */
  predicate Untouched(s: State, s': State) {
    || (s'.openSince == 0 && s'.confirmAt == 0)
    || (s'.openSince == s.openSince && s'.confirmAt == s.confirmAt && s'.forward == s.forward)
  }

  lemma {:induction false} TimesGrow(past: seq<Event>, since: nat, s: State, s': State, observe: bool, e: Event)
    requires Opened(past, since, s, observe) && Settled(past, since, s, observe)
    requires Untouched(s, s') && (e.Tick? ==> e.open)
    ensures Opened(past + [e], since, s', observe) && Settled(past + [e], since, s', observe)
  {
    if s'.openSince != 0 {
      var i :| OpenedAt(past, since, s, observe, i);
      OpenedGrows(past, since, s, s', observe, e, i);
      if s'.confirmAt != 0 {
        var i, c :| ConfirmedAt(past, since, s, observe, i, c);
        ConfirmedGrows(past, since, s, s', observe, e, i, c);
      }
    }
  }

  lemma {:induction false} ObserveOpened(past: seq<Event>, since: nat, s: State, now: int, open: bool)
    requires Shows(s) && s.running && since <= |past| && now > 0 && Armed(past, since, s.armed)
    requires Opened(past, since, s, At(s).observe)
    ensures Opened(past + [Tick(now, open)], since, Observe(s, now, open), At(s).observe)
  {
    var e := Tick(now, open);
    var s1 := Observe(s, now, open);
    if open && s.openSince != 0 {
      var i :| OpenedAt(past, since, s, At(s).observe, i);
      OpenedGrows(past, since, s, s1, At(s).observe, e, i);
    } else if s1.openSince != 0 {
      if !s.forward && !At(s).observe {
        var k :| since <= k < |past| && past[k].Tick? && !past[k].open;
        assert (past + [e])[k] == past[k];
      }
      assert OpenedAt(past + [e], since, s1, At(s).observe, |past|);
    }
  }

  lemma {:induction false} ObserveSettled(past: seq<Event>, since: nat, s: State, now: int, open: bool, clock: int)
    requires Shows(s) && s.running && since <= |past| && now > 0 && Armed(past, since, s.armed) && Inputs(past, s, clock)
    requires Opened(past, since, s, At(s).observe) && Settled(past, since, s, At(s).observe)
    ensures Settled(past + [Tick(now, open)], since, Observe(s, now, open), At(s).observe)
  {
    var e := Tick(now, open);
    var s1 := Observe(s, now, open);
    if open && s.confirmAt != 0 {
      var i, c :| ConfirmedAt(past, since, s, At(s).observe, i, c);
      ConfirmedGrows(past, since, s, s1, At(s).observe, e, i, c);
    } else if s1.confirmAt != 0 {
      ObserveOpened(past, since, s, now, open);
      var i :| OpenedAt(past + [e], since, s1, At(s).observe, i);
      assert ConfirmedAt(past + [e], since, s1, At(s).observe, i, |past|);
    }
  }

  /** A frame that stays on the step keeps what it observed; one that leaves it starts again. */
  lemma {:induction false} FrameKeeps(s: State, now: int, open: bool)
    requires Shows(s) && s.running && At(s).gated
    ensures var r := Frame(s, now, open);
            if r.visit != s.visit then Starts(r)
            else Stays(Observe(s, now, open), r) && (r.skipUntil == s.skipUntil || r.skipUntil == 0)
  {
    ObserveMoved(s, now, open);
    AdvanceStays(Observe(s, now, open));
  }

  lemma {:induction false} AdvanceStays(s: State)
    ensures var r := Advance(s); if r.visit != s.visit then Starts(r) else Stays(s, r) && r.skipUntil == s.skipUntil
  {
  }

  predicate Starts(s: State) {
    s.openSince == 0 && s.confirmAt == 0 && s.skipUntil == 0 && !s.armed
  }

  predicate Stays(s: State, s': State) {
    && s'.tour == s.tour && s'.step == s.step && s'.running == s.running && s'.visit == s.visit
    && s'.openSince == s.openSince && s'.confirmAt == s.confirmAt && s'.forward == s.forward && s'.armed == s.armed
  }

  lemma {:induction false} FrameTimes(past: seq<Event>, since: nat, s: State, now: int, open: bool, clock: int, r: State)
    requires Shows(s) && s.running && since <= |past| && now > 0 && Times(past, since, s) && Inputs(past, s, clock)
    requires Stays(Observe(s, now, open), r) && r.tour == s.tour && r.step == s.step && (r.skipUntil == s.skipUntil || r.skipUntil == 0)
    ensures Times(past + [Tick(now, open)], since, r)
  {
    var e, s1 := Tick(now, open), Observe(s, now, open);
    ObserveOpened(past, since, s, now, open);
    ObserveSettled(past, since, s, now, open, clock);
    TimesStay(past + [e], since, s1, r, At(s).observe);
    ArmedGrows(past, since, s.armed, s1.armed, e);
    SkippedGrows(past, since, s, r, e);
  }

  lemma {:induction false} StepTicked(w: World, e: Event)
    requires Enabled(w, e) && Inv(w) && e.Tick?
    ensures var w' := Step(w, e); Times(w'.past, w'.since, w'.tour)
  {
    var s := w.tour;
    var s' := React(s, e);
    if s.running && At(s).gated {
      FrameKeeps(s, e.now, e.open);
      if s'.visit == s.visit {
        FrameTimes(w.past, w.since, s, e.now, e.open, w.clock, s');
      }
    } else {
      StepIdle(w, e);
    }
  }

  lemma {:induction false} TimesStay(past: seq<Event>, since: nat, s: State, s': State, observe: bool)
    requires Opened(past, since, s, observe) && Settled(past, since, s, observe) && Stays(s, s')
    ensures Opened(past, since, s', observe) && Settled(past, since, s', observe)
  {
    if s.openSince != 0 {
      var i :| OpenedAt(past, since, s, observe, i);
      assert OpenedAt(past, since, s', observe, i);
    }
    if s.confirmAt != 0 {
      var i, c :| ConfirmedAt(past, since, s, observe, i, c);
      assert OpenedAt(past, since, s', observe, i);
      assert ConfirmedAt(past, since, s', observe, i, c);
    }
  }

  lemma {:induction false} ArmedGrows(past: seq<Event>, since: nat, armed: bool, armed': bool, e: Event)
    requires Armed(past, since, armed) && since <= |past| && (armed' ==> armed || (e.Tick? && !e.open))
    ensures Armed(past + [e], since, armed')
  {
    if armed' {
      if armed {
        var k :| since <= k < |past| && past[k].Tick? && !past[k].open;
        assert (past + [e])[k] == past[k];
      } else {
        assert (past + [e])[|past|] == e;
      }
    }
  }

  lemma {:induction false} SkippedGrows(past: seq<Event>, since: nat, s: State, s': State, e: Event)
    requires Skipped(past, since, s) && since <= |past|
    requires s'.skipUntil == 0 || s'.skipUntil == s.skipUntil || (e.Skip? && s'.skipUntil == e.now + SKIP_WAIT)
    ensures Skipped(past + [e], since, s')
  {
    if s'.skipUntil != 0 {
      if s'.skipUntil == s.skipUntil {
        var k :| SkippedAt(past, since, k, s.skipUntil);
        assert SkippedAt(past + [e], since, k, s'.skipUntil);
      } else {
        assert SkippedAt(past + [e], since, |past|, s'.skipUntil);
      }
    }
  }

  /** Any step that leaves the gate's times alone, or a new visit. */
  lemma {:induction false} StepIdle(w: World, e: Event)
    requires Enabled(w, e) && Inv(w) && (e.Tick? ==> !w.tour.running || !At(w.tour).gated)
    ensures var w' := Step(w, e); Times(w'.past, w'.since, w'.tour)
  {
    var s := w.tour;
    var s' := React(s, e);
    ReactIdle(s, e);
    if s'.visit == s.visit {
      ArmedGrows(w.past, w.since, s.armed, s'.armed, e);
      SkippedGrows(w.past, w.since, s, s', e);
      if s'.openSince != 0 {
        TimesGrow(w.past, w.since, s, s', Observes(s), e);
      }
    }
  }

  /** A new visit, or nothing about the gate changed. */
  predicate IdleTo(s: State, s': State) {
    if s'.visit != s.visit then Starts(s')
    else Untouched(s, s') && (s'.openSince != 0 ==> Observes(s') == Observes(s)) && (s'.armed ==> s.armed)
         && (s'.skipUntil == 0 || s'.skipUntil == s.skipUntil)
  }

  lemma {:induction false} ReactIdle(s: State, e: Event)
    requires Shows(s) && (e.Begin? ==> |e.tour| > 0) && (e.Tick? ==> !s.running || !At(s).gated)
    ensures var s' := React(s, e);
            IdleTo(s, if e.Skip? then s'.(skipUntil := s.skipUntil) else s')
            && (e.Skip? ==> s'.skipUntil == s.skipUntil || s'.skipUntil == e.now + SKIP_WAIT)
  {
  }

  lemma {:induction false} GoSound(s: State, i: int)
    requires Sound(s) || (s.running && i == 0 < |s.tour|)
    ensures Sound(GoStep(s, i))
  {
  }

  lemma {:induction false} AdvanceSound(s: State)
    requires Sound(s)
    ensures Sound(Advance(s))
  {
  }

  lemma {:induction false} FrameSound(s: State, now: int, open: bool)
    requires Sound(s)
    ensures Sound(Frame(s, now, open))
  {
  }

  lemma {:induction false} StepSound(s: State, e: Event)
    requires Sound(s) && (e.Begin? ==> |e.tour| > 0) && (e.Skip? ==> s.running && !s.skipHidden)
    ensures Sound(React(s, e))
  {
    match e
    case Tick(now, open) => FrameSound(s, now, open);
    case Next => AdvanceSound(s);
    case Back => GoSound(s, s.step - 1);
    case Begin(tour) => GoSound(s.(tour := tour, running := true), 0);
    case _ =>
  }

  /** How a step moves the visits: a visit hands off once, and only the last step is left behind by no move. */
  predicate Moved(s: State, s': State) {
    && (s'.leftVisit == s.leftVisit || (s'.leftVisit == s.visit && s.running && (s'.visit != s.visit || s.step + 1 >= |s.tour|)))
    && (s'.visit == s.visit + 1 || (s'.visit == s.visit && (s'.running ==> s.running && s'.step == s.step && s'.tour == s.tour)))
  }

  lemma {:induction false} GoMoved(s: State, i: int)
    ensures var r := GoStep(s, i); r.lastInput == s.lastInput && r.leftVisit == s.leftVisit && Moved(s, r)
  {
  }

  lemma {:induction false} AdvanceMoved(s: State)
    ensures Moved(s, Advance(s)) && Advance(s).lastInput == s.lastInput
  {
  }

  lemma {:induction false} FrameMoved(s: State, now: int, open: bool)
    requires Shows(s)
    ensures Moved(s, Frame(s, now, open)) && Frame(s, now, open).lastInput == s.lastInput
  {
    if s.running && At(s).gated {
      var s1 := Observe(s, now, open);
      ObserveMoved(s, now, open);
      AdvanceMoved(s1);
      assert Moved(s, s1.(nextHidden := false, skipHidden := true, skipUntil := 0));
    }
  }

  lemma {:induction false} ObserveMoved(s: State, now: int, open: bool)
    requires Shows(s) && s.running
    ensures var r := Observe(s, now, open);
            && r.leftVisit == s.leftVisit && r.visit == s.visit && r.running && r.step == s.step && r.tour == s.tour
            && r.lastInput == s.lastInput && r.skipUntil == s.skipUntil
  {
  }

  lemma {:induction false} ReactMoved(s: State, e: Event)
    requires Shows(s) && (e.Begin? ==> |e.tour| > 0)
    ensures Moved(s, React(s, e)) && React(s, e).lastInput == if e.Input? then e.now else s.lastInput
  {
    match e
    case Tick(now, open) => FrameMoved(s, now, open);
    case Next => AdvanceMoved(s);
    case Back => GoMoved(s, s.step - 1);
    case Begin(tour) => GoMoved(s.(tour := tour, running := true), 0);
    case _ =>
  }

  lemma {:induction false} VisitsMove(s: State, s': State, spent: seq<int>)
    requires Shows(s) && Visits(s, spent) && Moved(s, s')
    ensures Visits(s', if s'.leftVisit != s.leftVisit then spent + [s'.leftVisit] else spent)
  {
  }

  lemma {:induction false} InputsMove(past: seq<Event>, s: State, s': State, clock: int, e: Event)
    requires Inputs(past, s, clock) && (Timed(e) ==> e.now >= clock) && s'.lastInput == if e.Input? then e.now else s.lastInput
    ensures Inputs(past + [e], s', if Timed(e) then e.now else clock)
  {
  }

  lemma {:induction false} StepInv(w: World, e: Event)
    requires Enabled(w, e) && Inv(w)
    ensures Inv(Step(w, e))
  {
    if e.Tick? {
      StepTicked(w, e);
    } else {
      StepIdle(w, e);
    }
    StepSound(w.tour, e);
    ReactMoved(w.tour, e);
    VisitsMove(w.tour, React(w.tour, e), w.spent);
    InputsMove(w.past, w.tour, React(w.tour, e), w.clock, e);
  }

  lemma {:induction false} RunInv(w: World, es: seq<Event>, w': World)
    requires Inv(w) && Run(w, es, w')
    ensures Inv(w')
    decreases |es|
  {
    if es != [] {
      StepInv(w, es[0]);
      RunInv(Step(w, es[0]), es[1..], w');
    }
  }

  // ---- the promises ---------------------------------------------------------------------------------

  /** No visit hands off twice, and only a hand-off moves to the next step. */
  lemma {:induction false} OneMoveAVisit(es: seq<Event>, w: World, e: Event)
    requires Run(OPENED, es, w) && Enabled(w, e)
    ensures forall j, k | 0 <= j < k < |w.spent| :: w.spent[j] != w.spent[k]
    ensures var s' := React(w.tour, e); s'.visit != w.tour.visit && s'.step > w.tour.step ==>
              w.tour.visit !in w.spent && Step(w, e).spent == w.spent + [w.tour.visit] && s'.step == w.tour.step + 1
  {
    RunInv(OPENED, es, w);
    MoveSpends(w.tour, e);
    if w.tour.leftVisit != w.tour.visit {
      SpentBefore(w.tour, w.spent);
    }
  }

  lemma {:induction false} SpentBefore(s: State, spent: seq<int>)
    requires Visits(s, spent) && s.leftVisit != s.visit
    ensures s.visit !in spent
  {
  }

  lemma {:induction false} MoveSpends(s: State, e: Event)
    requires Shows(s) && (e.Begin? ==> |e.tour| > 0)
    ensures var s' := React(s, e); s'.visit != s.visit && s'.step > s.step ==>
              s.leftVisit != s.visit && s'.leftVisit == s.visit && s'.step == s.step + 1
  {
    match e
    case Tick(now, open) =>
      if s.running {
        ObserveMoved(s, now, open);
      }
    case _ =>
  }

  /** The gate settled: seen open, as news, on every frame from `i` of this visit to now, quietly confirmed at `c`, long enough ago. */
  ghost predicate MovedBySettling(past: seq<Event>, since: nat, forward: bool, observe: bool, now: int) {
    exists i: nat, c: nat :: since <= i && OpenFrom(past, i) && IsNews(past, since, i, forward, observe) && SettledAt(past, i, c)
                   && now - past[c].now >= CONFIRM && now - past[i].now >= SETTLE + CONFIRM
  }

  ghost predicate MovedBySkip(past: seq<Event>, since: nat, now: int) {
    exists k: nat :: since <= k < |past| && past[k].Skip? && now > past[k].now + SKIP_WAIT
  }

  /** A frame moves the tour only if the gate settled on this visit or a skip of this visit ran out. */
  lemma {:induction false} MovesForAReason(es: seq<Event>, w: World, e: Event)
    requires Run(OPENED, es, w) && Enabled(w, e) && e.Tick? && Step(w, e).tour.visit != w.tour.visit
    ensures w.tour.running && At(w.tour).gated
    ensures || MovedBySettling(w.past + [e], w.since, w.tour.forward, At(w.tour).observe, e.now)
            || MovedBySkip(w.past + [e], w.since, e.now)
  {
    RunInv(OPENED, es, w);
    var s := w.tour;
    var s1 := Observe(s, e.now, e.open);
    ObserveSettled(w.past, w.since, s, e.now, e.open, w.clock);
    ObserveMoved(s, e.now, e.open);
    if s1.confirmAt != 0 && e.now - s1.confirmAt >= CONFIRM {
      var i: nat, c: nat :| ConfirmedAt(w.past + [e], w.since, s1, At(s).observe, i, c);
      assert MovedBySettling(w.past + [e], w.since, s.forward, At(s).observe, e.now);
    } else {
      assert s.skipUntil != 0 && e.now > s.skipUntil;
      var k: nat :| SkippedAt(w.past, w.since, k, s.skipUntil);
      assert (w.past + [e])[k] == w.past[k];
    }
  }

  /** A gate that settled and was confirmed long enough moves the tour to the next step, unless the step holds or is the last. */
  lemma {:induction false} SettledMoves(es: seq<Event>, w: World, now: int)
    requires Run(OPENED, es, w) && Shows(w.tour) && w.tour.running && At(w.tour).gated
    requires w.tour.confirmAt != 0 && now - w.tour.confirmAt >= CONFIRM
    ensures Frame(w.tour, now, true).step == (if At(w.tour).hold || w.tour.step + 1 == |w.tour.tour| then w.tour.step else w.tour.step + 1)
    ensures Frame(w.tour, now, true).visit == w.tour.visit <==> At(w.tour).hold || w.tour.step + 1 == |w.tour.tour|
  {
    RunInv(OPENED, es, w);
    ObserveMoved(w.tour, now, true);
  }

  /** A settled holding step, until its visit is over. */
  predicate Still(s: State, v: int) {
    s.visit > v || (s.visit == v && (s.running ==> s.step < |s.tour| && At(s).gated && At(s).hold && !s.nextHidden))
  }

  lemma {:induction false} StillFrame(s: State, now: int, open: bool, v: int)
    requires Sound(s) && Still(s, v)
    ensures Still(Frame(s, now, open), v) && (s.visit == v ==> Frame(s, now, open).visit == v)
  {
  }

  lemma {:induction false} StillReact(s: State, e: Event, v: int)
    requires Sound(s) && (e.Begin? ==> |e.tour| > 0) && Still(s, v)
    ensures Still(React(s, e), v)
  {
    if e.Tick? {
      StillFrame(s, e.now, e.open, v);
    } else {
      ReactMoved(s, e);
    }
  }

  lemma {:induction false} StillRun(w: World, es: seq<Event>, w': World, v: int)
    requires Inv(w) && Run(w, es, w') && Still(w.tour, v)
    ensures Inv(w') && Still(w'.tour, v)
    decreases |es|
  {
    if es != [] {
      StepInv(w, es[0]);
      StillReact(w.tour, es[0], v);
      StillRun(Step(w, es[0]), es[1..], w', v);
    }
  }

  /** Once a holding step's gate has settled, no frame of that visit moves the tour. */
  lemma {:induction false} HoldsStill(es: seq<Event>, w: World, more: seq<Event>, w': World, e: Event)
    requires Run(OPENED, es, w) && Shows(w.tour) && w.tour.running && At(w.tour).gated && At(w.tour).hold && w.tour.confirmAt != 0
    requires Run(w, more, w') && w'.tour.visit == w.tour.visit && e.Tick? && Enabled(w', e)
    ensures React(w'.tour, e).visit == w.tour.visit
  {
    RunInv(OPENED, es, w);
    StillRun(w, more, w', w.tour.visit);
    StillFrame(w'.tour, e.now, e.open, w.tour.visit);
  }

  /** What the end of a skip promises: the step is left, or it waits with Continue shown. */
  predicate SkipKept(s: State, s': State)
    requires Shows(s) && s.running
  {
    s'.visit != s.visit || (At(s).hold && !s'.nextHidden && s'.skipUntil == 0)
  }

  /**
   The first frame after a skip's deadline keeps that promise exactly when there is a next step,
   or the step holds and its gate has settled: a gated last step has nowhere to go and no button.
   */
  lemma {:induction false} SkipDeadline(es: seq<Event>, w: World, now: int, open: bool)
    requires Run(OPENED, es, w) && Shows(w.tour) && w.tour.running && At(w.tour).gated
    requires w.tour.skipUntil != 0 && now > w.tour.skipUntil
    ensures SkipKept(w.tour, Frame(w.tour, now, open)) <==>
              w.tour.step + 1 < |w.tour.tour| || (At(w.tour).hold && Observe(w.tour, now, open).confirmAt != 0)
  {
    RunInv(OPENED, es, w);
    ObserveMoved(w.tour, now, open);
  }

  const ONE_GATE := [Stop(true, false, false)]

  /** A tour of one gated step: skipped, past its deadline, and still there with no way on. */
  lemma {:induction false} SkipStrands()
    ensures var w := Step(Step(OPENED, Begin(ONE_GATE)), Skip(1));
            var s' := Frame(w.tour, 6002, false);
            && Run(OPENED, [Begin(ONE_GATE), Skip(1)], w) && 6002 > w.tour.skipUntil && !SkipKept(w.tour, s')
            && s'.nextHidden && s'.skipDisabled
  {
  }
}
