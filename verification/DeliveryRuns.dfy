/** Every interleaving of requests, decisions, cancellations, reads and queued steps of the delivery world. */
module DeliveryRuns {
  import opened Basics
  import opened Delivery
  import opened DeliveryLedger
  import opened DeliveryLife

  datatype Event =
    | Asks(req: Request, actor: User)
    | Decides(ns: string, uid: Uid, answer: Answer)
    | Cancels(ns: string, uid: Uid)
    | Steps(task: Task)
    | Gap(key: Key)
    | Strange(key: Key, statement: Statement)
    | Reads
    | Loads

  /**
   Gaps are made only while the story is replayed, before anything is read; `Loads` is the end of the
   replay. A record a stranger signed may turn up at any time.
   */
  predicate Enabled(w: World, e: Event) {
    && Sane(w)
    && match e
       case Steps(t) => t in w.tasks && t.uid in w.book
       case Gap(k) => k in w.streams && k in w.stages && w.views.None?
       case Strange(k, _) => k in w.streams && k in w.stages
       case _ => true
  }

  function Changed(w: World): World {
    w.(views := None)
  }

  function Ops(w: World, us: seq<Uid>): seq<Op>
    requires forall i | 0 <= i < |us| :: us[i] in w.book
  {
    seq(|us|, i requires 0 <= i < |us| => w.book[us[i]])
  }

  /** What a read shows of the world. */
  function Shown(w: World): Views
    requires Sane(w)
  {
    Views(w.stages, Ops(w, w.listed))
  }

  /** The world in which a queued step is run. */
  function Taken(w: World, t: Task): World {
    w.(tasks := w.tasks - multiset{t})
  }

  function Fire(r: Rules, w: World, t: Task): World
    requires Sane(w) && t.uid in w.book
  {
    var w1 := Taken(w, t);
    if t.ToApply? then FireApply(r, w1, t.uid) else FireVerify(r, w1, t.uid)
  }

  /** The world after an event, before its views are dropped. */
  function Act(r: Rules, w: World, e: Event): World
    requires Enabled(w, e)
  {
    match e
    case Asks(req, actor) => Propose(r, w, req, actor)
    case Decides(ns, u, a) => if Decidable(w, ns, u) then Decide(r, w, u, a) else w
    case Cancels(ns, u) => if Cancellable(w, ns, u) then Cancel(w, u) else w
    case Steps(t) => Fire(r, w, t)
    case Gap(k) => GapAndStranger(r, w, k)
    case Strange(k, x) => Store(r, w, k, x, false)
    case _ => w
  }

  /** Whatever moves the world drops the views; a read makes them. */
  function Step(r: Rules, w: World, e: Event): World
    requires Enabled(w, e)
  {
    match e
    case Reads => if w.views.None? then w.(views := Some(Shown(w))) else w
    case Loads => w.(immediate := false)
    case Gap(_) => Act(r, w, e)
    case Strange(_, _) => Act(r, w, e)
    case Cancels(ns, u) => if Cancellable(w, ns, u) then Changed(Act(r, w, e)) else w
    case _ => Changed(Act(r, w, e))
  }

  /** A check that passes concludes. */
  lemma {:induction false} PassConcludes(r: Rules, w: World, u: Uid)
    requires Enabled(w, Steps(ToVerify(u))) && r.check(Taken(w, ToVerify(u)), u) == Pass
    ensures Step(r, w, Steps(ToVerify(u))) == Changed(Conclude(r, Taken(w, ToVerify(u)), u, Succeeded, Verified))
  {
  }

  ghost predicate Run(r: Rules, w: World, es: seq<Event>, w': World)
    decreases |es|
  {
    if es == [] then w' == w
    else Enabled(w, es[0]) && Run(r, Step(r, w, es[0]), es[1..], w')
  }

  /** Where a replay begins: Stages, each placed on nothing or on a version of its own service, and for some an empty stream. */
  ghost predicate Begins(r: Rules, w: World) {
    && w.book == map[] && w.listed == [] && w.tasks == multiset{} && w.views.None? && w.streams.Keys <= w.stages.Keys
    && (forall k | k in w.stages :: w.stages[k].num == 0 && w.stages[k].head == "" && w.stages[k].recordedSeq == 0
                                    && w.stages[k].concluded == [] && w.stages[k].ever == [] && w.stages[k].lastOp == 0
                                    && Home(r, k, w.stages[k]))
    && (forall k | k in w.streams :: w.streams[k].recs == [])
  }

  ghost predicate Reachable(r: Rules, w: World) {
    exists w0, es :: Begins(r, w0) && Run(r, w0, es, w)
  }

  /** The views handed out are the world as it is. */
  predicate Current(w: World) {
    w.views.Some? ==> Sane(w) && w.views.value == Shown(w)
  }

  // ---- what every step keeps -------------------------------------------------------------------------

  lemma {:induction false} AnsweredSpokenFor(r: Rules, op: Op, a: Answer)
    requires AllSpokenFor(r.prefix, op)
    ensures AllSpokenFor(r.prefix, Answered(r, op, a))
  {
    var op' := Answered(r, op, a);
    forall t | t in op'.approved ensures SpokenFor(r.prefix, op'.answers, t) {
      if t in op.approved {
        var i :| 0 <= i < |op.answers| && InTeam(r.prefix, op.answers[i].groups, t);
        assert op'.answers[i] == op.answers[i];
      } else {
        assert op'.answers[|op.answers|] == a;
      }
    }
  }

  lemma {:induction false} RecountGood(r: Rules, w: World, u: Uid, a: Answer)
    requires Good(r, w, 0) && u in w.book && w.book[u].phase == Held
    ensures var w' := Recount(r, w, u, a); Good(r, w', u) && Kept(w, w', u) && Idle(w', u) && AllSpokenFor(r.prefix, w'.book[u])
  {
    assert Fine(r.prefix, w.book, w.tasks, u);
    AnsweredSpokenFor(r, w.book[u], a);
    FocusGood(r, w, Recount(r, w, u, a), u);
  }

  lemma {:induction false} WaitsOn(r: Rules, w: World, u: Uid, a: Answer)
    requires Good(r, w, 0) && u in w.book && w.book[u].phase == Held && a.decision != Reject
    ensures Good(r, Recount(r, w, u, a), 0)
  {
    RecountGood(r, w, u, a);
    assert Fine(r.prefix, w.book, w.tasks, u);
    Completes(r, Recount(r, w, u, a), u);
  }

  lemma {:induction false} RejectedGood(r: Rules, w: World, u: Uid)
    requires Good(r, w, u) && u in w.book && Idle(w, u) && Ending(r.prefix, w.book[u], Failed)
    ensures var w' := RollBack(r, Conclude(r, w, u, Failed, Unstated), u, false); Good(r, w', 0) && Kept(w, w', u)
  {
    var w1 := Conclude(r, w, u, Failed, Unstated);
    ConcludeGood(r, w, u, Failed, Unstated);
    RollBackGood(r, w1, u, false);
    assert 0 !in w.book;
    KeptThrough(w, w1, RollBack(r, w1, u, false), u, 0);
  }

  lemma {:induction false} DecideGood(r: Rules, w: World, u: Uid, a: Answer)
    requires Good(r, w, 0) && u in w.book && w.book[u].phase == Held
    ensures var w' := Decide(r, w, u, a); Good(r, w', 0) && Kept(w, w', u)
  {
    var w1 := Recount(r, w, u, a);
    var op := w1.book[u];
    RecountGood(r, w, u, a);
    assert Fine(r.prefix, w.book, w.tasks, u);
    if a.decision != Reject && TeamsWaiting(op.plan.owners, op.approved) != [] {
      WaitsOn(r, w, u, a);
    } else if a.decision == Reject && op.applied {
      RejectedGood(r, w1, u);
    } else if a.decision == Reject {
      ConcludeGood(r, w1, u, Rejected, Unstated);
    } else if op.applied {
      ConcludeGood(r, w1, u, Succeeded, AcceptedUnknown);
    } else {
      StartGood(r, w1, u);
    }
    KeptThrough(w, w1, Decide(r, w, u, a), u, u);
  }

  lemma {:induction false} TakenGood(r: Rules, w: World, t: Task)
    requires Good(r, w, 0) && t in w.tasks && t.uid in w.book
    ensures var w1 := Taken(w, t); Good(r, w1, t.uid) && Kept(w, w1, t.uid) && Idle(w1, t.uid)
    ensures if t.ToApply? then Launched(r.prefix, w.book[t.uid]) else Released(r.prefix, w.book[t.uid])
  {
    TakenIsReady(r, w, t);
    TakenFocused(w, t);
    FocusGood(r, w, Taken(w, t), t.uid);
  }

  lemma {:induction false} TakenIsReady(r: Rules, w: World, t: Task)
    requires FineBut(r.prefix, w.book, w.tasks, 0) && t in w.tasks && t.uid in w.book && t.uid != 0
    ensures Idle(Taken(w, t), t.uid)
    ensures if t.ToApply? then Launched(r.prefix, w.book[t.uid]) else Released(r.prefix, w.book[t.uid])
  {
    assert Fine(r.prefix, w.book, w.tasks, t.uid);
  }

  lemma {:induction false} TakenFocused(w: World, t: Task)
    requires t.uid in w.book
    ensures Focused(w, Taken(w, t), t.uid)
  {
  }

  lemma {:induction false} FireGood(r: Rules, w: World, t: Task)
    requires Good(r, w, 0) && t in w.tasks && t.uid in w.book
    ensures var w' := Fire(r, w, t); Good(r, w', 0) && Kept(w, w', t.uid)
  {
    var w1 := Taken(w, t);
    TakenGood(r, w, t);
    if t.ToApply? {
      ApplyGood(r, w1, t.uid);
    } else {
      VerifyGood(r, w1, t.uid);
    }
    KeptThrough(w, w1, Fire(r, w, t), t.uid, t.uid);
  }

  lemma {:induction false} GapFiled(r: Rules, st: Stage, s: Stream, x: Statement)
    requires Filed(st, Some(s)) && x.num == |s.recs| + 1 && x.parent == st.head
    ensures Filed(st.(num := st.num + 1, head := r.id(x), recordedSeq := x.num),
                  Some(Stream(s.recs + [Stored(r.id(x), x)], s.unreadable + 1)))
  {
    ChainedGrows(s.recs, Stored(r.id(x), x));
  }

  lemma {:induction false} GapHistory(r: Rules, w: World, k: Key)
    requires History(w.stages, w.streams) && k in w.streams && k in w.stages
    ensures var w' := GapAndStranger(r, w, k); History(w'.stages, w'.streams)
    ensures var w' := GapAndStranger(r, w, k); w' == w.(stages := w'.stages, streams := w'.streams) && w'.stages.Keys == w.stages.Keys
  {
    var x := Statement(Next(w, k), w.stages[k].head, 0, "", "", w.stages[k].num + 1);
    assert Filed(w.stages[k], StreamOf(w.streams, k));
    GapFiled(r, w.stages[k], w.streams[k], x);
    var st' := w.stages[k].(num := w.stages[k].num + 1, head := r.id(x), recordedSeq := x.num);
    var s' := Stream(w.streams[k].recs + [Stored(r.id(x), x)], w.streams[k].unreadable + 1);
    HistoryPut(w.stages, w.streams, k, st', w.streams[k := s']);
    GapIs(r, w, k, st', s');
  }

  lemma {:induction false} GapIs(r: Rules, w: World, k: Key, st': Stage, s': Stream)
    requires k in w.streams && k in w.stages
    requires var x := Statement(Next(w, k), w.stages[k].head, 0, "", "", w.stages[k].num + 1);
             && st' == w.stages[k].(num := w.stages[k].num + 1, head := r.id(x), recordedSeq := x.num)
             && s' == Stream(w.streams[k].recs + [Stored(r.id(x), x)], w.streams[k].unreadable + 1)
    ensures GapAndStranger(r, w, k) == w.(stages := w.stages[k := st'], streams := w.streams[k := s'])
  {
  }

  /** Only records, and what a Stage says of them, changed. */
  lemma {:induction false} RecordsGood(r: Rules, w: World, w': World)
    requires Good(r, w, 0) && w' == w.(stages := w'.stages, streams := w'.streams) && w'.stages.Keys == w.stages.Keys
    requires History(w'.stages, w'.streams)
    ensures Good(r, w', 0) && Kept(w, w', 0)
  {
  }

  lemma {:induction false} GapGood(r: Rules, w: World, k: Key)
    requires Good(r, w, 0) && k in w.streams && k in w.stages
    ensures var w' := GapAndStranger(r, w, k); Good(r, w', 0) && Kept(w, w', 0)
  {
    GapHistory(r, w, k);
    RecordsGood(r, w, GapAndStranger(r, w, k));
  }

  lemma {:induction false} WithoutDrops(us: seq<Uid>, u: Uid)
    requires InOrder(us)
    ensures u !in Without(us, u) && InOrder(Without(us, u))
    decreases |us|
  {
    if us != [] && us[0] != u {
      WithoutDrops(us[1..], u);
      var rest := Without(us[1..], u);
      forall j | 0 <= j < |rest| ensures us[0] < rest[j] {
        assert rest[j] in us[1..];
      }
    }
  }

  lemma {:induction false} CancelGood(r: Rules, w: World, u: Uid)
    requires Good(r, w, 0)
    ensures Good(r, Cancel(w, u), 0) && Kept(w, Cancel(w, u), 0)
  {
    WithoutDrops(w.listed, u);
    CancelSane(w, u);
  }

  lemma {:induction false} CancelSane(w: World, u: Uid)
    requires Sane(w)
    ensures Sane(Cancel(w, u))
  {
    var us := Without(w.listed, u);
    forall i | 0 <= i < |us| ensures us[i] in w.book {
      assert us[i] in us;
    }
  }

  lemma {:induction false} UnreadableFiled(st: Stage, s: Stream, n: nat)
    requires Filed(st, Some(s))
    ensures Filed(st, Some(s.(unreadable := n)))
  {
  }

  lemma {:induction false} StrangeHistory(r: Rules, w: World, k: Key, x: Statement)
    requires History(w.stages, w.streams) && k in w.streams && k in w.stages
    ensures var w' := Store(r, w, k, x, false); History(w'.stages, w'.streams)
  {
    var s' := w.streams[k].(unreadable := w.streams[k].unreadable + 1);
    assert Filed(w.stages[k], StreamOf(w.streams, k));
    UnreadableFiled(w.stages[k], w.streams[k], s'.unreadable);
    HistoryPut(w.stages, w.streams, k, w.stages[k], w.streams[k := s']);
    assert w.stages[k := w.stages[k]] == w.stages;
  }

  lemma {:induction false} StrangeGood(r: Rules, w: World, k: Key, x: Statement)
    requires Good(r, w, 0) && k in w.streams && k in w.stages
    ensures var w' := Store(r, w, k, x, false); Good(r, w', 0) && Kept(w, w', 0)
  {
    StrangeHistory(r, w, k, x);
    RecordsGood(r, w, Store(r, w, k, x, false));
  }

  /** Which operation an event is about, if any is. */
  function Touches(w: World, e: Event): Uid {
    match e
    case Decides(ns, u, _) => if Decidable(w, ns, u) then u else 0
    case Steps(t) => t.uid
    case _ => 0
  }

  lemma {:induction false} ViewsGood(r: Rules, w: World, w': World, but: Uid, views: Option<Views>, immediate: bool)
    requires Good(r, w', 0) && Kept(w, w', but)
    ensures var w2 := w'.(views := views, immediate := immediate); Good(r, w2, 0) && Kept(w, w2, but)
  {
  }

  lemma {:induction false} ActGood(r: Rules, w: World, e: Event)
    requires Enabled(w, e) && Good(r, w, 0)
    ensures Good(r, Act(r, w, e), 0) && Kept(w, Act(r, w, e), Touches(w, e))
  {
    match e
    case Asks(req, actor) => ProposeGood(r, w, req, actor);
    case Decides(ns, u, a) => if Decidable(w, ns, u) { DecideGood(r, w, u, a); }
    case Cancels(_, u) => CancelGood(r, w, u);
    case Steps(t) => FireGood(r, w, t);
    case Gap(k) => GapGood(r, w, k);
    case Strange(k, x) => StrangeGood(r, w, k, x);
    case _ =>
  }

  lemma {:induction false} StepGood(r: Rules, w: World, e: Event)
    requires Enabled(w, e) && Good(r, w, 0)
    ensures Good(r, Step(r, w, e), 0) && Kept(w, Step(r, w, e), Touches(w, e))
  {
    ActGood(r, w, e);
    var w' := Step(r, w, e);
    assert w' == Act(r, w, e).(views := w'.views, immediate := w'.immediate);
    ViewsGood(r, w, Act(r, w, e), Touches(w, e), w'.views, w'.immediate);
  }

  /** While steps run at once nothing is queued. */
  predicate Quiet(w: World) {
    w.immediate ==> w.tasks == multiset{}
  }

  lemma {:induction false} StepQuiet(r: Rules, w: World, e: Event)
    requires Enabled(w, e) && Quiet(w)
    ensures Quiet(Step(r, w, e))
  {
  }

  lemma {:induction false} StepCurrent(r: Rules, w: World, e: Event)
    requires Enabled(w, e) && Current(w)
    ensures Current(Step(r, w, e))
  {
  }

  lemma {:induction false} ActLedger(r: Rules, w: World, e: Event)
    requires Enabled(w, e) && Good(r, w, 0) && Ledger(r, w)
    ensures Ledger(r, Act(r, w, e)) && Accounted(w, Act(r, w, e))
  {
    match e
    case Asks(req, actor) => ProposeLedger(r, w, req, actor);
    case Decides(ns, u, a) => if Decidable(w, ns, u) { DecideLedger(r, w, u, a); } else { AlikeLedger(r, w, w); }
    case Steps(t) => FireLedger(r, w, t);
    case Gap(k) => GapLedger(r, w, k);
    case Cancels(ns, u) => if Cancellable(w, ns, u) { CancelLedger(r, w, u); } else { AlikeLedger(r, w, w); }
    case Strange(k, x) => StrangeLedger(r, w, k, x);
    case _ => AlikeLedger(r, w, w);
  }

  lemma {:induction false} CancelLedger(r: Rules, w: World, u: Uid)
    requires Ledger(r, w)
    ensures Ledger(r, Cancel(w, u)) && Accounted(w, Cancel(w, u))
  {
    CancelSane(w, u);
    AlikeLedger(r, w, Cancel(w, u));
  }

  lemma {:induction false} StrangeLedger(r: Rules, w: World, k: Key, x: Statement)
    requires Ledger(r, w) && k in w.streams && k in w.stages
    ensures var w' := Store(r, w, k, x, false); Ledger(r, w') && Accounted(w, w')
  {
    AlikeLedger(r, w, Store(r, w, k, x, false));
  }

  lemma {:induction false} FireLedger(r: Rules, w: World, t: Task)
    requires Good(r, w, 0) && Ledger(r, w) && t in w.tasks && t.uid in w.book
    ensures var w' := Fire(r, w, t); Ledger(r, w') && Accounted(w, w')
  {
    var w1 := Taken(w, t);
    TakenGood(r, w, t);
    AlikeLedger(r, w, w1);
    if t.ToApply? {
      ApplyLedger(r, w1, t.uid);
    } else {
      VerifyLedger(r, w1, t.uid);
    }
    AccountedThrough(w, w1, Fire(r, w, t));
  }

  lemma {:induction false} GapLedger(r: Rules, w: World, k: Key)
    requires Ledger(r, w) && k in w.streams && k in w.stages
    ensures var w' := GapAndStranger(r, w, k); Ledger(r, w') && Accounted(w, w')
  {
    var x := Statement(Next(w, k), w.stages[k].head, 0, "", "", w.stages[k].num + 1);
    var st' := w.stages[k].(num := w.stages[k].num + 1, head := r.id(x), recordedSeq := x.num);
    GapIs(r, w, k, st', Stream(w.streams[k].recs + [Stored(r.id(x), x)], w.streams[k].unreadable + 1));
    StoredCopied(w.book, w.streams, k, GapAndStranger(r, w, k).streams[k], Stored(r.id(x), x));
    SameStagesLedger(r, w, GapAndStranger(r, w, k));
  }

  lemma {:induction false} StepLedger(r: Rules, w: World, e: Event)
    requires Enabled(w, e) && Good(r, w, 0) && Ledger(r, w)
    ensures Ledger(r, Step(r, w, e)) && Accounted(w, Step(r, w, e))
  {
    var w1, w' := Act(r, w, e), Step(r, w, e);
    ActLedger(r, w, e);
    assert w' == w1.(views := w'.views, immediate := w'.immediate);
    ViewsLedger(r, w, w1, w'.views, w'.immediate);
  }

  lemma {:induction false} ViewsLedger(r: Rules, w: World, w1: World, views: Option<Views>, immediate: bool)
    requires Ledger(r, w1) && Accounted(w, w1)
    ensures var w' := w1.(views := views, immediate := immediate); Ledger(r, w') && Accounted(w, w')
  {
    var w' := w1.(views := views, immediate := immediate);
    AlikeLedger(r, w1, w');
    AccountedThrough(w, w1, w');
  }

  /** All of it. */
  ghost predicate Whole(r: Rules, w: World) {
    Good(r, w, 0) && Ledger(r, w) && Current(w) && Quiet(w)
  }

  lemma {:induction false} BeginsWhole(r: Rules, w: World)
    requires Begins(r, w)
    ensures Whole(r, w)
  {
  }

  lemma {:induction false} StepWhole(r: Rules, w: World, e: Event)
    requires Enabled(w, e) && Whole(r, w)
    ensures Whole(r, Step(r, w, e))
  {
    StepGood(r, w, e);
    StepLedger(r, w, e);
    StepCurrent(r, w, e);
    StepQuiet(r, w, e);
  }

  lemma {:induction false} RunWhole(r: Rules, w: World, es: seq<Event>, w': World)
    requires Whole(r, w) && Run(r, w, es, w')
    ensures Whole(r, w')
    decreases |es|
  {
    if es != [] {
      StepWhole(r, w, es[0]);
      RunWhole(r, Step(r, w, es[0]), es[1..], w');
    }
  }

  lemma {:induction false} ReachableWhole(r: Rules, w: World)
    requires Reachable(r, w)
    ensures Whole(r, w)
  {
    var w0, es :| Begins(r, w0) && Run(r, w0, es, w);
    BeginsWhole(r, w0);
    RunWhole(r, w0, es, w);
  }
}
