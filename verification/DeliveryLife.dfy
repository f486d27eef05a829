/** What every step of the delivery world keeps, of each operation and of each Stage. */
module DeliveryLife {
  import opened Basics
  import opened Delivery

  // ---- one operation -------------------------------------------------------------------------------

  /** Where an operation stands says how often it started, moved a pointer and concluded, and what is queued for it. */
  predicate Stands(op: Op, toApply: nat, toVerify: nat) {
    match op.phase
    case Admitted => op.starts == 0 && op.moves == 0 && op.ends == 0 && !op.applied && toApply == 0 && toVerify == 0
    case Pending => op.starts == 0 && op.moves == 0 && op.ends == 0 && !op.applied && toApply == 0 && toVerify == 0
    case Held =>
      && op.ends == 0 && toApply == 0 && toVerify == 0
      && (if op.applied then op.starts == 1 && op.moves == 1 && op.spec.kind != Autonomy else op.starts == 0 && op.moves == 0)
    case Running => op.starts == 1 && op.moves == 0 && op.ends == 0 && !op.applied && op.spec.kind != Autonomy && toApply == 1 && toVerify == 0
    case Verifying => op.starts == 1 && op.moves == 1 && op.ends == 0 && op.applied && op.spec.kind != Autonomy && toApply == 0 && toVerify == 1
    case Concluded => op.starts <= 1 && op.moves <= op.starts && op.ends == 1 && toApply == 0 && toVerify == 0
  }

  predicate SpokenFor(prefix: string, answers: seq<Answer>, team: Team) {
    exists i :: 0 <= i < |answers| && InTeam(prefix, answers[i].groups, team)
  }

  predicate AllSpokenFor(prefix: string, op: Op) {
    forall t | t in op.approved :: SpokenFor(prefix, op.answers, t)
  }

  /** Every team counted as answered was, and neither a person nor its plan rejected what is still held. */
  predicate Told(prefix: string, op: Op) {
    && AllSpokenFor(prefix, op)
    && (op.phase == Held && !op.applied ==> forall i | 0 <= i < |op.answers| :: op.answers[i].decision != Reject)
    && (op.phase == Held && !op.applied ==> op.plan.predicted != Rejects)
    && (op.phase == Admitted ==> op.answers == [])
  }

  predicate Fine(prefix: string, book: map<Uid, Op>, tasks: multiset<Task>, u: Uid)
    requires u in book
  {
    Stands(book[u], tasks[ToApply(u)], tasks[ToVerify(u)]) && Told(prefix, book[u])
  }

  /** All operations but one. */
  ghost predicate FineBut(prefix: string, book: map<Uid, Op>, tasks: multiset<Task>, but: Uid) {
    && (forall u {:trigger Fine(prefix, book, tasks, u)} | u in book && u != but :: Fine(prefix, book, tasks, u))
    && (forall u :: ToApply(u) in tasks || ToVerify(u) in tasks ==> u in book)
  }

  /** Nothing happened to the operations there were, but one. */
  ghost predicate Kept(w: World, w': World, but: Uid) {
    && w.n <= w'.n
    && (forall u | u in w'.listed :: u in w.listed || u > w.n)
    && forall u | u in w.book && u != but ::
         && u in w'.book && SameButPlan(w.book[u], w'.book[u])
         && w'.tasks[ToApply(u)] == w.tasks[ToApply(u)] && w'.tasks[ToVerify(u)] == w.tasks[ToVerify(u)]
  }

  /** The pointer move an operation made is final. */
  predicate Settled(op: Op) {
    op.applied && (op.spec.kind != Autonomy || op.phase == Concluded)
  }

  /** A rollback goes from where the operation it undoes, in its namespace, went, to where that one came from. */
  predicate Undoes(spec: Spec, cited: Op) {
    Settled(cited) && spec.stage.ns == cited.spec.stage.ns && spec.from == cited.after && spec.to == cited.before && spec.to != ""
  }

  predicate Bound(book: map<Uid, Op>, u: Uid)
    requires u in book
  {
    book[u].spec.kind == Rollback ==> book[u].spec.undoes in book && Undoes(book[u].spec, book[book[u].spec.undoes])
  }

  ghost predicate AllBound(book: map<Uid, Op>) {
    forall u {:trigger Bound(book, u)} | u in book :: Bound(book, u)
  }

  predicate Steady(op: Op, op': Op) {
    op'.spec == op.spec && (Settled(op) ==> Settled(op') && op'.before == op.before && op'.after == op.after)
  }

  lemma {:induction false} BoundKept(book: map<Uid, Op>, book': map<Uid, Op>)
    requires AllBound(book) && book'.Keys == book.Keys && forall x | x in book :: Steady(book[x], book'[x])
    ensures AllBound(book')
  {
    forall u | u in book' ensures Bound(book', u) {
      assert Bound(book, u) && Steady(book[u], book'[u]);
      if book[u].spec.kind == Rollback {
        assert Steady(book[book[u].spec.undoes], book'[book[u].spec.undoes]);
      }
    }
  }

  predicate Idle(w: World, u: Uid) {
    ToApply(u) !in w.tasks && ToVerify(u) !in w.tasks
  }

  // ---- one Stage -----------------------------------------------------------------------------------------

  /** Conclusions in increasing order, none numbered beyond the Stage's own count. */
  ghost predicate Ascending(cs: seq<Conclusion>, num: nat) {
    && (forall i | 0 <= i < |cs| :: 0 < cs[i].num <= num)
    && (forall i, j | 0 <= i < j < |cs| :: cs[i].num < cs[j].num)
  }

  /** The window is the last twenty conclusions, or all of them. */
  ghost predicate Window(st: Stage) {
    st.concluded == Last(st.ever) && Ascending(st.ever, st.num)
  }

  /** The records chain from 1 to the Stage's count, and its head is the last of them. */
  ghost predicate Chained(recs: seq<Stored>) {
    forall i | 0 <= i < |recs| :: Linked(recs, i)
  }

  predicate Linked(recs: seq<Stored>, i: nat)
    requires i < |recs|
  {
    recs[i].statement.num == i + 1 && recs[i].statement.parent == Head(recs[..i])
  }

  function Head(recs: seq<Stored>): string {
    if recs == [] then "" else recs[|recs| - 1].id
  }

  ghost predicate Chain(st: Stage, s: Stream) {
    && Chained(s.recs)
    && st.num == |s.recs| && st.recordedSeq == |s.recs|
    && st.head == Head(s.recs)
  }

  /** Every conclusion has its record, at its own place. */
  ghost predicate Evidenced(st: Stage, s: Stream) {
    forall i | 0 <= i < |st.ever| :: 0 < st.ever[i].num <= |s.recs| && s.recs[st.ever[i].num - 1].statement.op == st.ever[i].uid
  }

  /** A Stage, with the stream it has if any. */
  ghost predicate Filed(st: Stage, s: Option<Stream>) {
    Window(st) && (s.Some? ==> Chain(st, s.value) && Evidenced(st, s.value))
  }

  function StreamOf(streams: map<Key, Stream>, k: Key): Option<Stream> {
    if k in streams then Some(streams[k]) else None
  }

  ghost predicate History(stages: map<Key, Stage>, streams: map<Key, Stream>) {
    && streams.Keys <= stages.Keys
    && forall k {:trigger Filed(stages[k], StreamOf(streams, k))} | k in stages :: Filed(stages[k], StreamOf(streams, k))
  }

  /** The list is in the order things were asked for, so nothing is listed twice. */
  ghost predicate InOrder(us: seq<Uid>) {
    forall i, j | 0 <= i < j < |us| :: us[i] < us[j]
  }

  ghost predicate Good(r: Rules, w: World, but: Uid) {
    && Sane(w) && InOrder(w.listed) && AllBound(w.book)
    && FineBut(r.prefix, w.book, w.tasks, but)
    && History(w.stages, w.streams)
  }

  // ---- concluding ----------------------------------------------------------------------------------------------

  /** May conclude as `outcome`. */
  predicate Ending(prefix: string, op: Op, outcome: Outcome) {
    && op.ends == 0 && op.starts <= 1 && op.moves <= op.starts && AllSpokenFor(prefix, op) && op.phase != Concluded
    && (op.spec.kind == Autonomy ==> op.moves == 0 && (outcome == Succeeded ==> op.starts == 1))
  }

  lemma {:induction false} EndedFine(r: Rules, w: World, u: Uid, outcome: Outcome, v: Verification)
    requires Has(w, u) && FineBut(r.prefix, w.book, w.tasks, u) && Idle(w, u) && Ending(r.prefix, w.book[u], outcome)
    ensures var w' := Ended(r, w, u, outcome, v); FineBut(r.prefix, w'.book, w'.tasks, 0) && Kept(w, w', u)
  {
    var w' := Ended(r, w, u, outcome, v);
    EndedStands(r.prefix, w.stages[w.book[u].spec.stage], w.book[u], outcome);
    forall x | x in w'.book ensures Fine(r.prefix, w'.book, w'.tasks, x) {
      if x != u {
        assert Fine(r.prefix, w.book, w.tasks, x) && w'.book[x] == w.book[x];
      }
    }
  }

  lemma {:induction false} EndedStands(prefix: string, st: Stage, op: Op, outcome: Outcome)
    requires Ending(prefix, op, outcome)
    ensures Stands(ConcludedOp(st, op, outcome), 0, 0) && Told(prefix, ConcludedOp(st, op, outcome))
  {
  }

  lemma {:induction false} ReplannedFine(prefix: string, book: map<Uid, Op>, book': map<Uid, Op>, tasks: multiset<Task>, but: Uid)
    requires FineBut(prefix, book, tasks, but) && OnlyPlans(book, book')
    ensures FineBut(prefix, book', tasks, but)
  {
    forall u | u in book' && u != but ensures Fine(prefix, book', tasks, u) {
      assert Fine(prefix, book, tasks, u) && SameButPlan(book[u], book'[u]);
    }
  }

  lemma {:induction false} ConcludedWindow(r: Rules, st: Stage, op: Op, u: Uid, outcome: Outcome, v: Verification)
    requires Window(st)
    ensures Window(ConcludedStage(r, st, op, u, outcome, v))
  {
  }

  lemma {:induction false} ConcludedFiled(r: Rules, st: Stage, s: Stream, op: Op, u: Uid, outcome: Outcome, v: Verification, x: Statement)
    requires Filed(st, Some(s)) && x.num == |s.recs| + 1 && x.parent == st.head && x.op == u
    ensures Filed(ConcludedStage(r, st, op, u, outcome, v).(head := r.id(x), recordedSeq := x.num),
                  Some(s.(recs := s.recs + [Stored(r.id(x), x)])))
  {
    ConcludedWindow(r, st, op, u, outcome, v);
    ChainedGrows(s.recs, Stored(r.id(x), x));
  }

  lemma {:induction false} ChainedGrows(recs: seq<Stored>, x: Stored)
    requires Chained(recs) && x.statement.num == |recs| + 1 && x.statement.parent == Head(recs)
    ensures Chained(recs + [x])
  {
    var recs' := recs + [x];
    forall i | 0 <= i < |recs'| ensures Linked(recs', i) {
      assert recs'[..i] == recs[..i];
      if i == |recs| {
        assert recs[..i] == recs;
      } else {
        assert Linked(recs, i);
      }
    }
  }

  lemma {:induction false} HistoryPut(stages: map<Key, Stage>, streams: map<Key, Stream>, k: Key, st: Stage, streams': map<Key, Stream>)
    requires History(stages, streams) && k in stages && Filed(st, StreamOf(streams', k))
    requires forall x | x != k :: StreamOf(streams', x) == StreamOf(streams, x)
    ensures History(stages[k := st], streams')
  {
    forall x | x in streams' ensures x in stages {
      assert x != k ==> StreamOf(streams', x) == StreamOf(streams, x);
    }
  }

  lemma {:induction false} EndedHistory(r: Rules, w: World, u: Uid, outcome: Outcome, v: Verification)
    requires Has(w, u) && History(w.stages, w.streams)
    ensures var w' := Recorded(r, Ended(r, w, u, outcome, v), u); History(w'.stages, w'.streams)
  {
    var op := w.book[u];
    var k := op.spec.stage;
    var w1 := Ended(r, w, u, outcome, v);
    assert Filed(w.stages[k], StreamOf(w.streams, k));
    if k in w.streams {
      var x := Statement(Next(w1, k), w1.stages[k].head, u, w1.book[u].before, w1.book[u].after, 0);
      ConcludedFiled(r, w.stages[k], w.streams[k], op, u, outcome, v, x);
      var w' := Store(r, w1, k, x, true);
      HistoryPut(w.stages, w.streams, k, w'.stages[k], w'.streams);
      assert w'.stages == w.stages[k := w'.stages[k]];
    } else {
      ConcludedWindow(r, w.stages[k], op, u, outcome, v);
      HistoryPut(w.stages, w.streams, k, w1.stages[k], w.streams);
    }
  }

  lemma {:induction false} ConcludeFine(r: Rules, w: World, u: Uid, outcome: Outcome, v: Verification)
    requires Sane(w) && FineBut(r.prefix, w.book, w.tasks, u) && u in w.book && Idle(w, u) && Ending(r.prefix, w.book[u], outcome)
    ensures var w' := Conclude(r, w, u, outcome, v); FineBut(r.prefix, w'.book, w'.tasks, 0) && Kept(w, w', u) && w'.listed == w.listed
  {
    EndedFine(r, w, u, outcome, v);
    var w1 := Recorded(r, Ended(r, w, u, outcome, v), u);
    ReplannedFine(r.prefix, w1.book, Replan(r, w1, w1.listed).book, w1.tasks, 0);
  }

  lemma {:induction false} ConcludeBound(r: Rules, w: World, u: Uid, outcome: Outcome, v: Verification)
    requires Sane(w) && AllBound(w.book) && u in w.book && w.book[u].phase != Concluded
    ensures AllBound(Conclude(r, w, u, outcome, v).book)
  {
    var w1 := Ended(r, w, u, outcome, v);
    var w2 := Recorded(r, w1, u);
    var w3 := Replan(r, w2, w2.listed);
    forall x | x in w.book ensures Steady(w.book[x], w3.book[x]) {
      assert SameButPlan(w2.book[x], w3.book[x]);
      assert x != u ==> w1.book[x] == w.book[x];
    }
    BoundKept(w.book, w3.book);
  }

  lemma {:induction false} ConcludeGood(r: Rules, w: World, u: Uid, outcome: Outcome, v: Verification)
    requires Good(r, w, u) && u in w.book && Idle(w, u) && Ending(r.prefix, w.book[u], outcome)
    ensures var w' := Conclude(r, w, u, outcome, v); Good(r, w', 0) && Kept(w, w', u)
  {
    ConcludeFine(r, w, u, outcome, v);
    EndedHistory(r, w, u, outcome, v);
    ConcludeBound(r, w, u, outcome, v);
  }

  // ---- starting, applying, admitting ----------------------------------------------------------------------------

  predicate Ready(prefix: string, op: Op) {
    op.starts == 0 && op.moves == 0 && op.ends == 0 && !op.applied && AllSpokenFor(prefix, op) && op.phase != Concluded
  }

  predicate Launched(prefix: string, op: Op) {
    && op.phase == Running && op.starts == 1 && op.moves == 0 && op.ends == 0 && !op.applied && op.spec.kind != Autonomy
    && AllSpokenFor(prefix, op)
  }

  predicate Released(prefix: string, op: Op) {
    && op.phase == Verifying && op.starts == 1 && op.moves == 1 && op.ends == 0 && op.applied && op.spec.kind != Autonomy
    && AllSpokenFor(prefix, op)
  }

  /** Of all operations only `u` and what is queued for it changed. */
  ghost predicate Focused(w: World, w': World, u: Uid) {
    && w'.book.Keys == w.book.Keys && w'.listed == w.listed && w'.n >= w.n
    && (forall x | x in w.book && x != u :: w'.book[x] == w.book[x])
    && (forall x | x != u :: w'.tasks[ToApply(x)] == w.tasks[ToApply(x)] && w'.tasks[ToVerify(x)] == w.tasks[ToVerify(x)])
  }

  lemma {:induction false} FocusGood(r: Rules, w: World, w': World, u: Uid)
    requires Good(r, w, u) && u in w.book && Sane(w') && Focused(w, w', u) && History(w'.stages, w'.streams)
    requires Steady(w.book[u], w'.book[u])
    ensures Good(r, w', u) && Kept(w, w', u)
  {
    forall x | x in w'.book && x != u ensures Fine(r.prefix, w'.book, w'.tasks, x) {
      assert Fine(r.prefix, w.book, w.tasks, x);
    }
    forall x | x in w.book ensures Steady(w.book[x], w'.book[x]) {
      assert x != u ==> w'.book[x] == w.book[x];
    }
    BoundKept(w.book, w'.book);
    forall x | ToApply(x) in w'.tasks || ToVerify(x) in w'.tasks ensures x in w'.book {
      if x != u {
        assert ToApply(x) in w.tasks || ToVerify(x) in w.tasks;
      }
    }
  }

  lemma {:induction false} Completes(r: Rules, w: World, u: Uid)
    requires Good(r, w, u) && u in w.book && Fine(r.prefix, w.book, w.tasks, u)
    ensures Good(r, w, 0)
  {
  }

  lemma {:induction false} KeptThrough(w: World, w1: World, w2: World, u: Uid, but: Uid)
    requires Kept(w, w1, u) && Kept(w1, w2, but) && (but == u || but !in w.book)
    ensures Kept(w, w2, u)
  {
  }

  lemma {:induction false} StartedGood(r: Rules, w: World, u: Uid)
    requires Good(r, w, u) && u in w.book && Idle(w, u) && Ready(r.prefix, w.book[u])
    ensures var w' := Started(w, u); Good(r, w', u) && Kept(w, w', u) && Idle(w', u)
    ensures var op' := Started(w, u).book[u];
            if op'.spec.kind == Autonomy then Ending(r.prefix, op', Succeeded) else Launched(r.prefix, op')
  {
    FocusGood(r, w, Started(w, u), u);
  }

  lemma {:induction false} AppliedFiled(r: Rules, st: Stage, s: Option<Stream>, op: Op, u: Uid)
    requires Filed(st, s)
    ensures Filed(AppliedStage(r, st, op, u), s)
  {
  }

  lemma {:induction false} AppliedHistory(r: Rules, w: World, u: Uid)
    requires Sane(w) && u in w.book && History(w.stages, w.streams)
    ensures History(Apply(r, w, u).stages, Apply(r, w, u).streams)
  {
    var op := w.book[u];
    var k := op.spec.stage;
    AppliedFiled(r, w.stages[k], StreamOf(w.streams, k), op, u);
    HistoryPut(w.stages, w.streams, k, AppliedStage(r, w.stages[k], op, u), w.streams);
  }

  lemma {:induction false} AppliedReleased(prefix: string, st: Stage, op: Op)
    requires Launched(prefix, op)
    ensures Released(prefix, AppliedOp(st, op))
  {
  }

  lemma {:induction false} AppliedFocused(r: Rules, w: World, u: Uid)
    requires Sane(w) && u in w.book && !w.book[u].applied
    ensures Focused(w, Apply(r, w, u), u) && Steady(w.book[u], Apply(r, w, u).book[u])
  {
  }

  lemma {:induction false} AppliedGood(r: Rules, w: World, u: Uid)
    requires Good(r, w, u) && u in w.book && !w.book[u].applied
    ensures var w' := Apply(r, w, u); Good(r, w', u) && Kept(w, w', u)
  {
    AppliedHistory(r, w, u);
    AppliedFocused(r, w, u);
    FocusGood(r, w, Apply(r, w, u), u);
  }

  lemma {:induction false} QueuedGood(r: Rules, w: World, u: Uid, t: Task)
    requires Good(r, w, u) && u in w.book && Idle(w, u)
    requires (t == ToApply(u) && Launched(r.prefix, w.book[u])) || (t == ToVerify(u) && Released(r.prefix, w.book[u]))
    ensures var w' := w.(tasks := w.tasks + multiset{t}); Good(r, w', 0) && Kept(w, w', u)
  {
    var w' := w.(tasks := w.tasks + multiset{t});
    FocusGood(r, w, w', u);
    Completes(r, w', u);
  }

  lemma {:induction false} RestStands(prefix: string, op: Op, phase: Phase)
    requires (phase == Held && Released(prefix, op)) ||
             ((phase == Held || phase == Pending) && Ready(prefix, op) && op.answers == [] && op.plan.predicted != Rejects)
    ensures Stands(op.(phase := phase), 0, 0) && Told(prefix, op.(phase := phase))
  {
  }

  lemma {:induction false} RestGood(r: Rules, w: World, u: Uid, phase: Phase)
    requires Good(r, w, u) && u in w.book && Idle(w, u)
    requires (phase == Held && Released(r.prefix, w.book[u])) ||
             ((phase == Held || phase == Pending) && Ready(r.prefix, w.book[u]) && w.book[u].answers == [] && w.book[u].plan.predicted != Rejects)
    ensures var w' := Rests(w, u, phase); Good(r, w', 0) && Kept(w, w', u)
  {
    var w' := Rests(w, u, phase);
    RestStands(r.prefix, w.book[u], phase);
    assert Fine(r.prefix, w'.book, w'.tasks, u);
    FocusGood(r, w, w', u);
    Completes(r, w', u);
  }

  lemma {:induction false} AdmittedNew(r: Rules, w: World, req: Request, actor: User)
    requires Sane(w) && Admit(r, w, req, actor).Some?
    ensures var a := Admit(r, w, req, actor).value;
            && a.n == w.n + 1 && a.n !in w.book && a.n in a.book && Ready(r.prefix, a.book[a.n]) && a.book[a.n].answers == []
            && a.book[a.n].phase == Admitted
            && a == w.(n := a.n, book := w.book[a.n := a.book[a.n]], listed := w.listed + [a.n])
            && (req.kind == Rollback ==> Cites(a.book[a.n].spec, w.book))
  {
  }

  predicate Cites(spec: Spec, book: map<Uid, Op>) {
    && spec.undoes in book && book[spec.undoes].applied && spec.stage.ns == book[spec.undoes].spec.stage.ns
    && spec.from == book[spec.undoes].after && spec.to == book[spec.undoes].before && spec.to != ""
  }

  lemma {:induction false} AdmittedGood(r: Rules, w: World, req: Request, actor: User)
    requires Good(r, w, 0) && Admit(r, w, req, actor).Some?
    ensures var a := Admit(r, w, req, actor).value;
            Good(r, a, 0) && Kept(w, a, 0) && a.n !in w.book && Idle(a, a.n) && Ready(r.prefix, a.book[a.n]) && a.book[a.n].answers == []
  {
    var a := Admit(r, w, req, actor).value;
    AdmittedNew(r, w, req, actor);
    ListedGood(r, w, a, a.book[a.n]);
  }

  lemma {:induction false} ListedGood(r: Rules, w: World, a: World, op: Op)
    requires Good(r, w, 0) && Sane(a) && w.n + 1 !in w.book
    requires a == w.(n := w.n + 1, book := w.book[w.n + 1 := op], listed := w.listed + [w.n + 1])
    requires op.phase == Admitted && Ready(r.prefix, op) && op.answers == [] && (op.spec.kind == Rollback ==> Cites(op.spec, w.book))
    ensures Good(r, a, 0) && Kept(w, a, 0) && Idle(a, a.n)
  {
    forall x | x in a.book ensures Fine(r.prefix, a.book, a.tasks, x) {
      if x != a.n {
        assert Fine(r.prefix, w.book, w.tasks, x) && a.book[x] == w.book[x];
      }
    }
    ListedInOrder(w);
    ListedBound(r, w, op);
  }

  lemma {:induction false} ListedBound(r: Rules, w: World, op: Op)
    requires Good(r, w, 0) && w.n + 1 !in w.book && 0 !in w.book && !op.applied && (op.spec.kind == Rollback ==> Cites(op.spec, w.book))
    ensures AllBound(w.book[w.n + 1 := op])
  {
    var book' := w.book[w.n + 1 := op];
    forall u | u in book' ensures Bound(book', u) {
      if u != w.n + 1 {
        assert Bound(w.book, u);
      } else if op.spec.kind == Rollback {
        assert Fine(r.prefix, w.book, w.tasks, op.spec.undoes);
      }
    }
  }

  lemma {:induction false} ListedInOrder(w: World)
    requires Sane(w) && InOrder(w.listed)
    ensures InOrder(w.listed + [w.n + 1])
  {
  }

  // ---- the promoter's moves, however deep they nest ------------------------------------------------------------

  lemma {:induction false} EnactGood(r: Rules, w: World, u: Uid)
    requires Good(r, w, 0) && u in w.book && Idle(w, u) && Ready(r.prefix, w.book[u]) && w.book[u].answers == []
    ensures var w' := Enact(r, w, u); Good(r, w', 0) && Kept(w, w', u)
    decreases Rank(w, u), 5
  {
    match w.book[u].plan.predicted
    case Rejects => ConcludeGood(r, w, u, Rejected, Unstated);
    case Holds => RestGood(r, w, u, Held);
    case Waits => RestGood(r, w, u, Pending);
    case Starts => StartGood(r, w, u);
  }

  lemma {:induction false} StartGood(r: Rules, w: World, u: Uid)
    requires Good(r, w, u) && u in w.book && Idle(w, u) && Ready(r.prefix, w.book[u])
    ensures var w' := Start(r, w, u); Good(r, w', 0) && Kept(w, w', u)
    decreases Rank(w, u), 4
  {
    var w1 := Started(w, u);
    StartedGood(r, w, u);
    if w.book[u].spec.kind == Autonomy {
      ConcludeGood(r, w1, u, Succeeded, Unstated);
    } else if w.immediate {
      ApplyGood(r, w1, u);
    } else {
      QueuedGood(r, w1, u, ToApply(u));
    }
    KeptThrough(w, w1, Start(r, w, u), u, u);
  }

  lemma {:induction false} ApplyGood(r: Rules, w: World, u: Uid)
    requires Good(r, w, u) && u in w.book && Idle(w, u) && Launched(r.prefix, w.book[u])
    ensures var w' := FireApply(r, w, u); Good(r, w', 0) && Kept(w, w', u)
    decreases Rank(w, u), 3
  {
    var w1 := Apply(r, w, u);
    AppliedGood(r, w, u);
    AppliedReleased(r.prefix, w.stages[w.book[u].spec.stage], w.book[u]);
    if w.immediate {
      VerifyGood(r, w1, u);
    } else {
      QueuedGood(r, w1, u, ToVerify(u));
    }
    KeptThrough(w, w1, FireApply(r, w, u), u, u);
  }

  lemma {:induction false} VerifyGood(r: Rules, w: World, u: Uid)
    requires Good(r, w, u) && u in w.book && Idle(w, u) && Released(r.prefix, w.book[u])
    ensures var w' := FireVerify(r, w, u); Good(r, w', 0) && Kept(w, w', u)
    decreases Rank(w, u), 2
  {
    match r.check(w, u)
    case Fail => FailGood(r, w, u);
    case Unknown => RestGood(r, w, u, Held);
    case Pass => ConcludeGood(r, w, u, Succeeded, Verified);
  }

  lemma {:induction false} FailGood(r: Rules, w: World, u: Uid)
    requires Good(r, w, u) && u in w.book && Idle(w, u) && Released(r.prefix, w.book[u])
    ensures var w' := RollBack(r, Conclude(r, w, u, Failed, Unverified), u, true); Good(r, w', 0) && Kept(w, w', u)
    decreases Rank(w, u), 1, 1
  {
    var w1 := Conclude(r, w, u, Failed, Unverified);
    FailedGood(r, w, u);
    RollBackGood(r, w1, u, true);
    KeptThrough(w, w1, RollBack(r, w1, u, true), u, 0);
  }

  lemma {:induction false} FailedGood(r: Rules, w: World, u: Uid)
    requires Good(r, w, u) && u in w.book && Idle(w, u) && Released(r.prefix, w.book[u])
    ensures var w' := Conclude(r, w, u, Failed, Unverified);
            Good(r, w', 0) && Kept(w, w', u) && u in w'.book && 0 !in w.book && Rank(w', u) == Rank(w, u)
  {
    ConcludeGood(r, w, u, Failed, Unverified);
  }

  lemma {:induction false} UndoIsShallow(r: Rules, w: World, u: Uid, caused: bool)
    requires Sane(w) && u in w.book
    ensures Depth(r, w, Undo(w, u, caused), PROMOTER) < Rank(w, u)
  {
  }

  lemma {:induction false} RollBackGood(r: Rules, w: World, u: Uid, caused: bool)
    requires Good(r, w, 0) && u in w.book
    ensures var w' := RollBack(r, w, u, caused); Good(r, w', 0) && Kept(w, w', 0)
    decreases Rank(w, u), 1, 0
  {
    var w1 := w;
    if w.book[u].before != "" {
      UndoIsShallow(r, w, u, caused);
      ProposeGood(r, w, Undo(w, u, caused), PROMOTER);
      w1 := Propose(r, w, Undo(w, u, caused), PROMOTER);
    }
    StepDownGood(r, w1, u, caused);
    KeptThrough(w, w1, StepDown(r, w1, u, caused), 0, 0);
  }

  lemma {:induction false} StepDownGood(r: Rules, w: World, u: Uid, caused: bool)
    requires Good(r, w, 0) && u in w.book
    ensures var w' := StepDown(r, w, u, caused); Good(r, w', 0) && Kept(w, w', 0)
    decreases Rank(w, u), 0
  {
    if StepsDown(r, w, u, caused) {
      ProposeGood(r, w, StepDownOf(r, w, u), PROMOTER);
    }
  }

  lemma {:induction false} ProposeGood(r: Rules, w: World, req: Request, actor: User)
    requires Good(r, w, 0)
    ensures var w' := Propose(r, w, req, actor); Good(r, w', 0) && Kept(w, w', 0)
    decreases Depth(r, w, req, actor), 6
  {
    if Admit(r, w, req, actor).Some? {
      var a := Admit(r, w, req, actor).value;
      AdmittedGood(r, w, req, actor);
      EnactGood(r, a, a.n);
      KeptThrough(w, a, Enact(r, a, a.n), 0, a.n);
    }
  }
}
