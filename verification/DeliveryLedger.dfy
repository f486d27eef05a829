/**
 What the world's books say of its Stages, kept by every step of the promoter: whose conclusion is
 whose, which operation moved a pointer, and that a Stage only ever runs its own service's versions.
 */
module DeliveryLedger {
  import opened Basics
  import opened Delivery
  import opened Versions

  // ---- one Stage ------------------------------------------------------------------------------------

  /** Only versions of the Stage's own service. */
  predicate Home(r: Rules, k: Key, st: Stage) {
    (st.pointer == "" || Known(r.registry, k.name, st.pointer)) && (st.observed.Some? ==> Known(r.registry, k.name, st.observed.value))
  }

  predicate OpHome(r: Rules, op: Op) {
    && (op.spec.kind != Autonomy ==> Known(r.registry, op.spec.stage.name, op.spec.to) && (op.applied ==> op.after == op.spec.to))
    && (op.before == "" || Known(r.registry, op.spec.stage.name, op.before))
  }

  /** The operation a Stage names as its last is one of its own that was applied. */
  predicate LastApplied(book: map<Uid, Op>, k: Key, st: Stage) {
    st.lastOp == 0 || (st.lastOp in book && book[st.lastOp].spec.stage == k && book[st.lastOp].applied)
  }

  predicate EndedHere(book: map<Uid, Op>, k: Key, u: Uid) {
    u in book && book[u].spec.stage == k && book[u].phase == Concluded
  }

  predicate Occurs(cs: seq<Conclusion>, u: Uid) {
    exists i :: 0 <= i < |cs| && cs[i].uid == u
  }

  ghost predicate OccurOnce(cs: seq<Conclusion>) {
    forall i, j | 0 <= i < j < |cs| :: cs[i].uid != cs[j].uid
  }

  /** A Stage's conclusions are those of its concluded operations, one each. */
  ghost predicate Tells(book: map<Uid, Op>, k: Key, cs: seq<Conclusion>) {
    OccurOnce(cs) && forall u :: Occurs(cs, u) <==> EndedHere(book, k, u)
  }

  ghost predicate Keeps(r: Rules, book: map<Uid, Op>, k: Key, st: Stage) {
    Home(r, k, st) && LastApplied(book, k, st) && Tells(book, k, st.ever)
  }

  /** A record is a gap's, or says of its concluded operation where the Stage was and where it went. */
  predicate Copied(book: map<Uid, Op>, x: Statement) {
    if x.op == 0 then x.before == "" && x.after == ""
    else x.op in book && book[x.op].phase == Concluded && x.before == book[x.op].before && x.after == book[x.op].after
  }

  ghost predicate Copies(book: map<Uid, Op>, recs: seq<Stored>) {
    forall i | 0 <= i < |recs| :: Copied(book, recs[i].statement)
  }

  ghost predicate AllCopied(book: map<Uid, Op>, streams: map<Key, Stream>) {
    forall k {:trigger Copies(book, streams[k].recs)} | k in streams :: Copies(book, streams[k].recs)
  }

  ghost predicate Ledger(r: Rules, w: World) {
    && Sane(w) && AllCopied(w.book, w.streams)
    && (forall u {:trigger OpHome(r, w.book[u])} | u in w.book :: OpHome(r, w.book[u]))
    && (forall k {:trigger Keeps(r, w.book, k, w.stages[k])} | k in w.stages :: Keeps(r, w.book, k, w.stages[k]))
  }

  // ---- who moved what -----------------------------------------------------------------------------------

  /** `u`, an operation of Stage `k`, counted a move of its pointer. */
  predicate Mover(w: World, w': World, k: Key, u: Uid) {
    u in w'.book && w'.book[u].spec.stage == k && w'.book[u].moves > if u in w.book then w.book[u].moves else 0
  }

  ghost predicate StageAccounted(w: World, w': World, k: Key)
    requires k in w.stages && k in w'.stages
  {
    && (w'.stages[k].pointer == w.stages[k].pointer || exists u :: Mover(w, w', k, u))
    && (w'.stages[k].lastOp == w.stages[k].lastOp || Mover(w, w', k, w'.stages[k].lastOp))
    && w.stages[k].ever <= w'.stages[k].ever
  }

  predicate OpGrows(op: Op, op': Op) {
    op'.spec == op.spec && op.starts <= op'.starts && op.moves <= op'.moves && op.ends <= op'.ends
  }

  /** A Stage's pointer is changed only by an operation of that Stage that counts it, and no conclusion is taken back. */
  ghost predicate Accounted(w: World, w': World) {
    && (forall u | u in w.book :: u in w'.book && OpGrows(w.book[u], w'.book[u]))
    && (forall k | k in w.stages :: k in w'.stages && StageAccounted(w, w', k))
  }

  lemma {:induction false} AccountedThrough(w: World, w1: World, w2: World)
    requires Accounted(w, w1) && Accounted(w1, w2)
    ensures Accounted(w, w2)
  {
    forall u | u in w.book ensures u in w2.book && OpGrows(w.book[u], w2.book[u]) {
      assert OpGrows(w.book[u], w1.book[u]) && OpGrows(w1.book[u], w2.book[u]);
    }
    forall k | k in w.stages ensures k in w2.stages && StageAccounted(w, w2, k) {
      assert StageAccounted(w, w1, k) && StageAccounted(w1, w2, k);
      StageThrough(w, w1, w2, k);
    }
  }

  lemma {:induction false} MoverThrough(w: World, w1: World, w2: World, k: Key, u: Uid)
    requires Accounted(w, w1) && Accounted(w1, w2) && (Mover(w, w1, k, u) || Mover(w1, w2, k, u))
    ensures Mover(w, w2, k, u)
  {
    if u in w1.book {
      assert OpGrows(w1.book[u], w2.book[u]);
    }
    if u in w.book {
      assert OpGrows(w.book[u], w1.book[u]);
    }
  }

  lemma {:induction false} StageThrough(w: World, w1: World, w2: World, k: Key)
    requires Accounted(w, w1) && Accounted(w1, w2)
    requires k in w.stages && k in w1.stages && k in w2.stages && StageAccounted(w, w1, k) && StageAccounted(w1, w2, k)
    ensures StageAccounted(w, w2, k)
  {
    if w1.stages[k].pointer != w.stages[k].pointer {
      var u :| Mover(w, w1, k, u);
      MoverThrough(w, w1, w2, k, u);
    } else if w2.stages[k].pointer != w1.stages[k].pointer {
      var u :| Mover(w1, w2, k, u);
      MoverThrough(w, w1, w2, k, u);
    }
    if w2.stages[k].lastOp != w1.stages[k].lastOp {
      MoverThrough(w, w1, w2, k, w2.stages[k].lastOp);
    } else if w1.stages[k].lastOp != w.stages[k].lastOp {
      MoverThrough(w, w1, w2, k, w1.stages[k].lastOp);
    }
  }

  // ---- each move of the promoter ------------------------------------------------------------------------

  /** What the ledger reads of an operation is the same, or it became applied. */
  predicate Alike(op: Op, op': Op) {
    && op'.spec == op.spec && op'.before == op.before && op'.after == op.after
    && op.starts <= op'.starts && op'.moves == op.moves && op'.ends == op.ends
    && (op'.phase == Concluded <==> op.phase == Concluded) && (op.applied ==> op'.applied) && (op'.applied ==> op.applied || op.spec.kind == Autonomy)
  }

  lemma {:induction false} AlikeKeeps(r: Rules, book: map<Uid, Op>, book': map<Uid, Op>, k: Key, st: Stage)
    requires Keeps(r, book, k, st) && book'.Keys == book.Keys && forall u | u in book :: Alike(book[u], book'[u])
    ensures Keeps(r, book', k, st)
  {
    forall u ensures EndedHere(book, k, u) <==> EndedHere(book', k, u) {
      if u in book {
        assert Alike(book[u], book'[u]);
      }
    }
  }

  /** Concluded operations stay as they are. */
  ghost predicate Finished(book: map<Uid, Op>, book': map<Uid, Op>) {
    forall u | u in book && book[u].phase == Concluded ::
      u in book' && book'[u].phase == Concluded && book'[u].before == book[u].before && book'[u].after == book[u].after
  }

  predicate SameRecs(streams: map<Key, Stream>, streams': map<Key, Stream>) {
    streams'.Keys == streams.Keys && forall k | k in streams :: streams'[k].recs == streams[k].recs
  }

  lemma {:induction false} FinishedCopied(book: map<Uid, Op>, book': map<Uid, Op>, streams: map<Key, Stream>, streams': map<Key, Stream>)
    requires AllCopied(book, streams) && Finished(book, book') && SameRecs(streams, streams')
    ensures AllCopied(book', streams')
  {
    forall k | k in streams' ensures Copies(book', streams'[k].recs) {
      assert Copies(book, streams[k].recs);
    }
  }

  lemma {:induction false} AlikeLedger(r: Rules, w: World, w': World)
    requires Ledger(r, w) && Sane(w') && w'.stages == w.stages && w'.book.Keys == w.book.Keys && SameRecs(w.streams, w'.streams)
    requires forall u | u in w.book :: Alike(w.book[u], w'.book[u])
    ensures Ledger(r, w') && Accounted(w, w')
  {
    forall k | k in w'.stages ensures Keeps(r, w'.book, k, w'.stages[k]) {
      AlikeKeeps(r, w.book, w'.book, k, w.stages[k]);
    }
    forall u | u in w'.book ensures OpHome(r, w'.book[u]) {
      assert OpHome(r, w.book[u]) && Alike(w.book[u], w'.book[u]);
    }
    AlikeFinished(w.book, w'.book);
    FinishedCopied(w.book, w'.book, w.streams, w'.streams);
  }

  lemma {:induction false} AlikeFinished(book: map<Uid, Op>, book': map<Uid, Op>)
    requires book'.Keys == book.Keys && forall u | u in book :: Alike(book[u], book'[u])
    ensures Finished(book, book')
  {
    forall u | u in book ensures Alike(book[u], book'[u]) {
    }
  }

  lemma {:induction false} QueuedLedger(r: Rules, w: World, t: Task)
    requires Ledger(r, w)
    ensures var w' := w.(tasks := w.tasks + multiset{t}); Ledger(r, w') && Accounted(w, w')
  {
    AlikeLedger(r, w, w.(tasks := w.tasks + multiset{t}));
  }

  /** Stages that differ in what the ledger does not read. */
  predicate SameStage(st: Stage, st': Stage) {
    st'.pointer == st.pointer && st'.observed == st.observed && st'.lastOp == st.lastOp && st'.ever == st.ever
  }

  lemma {:induction false} SameStagesLedger(r: Rules, w: World, w': World)
    requires Ledger(r, w) && Sane(w') && w'.book == w.book && w'.stages.Keys == w.stages.Keys && AllCopied(w'.book, w'.streams)
    requires forall k | k in w.stages :: SameStage(w.stages[k], w'.stages[k])
    ensures Ledger(r, w') && Accounted(w, w')
  {
    forall k | k in w'.stages ensures Keeps(r, w'.book, k, w'.stages[k]) {
      assert Keeps(r, w.book, k, w.stages[k]) && SameStage(w.stages[k], w'.stages[k]);
    }
  }

  lemma {:induction false} EndedTells(book: map<Uid, Op>, book': map<Uid, Op>, k: Key, cs: seq<Conclusion>, u: Uid, c: Conclusion)
    requires Tells(book, k, cs) && u in book && book[u].spec.stage == k && book[u].phase != Concluded && c.uid == u
    requires u in book' && book' == book[u := book'[u]] && book'[u].spec == book[u].spec && book'[u].phase == Concluded
    ensures Tells(book', k, cs + [c])
  {
    var cs' := cs + [c];
    assert !Occurs(cs, u);
    forall x ensures Occurs(cs', x) <==> EndedHere(book', k, x) {
      assert Occurs(cs', x) <==> Occurs(cs, x) || x == u by {
        if Occurs(cs, x) {
          var i :| 0 <= i < |cs| && cs[i].uid == x;
          assert cs'[i].uid == x;
        }
        assert cs'[|cs|] == c;
      }
    }
    forall i, j | 0 <= i < j < |cs'| ensures cs'[i].uid != cs'[j].uid {
      assert Occurs(cs, cs'[i].uid);
    }
  }

  lemma {:induction false} EndedHome(r: Rules, k: Key, st: Stage, op: Op, u: Uid, outcome: Outcome, v: Verification)
    requires Home(r, k, st)
    ensures Home(r, k, ConcludedStage(r, st, op, u, outcome, v))
  {
  }

  lemma {:induction false} EndedLast(book: map<Uid, Op>, book': map<Uid, Op>, k: Key, st: Stage, u: Uid)
    requires LastApplied(book, k, st) && u in book && u in book' && book' == book[u := book'[u]]
    requires book'[u].spec == book[u].spec && book'[u].applied == book[u].applied
    ensures LastApplied(book', k, st)
  {
  }

  lemma {:induction false} EndedKeeps(r: Rules, w: World, u: Uid, outcome: Outcome, v: Verification, k: Key)
    requires Ledger(r, w) && u in w.book && w.book[u].phase != Concluded && k in w.stages
    ensures var w' := Ended(r, w, u, outcome, v); Keeps(r, w'.book, k, w'.stages[k])
  {
    var w' := Ended(r, w, u, outcome, v);
    var op, st := w.book[u], w.stages[k];
    assert Keeps(r, w.book, k, st);
    EndedLast(w.book, w'.book, k, st, u);
    if k == op.spec.stage {
      EndedHome(r, k, st, op, u, outcome, v);
      EndedTells(w.book, w'.book, k, st.ever, u, Conclusion(u, st.num + 1, outcome, v));
    } else {
      OtherTells(w.book, w'.book, k, st.ever, u);
    }
  }

  lemma {:induction false} OtherTells(book: map<Uid, Op>, book': map<Uid, Op>, k: Key, cs: seq<Conclusion>, u: Uid)
    requires Tells(book, k, cs) && u in book && book[u].spec.stage != k
    requires u in book' && book' == book[u := book'[u]] && book'[u].spec == book[u].spec
    ensures Tells(book', k, cs)
  {
    forall x ensures EndedHere(book, k, x) <==> EndedHere(book', k, x) {
    }
  }

  lemma {:induction false} EndedLedger(r: Rules, w: World, u: Uid, outcome: Outcome, v: Verification)
    requires Ledger(r, w) && u in w.book && w.book[u].phase != Concluded
    ensures var w' := Ended(r, w, u, outcome, v); Ledger(r, w') && Accounted(w, w')
  {
    var w' := Ended(r, w, u, outcome, v);
    forall x | x in w'.stages ensures Keeps(r, w'.book, x, w'.stages[x]) {
      EndedKeeps(r, w, u, outcome, v, x);
    }
    EndedOps(r, w, u, outcome, v);
    EndedAccounted(r, w, u, outcome, v);
    EndedCopied(r, w, u, outcome, v);
  }

  lemma {:induction false} EndedOps(r: Rules, w: World, u: Uid, outcome: Outcome, v: Verification)
    requires Ledger(r, w) && u in w.book
    ensures var w' := Ended(r, w, u, outcome, v); forall x | x in w'.book :: OpHome(r, w'.book[x])
  {
    var k := w.book[u].spec.stage;
    assert Keeps(r, w.book, k, w.stages[k]);
    forall x | x in w.book ensures OpHome(r, w.book[x]) {
    }
  }

  lemma {:induction false} EndedCopied(r: Rules, w: World, u: Uid, outcome: Outcome, v: Verification)
    requires Has(w, u) && AllCopied(w.book, w.streams) && w.book[u].phase != Concluded
    ensures var w' := Ended(r, w, u, outcome, v); AllCopied(w'.book, w'.streams)
  {
    var w' := Ended(r, w, u, outcome, v);
    assert Finished(w.book, w'.book);
    FinishedCopied(w.book, w'.book, w.streams, w'.streams);
  }

  lemma {:induction false} EndedAccounted(r: Rules, w: World, u: Uid, outcome: Outcome, v: Verification)
    requires Has(w, u)
    ensures Accounted(w, Ended(r, w, u, outcome, v))
  {
    var w' := Ended(r, w, u, outcome, v);
    forall k | k in w.stages ensures StageAccounted(w, w', k) {
      assert k == w.book[u].spec.stage && w'.stages[k].pointer != w.stages[k].pointer ==> Mover(w, w', k, u);
    }
  }

  lemma {:induction false} ConcludeLedger(r: Rules, w: World, u: Uid, outcome: Outcome, v: Verification)
    requires Ledger(r, w) && u in w.book && w.book[u].phase != Concluded
    ensures var w' := Conclude(r, w, u, outcome, v); Ledger(r, w') && Accounted(w, w')
  {
    var w1 := Ended(r, w, u, outcome, v);
    var w2 := Recorded(r, w1, u);
    var w3 := Replan(r, w2, w2.listed);
    EndedLedger(r, w, u, outcome, v);
    RecordedLedger(r, w1, u);
    ReplanLedger(r, w2);
    AccountedThrough(w, w1, w2);
    AccountedThrough(w, w2, w3);
  }

  lemma {:induction false} StoredCopied(book: map<Uid, Op>, streams: map<Key, Stream>, k: Key, s: Stream, x: Stored)
    requires AllCopied(book, streams) && k in streams && Copied(book, x.statement) && s.recs == streams[k].recs + [x]
    ensures AllCopied(book, streams[k := s])
  {
    assert Copies(book, streams[k].recs);
    var streams' := streams[k := s];
    forall j | j in streams' ensures Copies(book, streams'[j].recs) {
      assert j != k ==> Copies(book, streams[j].recs);
    }
  }

  lemma {:induction false} RecordedLedger(r: Rules, w: World, u: Uid)
    requires Ledger(r, w) && u in w.book && w.book[u].phase == Concluded
    ensures Ledger(r, Recorded(r, w, u)) && Accounted(w, Recorded(r, w, u))
  {
    var op, k := w.book[u], w.book[u].spec.stage;
    if k in w.streams {
      var x := Statement(Next(w, k), w.stages[k].head, u, op.before, op.after, 0);
      var s := w.streams[k];
      StoredCopied(w.book, w.streams, k, s.(recs := s.recs + [Stored(r.id(x), x)]), Stored(r.id(x), x));
    }
    SameStagesLedger(r, w, Recorded(r, w, u));
  }

  lemma {:induction false} ReplanLedger(r: Rules, w: World)
    requires Ledger(r, w)
    ensures var w' := Replan(r, w, w.listed); Ledger(r, w') && Accounted(w, w')
  {
    var w' := Replan(r, w, w.listed);
    forall u | u in w.book ensures Alike(w.book[u], w'.book[u]) {
      assert SameButPlan(w.book[u], w'.book[u]);
    }
    AlikeLedger(r, w, w');
  }

  lemma {:induction false} AppliedLedger(r: Rules, w: World, u: Uid)
    requires Ledger(r, w) && u in w.book && w.book[u].phase != Concluded && w.book[u].spec.kind != Autonomy
    ensures var w' := Apply(r, w, u); Ledger(r, w') && Accounted(w, w') && w'.book[u].phase != Concluded
  {
    var w' := Apply(r, w, u);
    AppliedOps(r, w, u);
    assert Finished(w.book, w'.book);
    FinishedCopied(w.book, w'.book, w.streams, w'.streams);
    forall x | x in w'.stages ensures Keeps(r, w'.book, x, w'.stages[x]) && StageAccounted(w, w', x) {
      AppliedKeeps(r, w, u, x);
    }
  }

  lemma {:induction false} AppliedOps(r: Rules, w: World, u: Uid)
    requires Ledger(r, w) && u in w.book && w.book[u].spec.kind != Autonomy
    ensures var w' := Apply(r, w, u);
            forall x | x in w'.book :: x in w.book && OpHome(r, w'.book[x]) && OpGrows(w.book[x], w'.book[x])
  {
    var k := w.book[u].spec.stage;
    assert Keeps(r, w.book, k, w.stages[k]) && OpHome(r, w.book[u]);
  }

  lemma {:induction false} AppliedKeeps(r: Rules, w: World, u: Uid, k: Key)
    requires Ledger(r, w) && u in w.book && w.book[u].phase != Concluded && w.book[u].spec.kind != Autonomy && k in w.stages
    ensures var w' := Apply(r, w, u); Keeps(r, w'.book, k, w'.stages[k]) && StageAccounted(w, w', k)
  {
    var w' := Apply(r, w, u);
    assert Keeps(r, w.book, k, w.stages[k]) && OpHome(r, w.book[u]);
    forall x ensures EndedHere(w.book, k, x) <==> EndedHere(w'.book, k, x) {
    }
    if k == w.book[u].spec.stage {
      assert Mover(w, w', k, u);
    }
  }

  lemma {:induction false} AdmittedLedger(r: Rules, w: World, req: Request, actor: User)
    requires Ledger(r, w) && Admit(r, w, req, actor).Some?
    ensures var a := Admit(r, w, req, actor).value; Ledger(r, a) && Accounted(w, a) && a.book[a.n].phase != Concluded
  {
    var a := Admit(r, w, req, actor).value;
    assert a.n !in w.book && a.book == w.book[a.n := a.book[a.n]] && a.stages == w.stages;
    assert Plannable(r, a.book[a.n].spec);
    assert Finished(w.book, a.book);
    FinishedCopied(w.book, a.book, w.streams, a.streams);
    forall k | k in a.stages ensures Keeps(r, a.book, k, a.stages[k]) {
      assert Keeps(r, w.book, k, w.stages[k]);
      forall x ensures EndedHere(w.book, k, x) <==> EndedHere(a.book, k, x) {
      }
    }
  }

  /** An operation not yet concluded comes to rest, starts or is answered. */
  lemma {:induction false} OneLedger(r: Rules, w: World, w': World, u: Uid)
    requires Ledger(r, w) && u in w.book && Sane(w') && w'.stages == w.stages && w'.streams == w.streams
    requires u in w'.book && w'.book == w.book[u := w'.book[u]] && Alike(w.book[u], w'.book[u])
    ensures Ledger(r, w') && Accounted(w, w')
  {
    AlikeLedger(r, w, w');
  }

  // ---- the promoter's moves, however deep they nest ---------------------------------------------------------

  lemma {:induction false} ProposeLedger(r: Rules, w: World, req: Request, actor: User)
    requires Ledger(r, w)
    ensures var w' := Propose(r, w, req, actor); Ledger(r, w') && Accounted(w, w')
    decreases Depth(r, w, req, actor), 6
  {
    if Admit(r, w, req, actor).Some? {
      var a := Admit(r, w, req, actor).value;
      AdmittedLedger(r, w, req, actor);
      EnactLedger(r, a, a.n);
      AccountedThrough(w, a, Enact(r, a, a.n));
    } else {
      AlikeLedger(r, w, w);
    }
  }

  lemma {:induction false} EnactLedger(r: Rules, w: World, u: Uid)
    requires Ledger(r, w) && u in w.book && w.book[u].phase != Concluded
    ensures var w' := Enact(r, w, u); Ledger(r, w') && Accounted(w, w')
    decreases Rank(w, u), 5
  {
    match w.book[u].plan.predicted
    case Rejects => ConcludeLedger(r, w, u, Rejected, Unstated);
    case Holds => OneLedger(r, w, Rests(w, u, Held), u);
    case Waits => OneLedger(r, w, Rests(w, u, Pending), u);
    case Starts => StartLedger(r, w, u);
  }

  lemma {:induction false} StartLedger(r: Rules, w: World, u: Uid)
    requires Ledger(r, w) && u in w.book && w.book[u].phase != Concluded
    ensures var w' := Start(r, w, u); Ledger(r, w') && Accounted(w, w')
    decreases Rank(w, u), 4
  {
    var w1 := Started(w, u);
    OneLedger(r, w, w1, u);
    if w.book[u].spec.kind == Autonomy {
      ConcludeLedger(r, w1, u, Succeeded, Unstated);
    } else if w.immediate {
      ApplyLedger(r, w1, u);
    } else {
      QueuedLedger(r, w1, ToApply(u));
    }
    AccountedThrough(w, w1, Start(r, w, u));
  }

  lemma {:induction false} ApplyLedger(r: Rules, w: World, u: Uid)
    requires Ledger(r, w) && u in w.book && w.book[u].phase != Concluded && w.book[u].spec.kind != Autonomy
    ensures var w' := FireApply(r, w, u); Ledger(r, w') && Accounted(w, w')
    decreases Rank(w, u), 3
  {
    var w1 := Apply(r, w, u);
    AppliedLedger(r, w, u);
    if w.immediate {
      VerifyLedger(r, w1, u);
    } else {
      QueuedLedger(r, w1, ToVerify(u));
    }
    AccountedThrough(w, w1, FireApply(r, w, u));
  }

  lemma {:induction false} VerifyLedger(r: Rules, w: World, u: Uid)
    requires Ledger(r, w) && u in w.book && w.book[u].phase != Concluded
    ensures var w' := FireVerify(r, w, u); Ledger(r, w') && Accounted(w, w')
    decreases Rank(w, u), 2
  {
    match r.check(w, u)
    case Fail =>
      var w1 := Conclude(r, w, u, Failed, Unverified);
      ConcludeLedger(r, w, u, Failed, Unverified);
      RollBackLedger(r, w1, u, true);
      AccountedThrough(w, w1, RollBack(r, w1, u, true));
    case Unknown => OneLedger(r, w, Rests(w, u, Held), u);
    case Pass => ConcludeLedger(r, w, u, Succeeded, Verified);
  }

  lemma {:induction false} RollBackLedger(r: Rules, w: World, u: Uid, caused: bool)
    requires Ledger(r, w) && u in w.book
    ensures var w' := RollBack(r, w, u, caused); Ledger(r, w') && Accounted(w, w')
    decreases Rank(w, u), 1
  {
    var w1 := w;
    if w.book[u].before != "" {
      ProposeLedger(r, w, Undo(w, u, caused), PROMOTER);
      w1 := Propose(r, w, Undo(w, u, caused), PROMOTER);
    } else {
      AlikeLedger(r, w, w);
    }
    StepDownLedger(r, w1, u, caused);
    AccountedThrough(w, w1, StepDown(r, w1, u, caused));
  }

  lemma {:induction false} StepDownLedger(r: Rules, w: World, u: Uid, caused: bool)
    requires Ledger(r, w) && u in w.book
    ensures var w' := StepDown(r, w, u, caused); Ledger(r, w') && Accounted(w, w')
    decreases Rank(w, u), 0
  {
    if StepsDown(r, w, u, caused) {
      ProposeLedger(r, w, StepDownOf(r, w, u), PROMOTER);
    } else {
      AlikeLedger(r, w, w);
    }
  }

  lemma {:induction false} DecideLedger(r: Rules, w: World, u: Uid, a: Answer)
    requires Ledger(r, w) && u in w.book && w.book[u].phase != Concluded
    ensures var w' := Decide(r, w, u, a); Ledger(r, w') && Accounted(w, w')
  {
    var w1 := Recount(r, w, u, a);
    var op := w1.book[u];
    OneLedger(r, w, w1, u);
    if a.decision != Reject && TeamsWaiting(op.plan.owners, op.approved) != [] {
      AlikeLedger(r, w1, w1);
    } else if a.decision == Reject && op.applied {
      var w2 := Conclude(r, w1, u, Failed, Unstated);
      ConcludeLedger(r, w1, u, Failed, Unstated);
      RollBackLedger(r, w2, u, false);
      AccountedThrough(w1, w2, RollBack(r, w2, u, false));
    } else if a.decision == Reject {
      ConcludeLedger(r, w1, u, Rejected, Unstated);
    } else if op.applied {
      ConcludeLedger(r, w1, u, Succeeded, AcceptedUnknown);
    } else {
      StartLedger(r, w1, u);
    }
    AccountedThrough(w, w1, Decide(r, w, u, a));
  }
}
