/**
 The depth-first walk of buildReferenceClosure (internal/app/lock_build.go:98-155), first as a
 function without the resolution memo and with its properties, then as the imperative walk
 with the memo, which computes the same result.
 */
module ReferenceWalk {
  import opened Basics
  import opened Contracts
  import opened LockFile
  import opened ReferenceGraph

  datatype Walk = Walk(walked: set<string>, seen: map<Occurrence, Reference>, out: seq<Reference>)

  const START := Walk({}, map[], [])

  /**
   The walk of one contract. The measure is the set of occurrences not yet seen: every descent
   first records a new one, so the walk ends on cycles and on unboundedly many routes.
   */
  ghost function WalkContract(w: World, n: Node, st: Walk, u: set<Occurrence>): (r: Result<Walk, BuildError>)
    requires Closed(w, u) && Occurrences(n.from, n.contract) <= u
    ensures r.Success? ==> st.seen.Keys <= r.value.seen.Keys
    decreases u - st.seen.Keys, |References(n.contract)| + 1
  {
    var dups := Duplicates(n.contract);
    if dups != [] then Failure(DuplicateDeclaration(Occurrence(n.from, dups[0].kind, dups[0].name)))
    else WalkFrom(w, n, 0, st, u)
  }

  /** The walk of declaration `i` of `n` and the ones after it. */
  ghost function WalkFrom(w: World, n: Node, i: nat, st: Walk, u: set<Occurrence>): (r: Result<Walk, BuildError>)
    requires Closed(w, u) && Occurrences(n.from, n.contract) <= u
    requires i <= |References(n.contract)|
    ensures r.Success? ==> st.seen.Keys <= r.value.seen.Keys
    decreases u - st.seen.Keys, |References(n.contract)| - i
  {
    if i == |References(n.contract)| then Success(st)
    else
      var d := References(n.contract)[i];
      match w.ask(n.dir, d.ref)
      case Failure(reason) => Failure(Unresolved(d.ref, reason))
      case Success(r) =>
        var entry := EntryFor(n.from, d, r);
        if entry.Occ() in st.seen then
          if st.seen[entry.Occ()] != entry then Failure(Ambiguous(entry.Occ(), st.seen[entry.Occ()], entry))
          else WalkFrom(w, n, i + 1, st, u)
        else
          assert entry.Occ() in Occurrences(n.from, n.contract);
          assert entry.Occ() in u - st.seen.Keys;
          var st1 := Record(st, entry);
          if r.identity in st.walked then WalkFrom(w, n, i + 1, st1, u)
          else
            var child := WalkContract(w, Target(r), Enter(st1, r.identity), u);
            if child.Failure? then child else WalkFrom(w, n, i + 1, child.value, u)
  }

  function Record(st: Walk, entry: Reference): Walk {
    st.(seen := st.seen[entry.Occ() := entry], out := st.out + [entry])
  }

  function Enter(st: Walk, identity: string): Walk {
    st.(walked := st.walked + {identity})
  }

  // ---- what a walk keeps -----------------------------------------------------

  /** `seen` is exactly an index of `out` by occurrence. */
  ghost predicate Indexed(st: Walk) {
    && DistinctOccurrences(st.out)
    && (forall e | e in st.out :: e.Occ() in st.seen && st.seen[e.Occ()] == e)
    && (forall o | o in st.seen :: st.seen[o] in st.out && st.seen[o].Occ() == o)
  }

  lemma RecordIndexed(st: Walk, entry: Reference)
    requires Indexed(st) && entry.Occ() !in st.seen
    ensures Indexed(Record(st, entry))
  {
  }

  /** A bundle whose identity was entered is a started node. */
  ghost predicate EnteredStarted(w: World, walked: set<string>, started: set<Node>) {
    forall dir, ref :: w.ask(dir, ref).Success? && w.ask(dir, ref).value.identity in walked ==>
                         Target(w.ask(dir, ref).value) in started
  }

  ghost predicate Led(started: set<Node>, id: string) {
    exists m :: m in started && m.from == id
  }

  /**
   The state of a walk from `root`: `started` are the nodes entered so far, `done` those whose
   every declaration is pinned. Whatever an entry points at has a started node of that content.
   */
  ghost predicate Keeps(w: World, root: Node, st: Walk, started: set<Node>, done: set<Node>) {
    && Indexed(st)
    && Declared(w, root, st.out)
    && EnteredStarted(w, st.walked, started)
    && AllReachable(w, root, started)
    && AllLed(started, st.out)
    && done <= started
    && AllPinned(w, done, st.out)
  }

  ghost predicate AllReachable(w: World, root: Node, nodes: set<Node>) {
    forall n | n in nodes :: Reachable(w, root, n)
  }

  ghost predicate AllLed(started: set<Node>, out: seq<Reference>) {
    forall e | e in out :: Led(started, e.DestinationID())
  }

  ghost predicate AllPinned(w: World, done: set<Node>, out: seq<Reference>) {
    forall n | n in done :: Pinned(w, n, out)
  }

  ghost predicate Grows(st: Walk, st': Walk) {
    st.out <= st'.out
  }

  lemma GrowsTransitive(a: Walk, b: Walk, c: Walk)
    requires Grows(a, b) && Grows(b, c)
    ensures Grows(a, c) && forall e | e in b.out :: e in c.out
  {
  }

  /** Recording a declaration of a reachable node whose target is a started node keeps the walk's state. */
  lemma RecordKeeps(w: World, root: Node, n: Node, i: nat, st: Walk, started: set<Node>, done: set<Node>, entry: Reference)
    requires Keeps(w, root, st, started, done)
    requires Reachable(w, root, n) && i < |References(n.contract)| && DeclaresAt(w, n, i, entry)
    requires entry.Occ() !in st.seen && Led(started, entry.DestinationID())
    ensures Keeps(w, root, Record(st, entry), started, done)
  {
    RecordIndexed(st, entry);
    RecordDeclared(w, root, n, i, st.out, entry);
    RecordLed(started, st.out, entry);
    RecordPinned(w, done, st.out, entry);
  }

  lemma RecordLed(started: set<Node>, out: seq<Reference>, entry: Reference)
    requires AllLed(started, out) && Led(started, entry.DestinationID())
    ensures AllLed(started, out + [entry])
  {
  }

  lemma RecordPinned(w: World, done: set<Node>, out: seq<Reference>, entry: Reference)
    requires AllPinned(w, done, out)
    ensures AllPinned(w, done, out + [entry])
  {
  }

  lemma RecordDeclared(w: World, root: Node, n: Node, i: nat, out: seq<Reference>, entry: Reference)
    requires Declared(w, root, out)
    requires Reachable(w, root, n) && i < |References(n.contract)| && DeclaresAt(w, n, i, entry)
    ensures Declared(w, root, out + [entry])
  {
  }

  lemma EnterKeeps(w: World, root: Node, dir: string, ref: string, st: Walk, started: set<Node>, done: set<Node>)
    requires Coherent(w) && Keeps(w, root, st, started, done)
    requires w.ask(dir, ref).Success?
    requires Reachable(w, root, Target(w.ask(dir, ref).value))
    ensures var r := w.ask(dir, ref).value;
            Keeps(w, root, Enter(st, r.identity), started + {Target(r)}, done)
  {
  }

  /** The declarations of `n` from `i` on are pinned in `out`. */
  ghost predicate PinnedFrom(w: World, n: Node, i: nat, out: seq<Reference>) {
    forall j | i <= j < |References(n.contract)| ::
      && w.ask(n.dir, References(n.contract)[j].ref).Success?
      && EntryFor(n.from, References(n.contract)[j], w.ask(n.dir, References(n.contract)[j].ref).value) in out
  }

  lemma PinnedNext(w: World, n: Node, i: nat, out: seq<Reference>, entry: Reference)
    requires i < |References(n.contract)| && DeclaresAt(w, n, i, entry)
    requires entry in out && PinnedFrom(w, n, i + 1, out)
    ensures PinnedFrom(w, n, i, out)
  {
  }

  /** The same declaration, reached again by another route, is pinned already. */
  lemma RepeatPinned(w: World, n: Node, i: nat, st: Walk, st': Walk)
    requires i < |References(n.contract)| && w.ask(n.dir, References(n.contract)[i].ref).Success?
    requires Indexed(st) && Grows(st, st') && PinnedFrom(w, n, i + 1, st'.out)
    requires var entry := EntryFor(n.from, References(n.contract)[i], w.ask(n.dir, References(n.contract)[i].ref).value);
             entry.Occ() in st.seen && st.seen[entry.Occ()] == entry
    ensures PinnedFrom(w, n, i, st'.out)
  {
  }

  lemma DoneKeeps(w: World, root: Node, n: Node, st: Walk, started: set<Node>, done: set<Node>)
    requires Keeps(w, root, st, started, done)
    requires n in started && NoDuplicates(n.contract) && PinnedFrom(w, n, 0, st.out)
    ensures Keeps(w, root, st, started, done + {n})
  {
  }

  /** Recording a declaration and entering its target, as one step. */
  lemma DescendKeeps(w: World, root: Node, n: Node, i: nat, st: Walk, started: set<Node>, done: set<Node>)
    requires Coherent(w) && Keeps(w, root, st, started, done)
    requires Reachable(w, root, n) && i < |References(n.contract)|
    requires w.ask(n.dir, References(n.contract)[i].ref).Success?
    requires Occurrence(n.from, References(n.contract)[i].kind, References(n.contract)[i].name) !in st.seen
    ensures var r := w.ask(n.dir, References(n.contract)[i].ref).value;
            var entry := EntryFor(n.from, References(n.contract)[i], r);
            Keeps(w, root, Enter(Record(st, entry), r.identity), started + {Target(r)}, done)
  {
    var d := References(n.contract)[i];
    var r := w.ask(n.dir, d.ref).value;
    var entry := EntryFor(n.from, d, r);
    EdgeReachable(w, root, n, i, Target(r));
    EnterKeeps(w, root, n.dir, d.ref, st, started, done);
    assert Target(r) in started + {Target(r)};
    RecordKeeps(w, root, n, i, Enter(st, r.identity), started + {Target(r)}, done, entry);
    assert Record(Enter(st, r.identity), entry) == Enter(Record(st, entry), r.identity);
  }

  /** A successful walk of a started node finishes it and leaves no other node half walked. */
  lemma {:induction false} WalkContractFinishes(w: World, root: Node, n: Node, st: Walk, u: set<Occurrence>,
                                                started: set<Node>, done: set<Node>)
    returns (started': set<Node>, done': set<Node>)
    requires Coherent(w) && Closed(w, u) && Occurrences(n.from, n.contract) <= u
    requires Keeps(w, root, st, started, done) && n in started
    requires WalkContract(w, n, st, u).Success?
    ensures Keeps(w, root, WalkContract(w, n, st, u).value, started', done')
    ensures Grows(st, WalkContract(w, n, st, u).value)
    ensures started <= started' && done <= done' && n in done'
    ensures started' - done' <= (started - done) - {n}
    decreases u - st.seen.Keys, |References(n.contract)| + 1
  {
    DuplicatesIffNotDistinct(n.contract);
    started', done' := WalkFromFinishes(w, root, n, 0, st, u, started, done);
    DoneKeeps(w, root, n, WalkContract(w, n, st, u).value, started', done');
    done' := done' + {n};
  }

  lemma {:induction false} WalkFromFinishes(w: World, root: Node, n: Node, i: nat, st: Walk, u: set<Occurrence>,
                                            started: set<Node>, done: set<Node>)
    returns (started': set<Node>, done': set<Node>)
    requires Coherent(w) && Closed(w, u) && Occurrences(n.from, n.contract) <= u
    requires i <= |References(n.contract)|
    requires Keeps(w, root, st, started, done) && n in started
    requires WalkFrom(w, n, i, st, u).Success?
    ensures Keeps(w, root, WalkFrom(w, n, i, st, u).value, started', done')
    ensures Grows(st, WalkFrom(w, n, i, st, u).value)
    ensures PinnedFrom(w, n, i, WalkFrom(w, n, i, st, u).value.out)
    ensures started <= started' && done <= done'
    ensures started' - done' <= started - done
    decreases u - st.seen.Keys, |References(n.contract)| - i
  {
    if i == |References(n.contract)| {
      started', done' := started, done;
    } else {
      var d := References(n.contract)[i];
      var r := w.ask(n.dir, d.ref).value;
      if EntryFor(n.from, d, r).Occ() in st.seen {
        started', done' := WalkFromFinishes(w, root, n, i + 1, st, u, started, done);
        RepeatPinned(w, n, i, st, WalkFrom(w, n, i + 1, st, u).value);
      } else if r.identity in st.walked {
        started', done' := RevisitFinishes(w, root, n, i, st, u, started, done);
      } else {
        started', done' := DescendFinishes(w, root, n, i, st, u, started, done);
      }
    }
  }

  /** A new declaration of a bundle the walk entered before. */
  lemma {:induction false} RevisitFinishes(w: World, root: Node, n: Node, i: nat, st: Walk, u: set<Occurrence>,
                                            started: set<Node>, done: set<Node>)
    returns (started': set<Node>, done': set<Node>)
    requires Coherent(w) && Closed(w, u) && Occurrences(n.from, n.contract) <= u
    requires i < |References(n.contract)|
    requires Keeps(w, root, st, started, done) && n in started
    requires WalkFrom(w, n, i, st, u).Success?
    requires Occurrence(n.from, References(n.contract)[i].kind, References(n.contract)[i].name) !in st.seen
    requires w.ask(n.dir, References(n.contract)[i].ref).value.identity in st.walked
    ensures Keeps(w, root, WalkFrom(w, n, i, st, u).value, started', done')
    ensures Grows(st, WalkFrom(w, n, i, st, u).value)
    ensures PinnedFrom(w, n, i, WalkFrom(w, n, i, st, u).value.out)
    ensures started <= started' && done <= done'
    ensures started' - done' <= started - done
    decreases u - st.seen.Keys, |References(n.contract)| - i, 0
  {
    var d := References(n.contract)[i];
    var r := w.ask(n.dir, d.ref).value;
    var entry := EntryFor(n.from, d, r);
    var st' := WalkFrom(w, n, i, st, u).value;
    var st1 := Record(st, entry);
    assert entry.Occ() in u - st.seen.Keys;
    assert entry in st1.out && Target(r) in started;
    RecordKeeps(w, root, n, i, st, started, done, entry);
    assert st' == WalkFrom(w, n, i + 1, st1, u).value;
    started', done' := WalkFromFinishes(w, root, n, i + 1, st1, u, started, done);
    GrowsTransitive(st, st1, st');
    PinnedNext(w, n, i, st'.out, entry);
  }

  /** Recording a declaration, entering its bundle and finishing the walk of that bundle. */
  lemma {:induction false} ChildFinishes(w: World, root: Node, n: Node, i: nat, st: Walk, u: set<Occurrence>,
                                         started: set<Node>, done: set<Node>)
    returns (started': set<Node>, done': set<Node>)
    requires Coherent(w) && Closed(w, u) && Occurrences(n.from, n.contract) <= u
    requires i < |References(n.contract)|
    requires Keeps(w, root, st, started, done) && n in started
    requires w.ask(n.dir, References(n.contract)[i].ref).Success?
    requires Occurrence(n.from, References(n.contract)[i].kind, References(n.contract)[i].name) in u - st.seen.Keys
    requires var r := w.ask(n.dir, References(n.contract)[i].ref).value;
             WalkContract(w, Target(r), Enter(Record(st, EntryFor(n.from, References(n.contract)[i], r)), r.identity), u).Success?
    ensures var r := w.ask(n.dir, References(n.contract)[i].ref).value;
            var entry := EntryFor(n.from, References(n.contract)[i], r);
            var st' := WalkContract(w, Target(r), Enter(Record(st, entry), r.identity), u).value;
            Keeps(w, root, st', started', done') && Grows(st, st') && entry in st'.out
    ensures started <= started' && done <= done'
    ensures started' - done' <= started - done
    decreases u - st.seen.Keys, |References(n.contract)| - i, 0
  {
    var d := References(n.contract)[i];
    var r := w.ask(n.dir, d.ref).value;
    var st1 := Enter(Record(st, EntryFor(n.from, d, r)), r.identity);
    DescendKeeps(w, root, n, i, st, started, done);
    started', done' := WalkContractFinishes(w, root, Target(r), st1, u, started + {Target(r)}, done);
    assert EntryFor(n.from, d, r) in st1.out;
    GrowsTransitive(st, st1, WalkContract(w, Target(r), st1, u).value);
  }

  /** A new declaration of a bundle the walk has not entered. */
  lemma {:induction false} DescendFinishes(w: World, root: Node, n: Node, i: nat, st: Walk, u: set<Occurrence>,
                                            started: set<Node>, done: set<Node>)
    returns (started': set<Node>, done': set<Node>)
    requires Coherent(w) && Closed(w, u) && Occurrences(n.from, n.contract) <= u
    requires i < |References(n.contract)|
    requires Keeps(w, root, st, started, done) && n in started
    requires WalkFrom(w, n, i, st, u).Success?
    requires Occurrence(n.from, References(n.contract)[i].kind, References(n.contract)[i].name) !in st.seen
    requires w.ask(n.dir, References(n.contract)[i].ref).value.identity !in st.walked
    ensures Keeps(w, root, WalkFrom(w, n, i, st, u).value, started', done')
    ensures Grows(st, WalkFrom(w, n, i, st, u).value)
    ensures PinnedFrom(w, n, i, WalkFrom(w, n, i, st, u).value.out)
    ensures started <= started' && done <= done'
    ensures started' - done' <= started - done
    decreases u - st.seen.Keys, |References(n.contract)| - i, 1
  {
    var d := References(n.contract)[i];
    var r := w.ask(n.dir, d.ref).value;
    var entry := EntryFor(n.from, d, r);
    var st' := WalkFrom(w, n, i, st, u).value;
    var st1 := Record(st, entry);
    assert entry.Occ() in u - st.seen.Keys;
    var s, f := ChildFinishes(w, root, n, i, st, u, started, done);
    var st2 := WalkContract(w, Target(r), Enter(st1, r.identity), u).value;
    assert st' == WalkFrom(w, n, i + 1, st2, u).value;
    started', done' := WalkFromFinishes(w, root, n, i + 1, st2, u, s, f);
    GrowsTransitive(st, st2, st');
    PinnedNext(w, n, i, st'.out, entry);
  }

  // ---- the closure is exact ----------------------------------------------------

  lemma StartKeeps(w: World, root: Node)
    ensures Keeps(w, root, START, {root}, {})
  {
    RootReachable(w, root);
  }

  ghost predicate Covers(done: set<Node>, n: Node) {
    exists m :: m in done && m.from == n.from
  }

  /** Nothing is half walked: every finished node is pinned and every entry leads to one. */
  ghost predicate Finished(w: World, root: Node, out: seq<Reference>, done: set<Node>) {
    && (forall n | n in done :: Reachable(w, root, n) && Pinned(w, n, out))
    && (forall e | e in out :: Led(done, e.DestinationID()))
  }

  lemma ChildCovered(w: World, root: Node, out: seq<Reference>, done: set<Node>, n: Node, n': Node)
    requires Finished(w, root, out, done)
    requires Pinned(w, n, out) && Edge(w, n, n')
    ensures Covers(done, n')
  {
    var i :| 0 <= i < |References(n.contract)| && EdgeAt(w, n, i, n');
    var e := EntryFor(n.from, References(n.contract)[i], w.ask(n.dir, References(n.contract)[i].ref).value);
    assert e in out && e.DestinationID() == n'.from;
  }

  /** A reachable node is pinned because a finished node of the same content is. */
  lemma PinsLikeItsTwin(w: World, root: Node, out: seq<Reference>, done: set<Node>, n: Node)
    requires ContentAddressed(w, root) && ContentFixesResolution(w, root)
    requires Finished(w, root, out, done)
    requires Reachable(w, root, n) && Covers(done, n)
    ensures Pinned(w, n, out)
  {
    var m :| m in done && m.from == n.from;
    assert Pinned(w, m, out) && Reachable(w, root, m);
    assert m.contract == n.contract;
    forall i | 0 <= i < |References(n.contract)|
      ensures w.ask(n.dir, References(n.contract)[i].ref).Success?
      ensures EntryFor(n.from, References(n.contract)[i], w.ask(n.dir, References(n.contract)[i].ref).value) in out
    {
      assert SameResolution(w.ask(m.dir, References(m.contract)[i].ref), w.ask(n.dir, References(m.contract)[i].ref));
    }
  }

  /** Every node a route reaches has the content of a finished node. */
  lemma {:induction false} RouteCovered(w: World, root: Node, out: seq<Reference>, done: set<Node>, p: seq<Node>)
    requires ContentAddressed(w, root) && ContentFixesResolution(w, root)
    requires Finished(w, root, out, done) && root in done
    requires Route(w, root, p)
    ensures Covers(done, p[|p| - 1])
  {
    if |p| > 1 {
      var q := p[..|p| - 1];
      RouteShortened(w, root, p);
      RouteCovered(w, root, out, done, q);
      assert q[|q| - 1] == p[|p| - 2] && Reachable(w, root, p[|p| - 2]);
      PinsLikeItsTwin(w, root, out, done, p[|p| - 2]);
      ChildCovered(w, root, out, done, p[|p| - 2], p[|p| - 1]);
    }
  }

  lemma ReachablePinned(w: World, root: Node, out: seq<Reference>, done: set<Node>, n: Node)
    requires ContentAddressed(w, root) && ContentFixesResolution(w, root)
    requires Finished(w, root, out, done) && root in done
    requires Reachable(w, root, n)
    ensures Pinned(w, n, out)
  {
    var p :| Route(w, root, p) && p[|p| - 1] == n;
    RouteCovered(w, root, out, done, p);
    PinsLikeItsTwin(w, root, out, done, n);
  }

  lemma KeptIsFinished(w: World, root: Node, st: Walk, started: set<Node>, done: set<Node>)
    requires Keeps(w, root, st, started, done) && started - done <= {}
    ensures DistinctOccurrences(st.out) && Declared(w, root, st.out) && Finished(w, root, st.out, done)
  {
    forall n | n in started
      ensures n in done
    {
      assert n !in started - done;
    }
    assert started == done;
  }

  lemma WalkFinished(w: World, root: Node, u: set<Occurrence>) returns (done: set<Node>)
    requires Coherent(w) && Closed(w, u) && Occurrences(root.from, root.contract) <= u
    requires WalkContract(w, root, START, u).Success?
    ensures var out := WalkContract(w, root, START, u).value.out;
            DistinctOccurrences(out) && Declared(w, root, out) && Finished(w, root, out, done) && root in done
  {
    StartKeeps(w, root);
    var started;
    started, done := WalkContractFinishes(w, root, root, START, u, {root}, {});
    KeptIsFinished(w, root, WalkContract(w, root, START, u).value, started, done);
  }

  lemma WalkIsExact(w: World, root: Node, u: set<Occurrence>)
    requires Coherent(w) && Closed(w, u) && Occurrences(root.from, root.contract) <= u
    requires ContentAddressed(w, root) && ContentFixesResolution(w, root)
    requires WalkContract(w, root, START, u).Success?
    ensures Exact(w, root, WalkContract(w, root, START, u).value.out)
  {
    var out := WalkContract(w, root, START, u).value.out;
    var done := WalkFinished(w, root, u);
    forall n | Reachable(w, root, n)
      ensures Pinned(w, n, out)
    {
      ReachablePinned(w, root, out, done, n);
    }
  }

  // ---- a refused closure has a reason -----------------------------------------

  /** The fault in the graph a refusal names. */
  ghost predicate Explains(w: World, root: Node, err: BuildError) {
    match err
    case DuplicateDeclaration(o) =>
      exists n :: Reachable(w, root, n) && n.from == o.from && RefusedName(n.contract, o)
    case Unresolved(ref, reason) =>
      exists n :: Reachable(w, root, n) && FailsOn(w, n, ref, reason)
    case Ambiguous(o, a, b) =>
      && a != b && a.Occ() == b.Occ() == o
      && (exists n :: Reachable(w, root, n) && Declares(w, n, a))
      && (exists n :: Reachable(w, root, n) && Declares(w, n, b))
  }

  ghost predicate RefusedName(c: Contract, o: Occurrence) {
    && !NoDuplicates(c)
    && exists d :: d in Duplicates(c) && d.kind == o.kind && d.name == o.name
  }

  ghost predicate FailsOn(w: World, n: Node, ref: string, reason: string) {
    && (exists d :: d in References(n.contract) && d.ref == ref)
    && w.ask(n.dir, ref) == Failure(reason)
  }

  lemma {:induction false} WalkContractExplained(w: World, root: Node, n: Node, st: Walk, u: set<Occurrence>,
                                                 started: set<Node>, done: set<Node>)
    requires Coherent(w) && Closed(w, u) && Occurrences(n.from, n.contract) <= u
    requires Keeps(w, root, st, started, done) && n in started
    requires WalkContract(w, n, st, u).Failure?
    ensures Explains(w, root, WalkContract(w, n, st, u).error)
    decreases u - st.seen.Keys, |References(n.contract)| + 1
  {
    DuplicatesIffNotDistinct(n.contract);
    if Duplicates(n.contract) == [] {
      WalkFromExplained(w, root, n, 0, st, u, started, done);
    } else {
      var d := Duplicates(n.contract)[0];
      assert d in Duplicates(n.contract);
      assert RefusedName(n.contract, Occurrence(n.from, d.kind, d.name));
    }
  }

  lemma {:induction false} WalkFromExplained(w: World, root: Node, n: Node, i: nat, st: Walk, u: set<Occurrence>,
                                             started: set<Node>, done: set<Node>)
    requires Coherent(w) && Closed(w, u) && Occurrences(n.from, n.contract) <= u
    requires i <= |References(n.contract)|
    requires Keeps(w, root, st, started, done) && n in started
    requires WalkFrom(w, n, i, st, u).Failure?
    ensures Explains(w, root, WalkFrom(w, n, i, st, u).error)
    decreases u - st.seen.Keys, |References(n.contract)| - i
  {
    var d := References(n.contract)[i];
    if w.ask(n.dir, d.ref).Failure? {
      UnresolvedExplained(w, root, n, i);
    } else {
      var r := w.ask(n.dir, d.ref).value;
      if EntryFor(n.from, d, r).Occ() in st.seen {
        RepeatExplained(w, root, n, i, st, u, started, done);
      } else if r.identity in st.walked {
        RevisitExplained(w, root, n, i, st, u, started, done);
      } else {
        DescentExplained(w, root, n, i, st, u, started, done);
      }
    }
  }

  lemma {:induction false} RepeatExplained(w: World, root: Node, n: Node, i: nat, st: Walk, u: set<Occurrence>,
                                           started: set<Node>, done: set<Node>)
    requires Coherent(w) && Closed(w, u) && Occurrences(n.from, n.contract) <= u
    requires i < |References(n.contract)|
    requires Keeps(w, root, st, started, done) && n in started
    requires w.ask(n.dir, References(n.contract)[i].ref).Success?
    requires Occurrence(n.from, References(n.contract)[i].kind, References(n.contract)[i].name) in st.seen
    requires WalkFrom(w, n, i, st, u).Failure?
    ensures Explains(w, root, WalkFrom(w, n, i, st, u).error)
    decreases u - st.seen.Keys, |References(n.contract)| - i, 0
  {
    var d := References(n.contract)[i];
    var entry := EntryFor(n.from, d, w.ask(n.dir, d.ref).value);
    if st.seen[entry.Occ()] != entry {
      AmbiguityExplained(w, root, n, i, st, started, done, entry);
    } else {
      WalkFromExplained(w, root, n, i + 1, st, u, started, done);
    }
  }

  lemma {:induction false} RevisitExplained(w: World, root: Node, n: Node, i: nat, st: Walk, u: set<Occurrence>,
                                            started: set<Node>, done: set<Node>)
    requires Coherent(w) && Closed(w, u) && Occurrences(n.from, n.contract) <= u
    requires i < |References(n.contract)|
    requires Keeps(w, root, st, started, done) && n in started
    requires w.ask(n.dir, References(n.contract)[i].ref).Success?
    requires Occurrence(n.from, References(n.contract)[i].kind, References(n.contract)[i].name) !in st.seen
    requires w.ask(n.dir, References(n.contract)[i].ref).value.identity in st.walked
    requires WalkFrom(w, n, i, st, u).Failure?
    ensures Explains(w, root, WalkFrom(w, n, i, st, u).error)
    decreases u - st.seen.Keys, |References(n.contract)| - i, 0
  {
    var d := References(n.contract)[i];
    var entry := EntryFor(n.from, d, w.ask(n.dir, d.ref).value);
    assert entry.Occ() in u - st.seen.Keys;
    RevisitKeeps(w, root, n, i, st, started, done, entry);
    WalkFromExplained(w, root, n, i + 1, Record(st, entry), u, started, done);
  }

  lemma UnresolvedExplained(w: World, root: Node, n: Node, i: nat)
    requires Reachable(w, root, n) && i < |References(n.contract)|
    requires w.ask(n.dir, References(n.contract)[i].ref).Failure?
    ensures var ref := References(n.contract)[i].ref;
            Explains(w, root, Unresolved(ref, w.ask(n.dir, ref).error))
  {
  }

  lemma RevisitKeeps(w: World, root: Node, n: Node, i: nat, st: Walk, started: set<Node>, done: set<Node>, entry: Reference)
    requires Keeps(w, root, st, started, done) && n in started
    requires i < |References(n.contract)| && DeclaresAt(w, n, i, entry) && entry.Occ() !in st.seen
    requires w.ask(n.dir, References(n.contract)[i].ref).value.identity in st.walked
    ensures Keeps(w, root, Record(st, entry), started, done)
  {
    assert Target(w.ask(n.dir, References(n.contract)[i].ref).value) in started;
    RecordKeeps(w, root, n, i, st, started, done, entry);
  }

  lemma AmbiguityExplained(w: World, root: Node, n: Node, i: nat, st: Walk, started: set<Node>, done: set<Node>, entry: Reference)
    requires Keeps(w, root, st, started, done) && n in started
    requires i < |References(n.contract)| && DeclaresAt(w, n, i, entry)
    requires entry.Occ() in st.seen && st.seen[entry.Occ()] != entry
    ensures Explains(w, root, Ambiguous(entry.Occ(), st.seen[entry.Occ()], entry))
  {
    assert Declares(w, n, entry);
    assert st.seen[entry.Occ()] in st.out;
  }

  lemma {:induction false} DescentExplained(w: World, root: Node, n: Node, i: nat, st: Walk, u: set<Occurrence>,
                                            started: set<Node>, done: set<Node>)
    requires Coherent(w) && Closed(w, u) && Occurrences(n.from, n.contract) <= u
    requires i < |References(n.contract)|
    requires Keeps(w, root, st, started, done) && n in started
    requires w.ask(n.dir, References(n.contract)[i].ref).Success?
    requires Occurrence(n.from, References(n.contract)[i].kind, References(n.contract)[i].name) !in st.seen
    requires w.ask(n.dir, References(n.contract)[i].ref).value.identity !in st.walked
    requires WalkFrom(w, n, i, st, u).Failure?
    ensures Explains(w, root, WalkFrom(w, n, i, st, u).error)
    decreases u - st.seen.Keys, |References(n.contract)| - i, 0
  {
    var d := References(n.contract)[i];
    var r := w.ask(n.dir, d.ref).value;
    var entry := EntryFor(n.from, d, r);
    var st1 := Enter(Record(st, entry), r.identity);
    assert entry.Occ() in u - st.seen.Keys;
    DescendKeeps(w, root, n, i, st, started, done);
    if WalkContract(w, Target(r), st1, u).Failure? {
      WalkContractExplained(w, root, Target(r), st1, u, started + {Target(r)}, done);
    } else {
      var s, f := WalkContractFinishes(w, root, Target(r), st1, u, started + {Target(r)}, done);
      WalkFromExplained(w, root, n, i + 1, WalkContract(w, Target(r), st1, u).value, u, s, f);
    }
  }

  lemma RefusalExplained(w: World, root: Node, u: set<Occurrence>)
    requires Coherent(w) && Closed(w, u) && Occurrences(root.from, root.contract) <= u
    requires WalkContract(w, root, START, u).Failure?
    ensures Explains(w, root, WalkContract(w, root, START, u).error)
  {
    StartKeeps(w, root);
    WalkContractExplained(w, root, root, START, u, {root}, {});
  }

  // ---- exactly when the closure is exact ----------------------------------------

  ghost predicate BuildsExactly(w: World, root: Node, u: set<Occurrence>)
    requires Closed(w, u) && Occurrences(root.from, root.contract) <= u
  {
    var r := WalkContract(w, root, START, u);
    r.Success? && Exact(w, root, r.value.out)
  }

  /**
   The closure is built, and built exactly, if and only if every reachable contract is sound and
   no content identity resolves one of its refs to two different pins.
   */
  lemma ExactIff(w: World, root: Node, u: set<Occurrence>)
    requires Coherent(w) && Closed(w, u) && Occurrences(root.from, root.contract) <= u
    requires ContentAddressed(w, root)
    ensures BuildsExactly(w, root, u) <==> Resolvable(w, root) && ContentFixesResolution(w, root)
  {
    var r := WalkContract(w, root, START, u);
    if BuildsExactly(w, root, u) {
      ExactNeedsFixedResolution(w, root, r.value.out);
    }
    if Resolvable(w, root) && ContentFixesResolution(w, root) {
      if r.Failure? {
        RefusalExplained(w, root, u);
        NothingToExplain(w, root, r.error);
      }
      WalkIsExact(w, root, u);
    }
  }

  lemma NothingToExplain(w: World, root: Node, err: BuildError)
    requires ContentAddressed(w, root) && Resolvable(w, root) && ContentFixesResolution(w, root)
    ensures !Explains(w, root, err)
  {
    if err.Ambiguous? && Explains(w, root, err) {
      var n :| Reachable(w, root, n) && Declares(w, n, err.first);
      var m :| Reachable(w, root, m) && Declares(w, m, err.second);
      OneResolution(w, root, n, m, err.first, err.second);
    }
  }

  lemma OneResolution(w: World, root: Node, n: Node, m: Node, a: Reference, b: Reference)
    requires ContentAddressed(w, root) && Resolvable(w, root) && ContentFixesResolution(w, root)
    requires Reachable(w, root, n) && Reachable(w, root, m)
    requires Declares(w, n, a) && Declares(w, m, b) && a.Occ() == b.Occ()
    ensures a == b
  {
    var i :| 0 <= i < |References(n.contract)| && DeclaresAt(w, n, i, a);
    var j :| 0 <= j < |References(m.contract)| && DeclaresAt(w, m, j, b);
    assert n.contract == m.contract;
    OneDeclaration(n.contract, i, j);
    assert SameResolution(w.ask(n.dir, References(n.contract)[i].ref), w.ask(m.dir, References(n.contract)[i].ref));
  }
}
