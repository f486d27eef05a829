/**
 The graph the lock's reference closure walks (internal/app/lock_build.go): which bundle a
 ref text means from a directory, which contracts a root reaches, and what an exact closure is.
 */
module ReferenceGraph {
  import opened Basics
  import opened Text
  import opened Contracts
  import opened LockFile

  /** The bundle a ref leads to: its pin, with the declaration's own fields left blank, its contract, and where and under which name it is filed. */
  datatype RefResolution = RefResolution(entry: Reference, child: Contract, childDir: string, identity: string)

  /** How refs resolve, from a directory and a ref text. */
  datatype World = World(ask: (string, string) -> Result<RefResolution, string>)

  /** A contract as the walk meets it: where its relative refs start and the identity it is filed under. */
  datatype Node = Node(contract: Contract, dir: string, from: string)

  function Target(r: RefResolution): Node {
    Node(r.child, r.childDir, r.entry.DestinationID())
  }

  function EntryFor(from: string, d: ReferenceRef, r: RefResolution): (e: Reference)
    ensures e.Occ() == Occurrence(from, d.kind, d.name)
    ensures e.DestinationID() == r.entry.DestinationID()
  {
    r.entry.(from := from, kind := d.kind, name := d.name)
  }

  /**
   What the walk relies on: an entry carries no declaration fields, the identity that stops the
   walk fixes the bundle it stands for, and a directory holds no NUL.
   */
  ghost predicate Coherent(w: World) {
    && (forall dir, ref :: w.ask(dir, ref).Success? ==>
          && w.ask(dir, ref).value.entry.Occ() == Occurrence("", "", "")
          && (Free(dir, NUL) ==> Free(w.ask(dir, ref).value.childDir, NUL)))
    && (forall dir, ref, dir', ref' ::
          w.ask(dir, ref).Success? && w.ask(dir', ref').Success? &&
          w.ask(dir, ref).value.identity == w.ask(dir', ref').value.identity ==>
            Target(w.ask(dir, ref).value) == Target(w.ask(dir', ref').value))
  }

  // ---- what a root reaches ------------------------------------------------

  ghost predicate Edge(w: World, n: Node, m: Node) {
    exists i :: 0 <= i < |References(n.contract)| && EdgeAt(w, n, i, m)
  }

  ghost predicate EdgeAt(w: World, n: Node, i: nat, m: Node)
    requires i < |References(n.contract)|
  {
    var r := w.ask(n.dir, References(n.contract)[i].ref);
    r.Success? && m == Target(r.value)
  }

  ghost predicate Route(w: World, root: Node, p: seq<Node>) {
    && |p| > 0
    && p[0] == root
    && forall i | 0 <= i < |p| - 1 :: Edge(w, p[i], p[i + 1])
  }

  ghost predicate Reachable(w: World, root: Node, n: Node) {
    exists p :: Route(w, root, p) && p[|p| - 1] == n
  }

  lemma RootReachable(w: World, root: Node)
    ensures Reachable(w, root, root)
  {
    assert Route(w, root, [root]);
  }

  lemma EdgeReachable(w: World, root: Node, n: Node, i: nat, m: Node)
    requires Reachable(w, root, n)
    requires i < |References(n.contract)| && EdgeAt(w, n, i, m)
    ensures Reachable(w, root, m)
  {
    var p :| Route(w, root, p) && p[|p| - 1] == n;
    var q := p + [m];
    assert Edge(w, n, m);
    assert forall i | 0 <= i < |q| - 1 :: Edge(w, q[i], q[i + 1]) by {
      forall i | 0 <= i < |q| - 1
        ensures Edge(w, q[i], q[i + 1])
      {
        if i < |p| - 1 {
          assert q[i] == p[i] && q[i + 1] == p[i + 1];
        }
      }
    }
    assert Route(w, root, q) && q[|q| - 1] == m;
  }

  lemma RouteShortened(w: World, root: Node, p: seq<Node>)
    requires Route(w, root, p) && |p| > 1
    ensures Route(w, root, p[..|p| - 1]) && Edge(w, p[|p| - 2], p[|p| - 1])
  {
  }

  // ---- exactness ----------------------------------------------------------

  /** Declaration `i` of `n` resolves, and `e` is its lock entry. */
  ghost predicate DeclaresAt(w: World, n: Node, i: nat, e: Reference)
    requires i < |References(n.contract)|
  {
    var d := References(n.contract)[i];
    var r := w.ask(n.dir, d.ref);
    r.Success? && e == EntryFor(n.from, d, r.value)
  }

  ghost predicate Declares(w: World, n: Node, e: Reference) {
    exists i :: 0 <= i < |References(n.contract)| && DeclaresAt(w, n, i, e)
  }

  ghost predicate DistinctOccurrences(out: seq<Reference>) {
    forall i, j | 0 <= i < j < |out| :: out[i].Occ() != out[j].Occ()
  }

  /** Every entry of `out` is a declaration of some contract the root reaches. */
  ghost predicate Declared(w: World, root: Node, out: seq<Reference>) {
    forall e | e in out :: exists n :: Reachable(w, root, n) && Declares(w, n, e)
  }

  /** Every declaration of `n` is in `out`, pinned to what its ref resolves to from `n`'s directory. */
  ghost predicate Pinned(w: World, n: Node, out: seq<Reference>) {
    && NoDuplicates(n.contract)
    && forall i | 0 <= i < |References(n.contract)| ::
      && w.ask(n.dir, References(n.contract)[i].ref).Success?
      && EntryFor(n.from, References(n.contract)[i], w.ask(n.dir, References(n.contract)[i].ref).value) in out
  }

  /** One entry per declaration of a reachable contract and nothing else. */
  ghost predicate Exact(w: World, root: Node, out: seq<Reference>) {
    && DistinctOccurrences(out)
    && Declared(w, root, out)
    && forall n | Reachable(w, root, n) :: Pinned(w, n, out)
  }

  // ---- hypotheses ---------------------------------------------------------

  /** Equal content identities are equal contracts: content hashes do not collide. */
  ghost predicate ContentAddressed(w: World, root: Node) {
    forall n, m | Reachable(w, root, n) && Reachable(w, root, m) && n.from == m.from :: n.contract == m.contract
  }

  predicate SameResolution(a: Result<RefResolution, string>, b: Result<RefResolution, string>) {
    if a.Success? then b.Success? && a.value.entry == b.value.entry else b.Failure?
  }

  /** Where a contract sits never changes what its refs are pinned to. */
  ghost predicate ContentFixesResolution(w: World, root: Node) {
    forall n, m | Reachable(w, root, n) && Reachable(w, root, m) && n.from == m.from ::
      forall i | 0 <= i < |References(n.contract)| ::
        SameResolution(w.ask(n.dir, References(n.contract)[i].ref), w.ask(m.dir, References(n.contract)[i].ref))
  }

  /** No reachable contract declares a name twice or holds a ref that does not resolve. */
  ghost predicate Resolvable(w: World, root: Node) {
    forall n | Reachable(w, root, n) ::
      && NoDuplicates(n.contract)
      && forall i | 0 <= i < |References(n.contract)| :: w.ask(n.dir, References(n.contract)[i].ref).Success?
  }

  function Occurrences(from: string, c: Contract): set<Occurrence> {
    set d | d in References(c) :: Occurrence(from, d.kind, d.name)
  }

  /** `u` holds every occurrence a resolved bundle can declare. */
  ghost predicate Closed(w: World, u: set<Occurrence>) {
    forall dir, ref :: w.ask(dir, ref).Success? ==>
      Occurrences(w.ask(dir, ref).value.entry.DestinationID(), w.ask(dir, ref).value.child) <= u
  }

  function OccurrencesOfAll(ids: set<string>, contents: string -> Contract): set<Occurrence> {
    set id, d | id in ids && d in References(contents(id)) :: Occurrence(id, d.kind, d.name)
  }

  /**
   A graph of finitely many content identities has finitely many declarations, however many
   directories and ref texts lead to them.
   */
  lemma FiniteContentsClosed(w: World, ids: set<string>, contents: string -> Contract)
    requires forall dir, ref :: w.ask(dir, ref).Success? ==>
                                  var r := w.ask(dir, ref).value;
                                  r.entry.DestinationID() in ids && r.child == contents(r.entry.DestinationID())
    ensures Closed(w, OccurrencesOfAll(ids, contents))
  {
  }

  // ---- an exact closure needs content that fixes resolution ----------------

  /** The entries of an exact closure are determined by the graph, in any order of declaration. */
  lemma ExactIsUnique(w: World, root: Node, a: seq<Reference>, b: seq<Reference>)
    requires Exact(w, root, a) && Exact(w, root, b)
    ensures |a| == |b|
    ensures forall e :: e in a <==> e in b
  {
    ExactIncludes(w, root, a, b);
    ExactIncludes(w, root, b, a);
    DistinctCount(a);
    DistinctCount(b);
    assert (set e | e in a) == (set e | e in b);
  }

  lemma ExactIncludes(w: World, root: Node, a: seq<Reference>, b: seq<Reference>)
    requires Declared(w, root, a) && Exact(w, root, b)
    ensures forall e | e in a :: e in b
  {
  }

  lemma {:induction false} DistinctCount(s: seq<Reference>)
    requires DistinctOccurrences(s)
    ensures |set e | e in s| == |s|
  {
    if s == [] {
      assert (set e | e in s) == {};
    } else {
      var l := |s| - 1;
      DistinctCount(s[..l]);
      assert s == s[..l] + [s[l]];
      assert (set e | e in s) == (set e | e in s[..l]) + {s[l]};
      assert s[l] !in s[..l];
    }
  }

  lemma ExactNeedsFixedResolution(w: World, root: Node, out: seq<Reference>)
    requires Coherent(w) && ContentAddressed(w, root)
    requires Exact(w, root, out)
    ensures ContentFixesResolution(w, root) && Resolvable(w, root)
  {
  }
}
