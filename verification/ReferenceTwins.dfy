/**
 A closure the walk builds and does not hold exactly: identical bundles in two places whose
 identical children resolve a relative ref differently. The repeated declaration of the child
 is skipped before its second directory is entered (internal/app/lock_build.go:129-135), so the
 difference one level down is never seen. The same difference one level up is refused.

   r  declares a -> x, b -> y      x, y  hold content 1, declare c -> u (from x) or v (from y)
   u, v  hold content 2, declare d -> p (from u) or q (from v)      p holds content 3, q content 4
 */
module ReferenceTwins {
  import opened Basics
  import opened Contracts
  import opened LockFile
  import opened ReferenceGraph
  import opened ReferenceWalk

  function Declaring(name: string): Contract {
    Contract("1", [], [Declaration(name, name)])
  }

  const ROOT := Contract("1", [], [Declaration("a", "a"), Declaration("b", "b")])
  const TWIN := Declaring("c")
  const CHILD := Declaring("d")
  const LEAF := Contract("1", [], [])

  function ChildDir(dir: string, ref: string): string {
    if dir == "r" then (if ref == "a" then "x" else if ref == "b" then "y" else "")
    else if dir == "x" then (if ref == "c" then "u" else "")
    else if dir == "y" then (if ref == "c" then "v" else "")
    else if dir == "u" then (if ref == "d" then "p" else "")
    else if dir == "v" then (if ref == "d" then "q" else "")
    else ""
  }

  function ContractIn(dir: string): Contract {
    if dir == "x" || dir == "y" then TWIN else if dir == "u" || dir == "v" then CHILD else LEAF
  }

  function HashOf(dir: string): string {
    if dir == "x" || dir == "y" then "1" else if dir == "u" || dir == "v" then "2" else if dir == "p" then "3" else "4"
  }

  function Found(ref: string, dir: string): RefResolution {
    RefResolution(Reference("", "", "", "local", "", ref, "1", "", HashOf(dir)), ContractIn(dir), dir, dir)
  }

  function Ask(dir: string, ref: string): Result<RefResolution, string> {
    var child := ChildDir(dir, ref);
    if child == "" then Failure("no such bundle") else Success(Found(ref, child))
  }

  const DISK := World(Ask)

  const ONE := "local:" + "1"
  const TWO := "local:" + "2"
  const A := Occurrence("", CONFIG, "a")
  const B := Occurrence("", CONFIG, "b")
  const C := Occurrence(ONE, CONFIG, "c")
  const D := Occurrence(TWO, CONFIG, "d")
  const ALL := {A, B, C, D}

  /** The lock entry of declaration `o` whose ref resolves to the bundle in `dir`. */
  function Pin(o: Occurrence, dir: string): Reference {
    Reference(o.from, o.kind, o.name, "local", "", o.name, "1", "", HashOf(dir))
  }

  lemma OneReference(name: string)
    requires name != ""
    ensures References(Declaring(name)) == [ReferenceRef(CONFIG, name, name)]
    ensures Duplicates(Declaring(name)) == []
  {
    var ds := [Declaration(name, name)];
    assert ds[..0] == [];
    assert Referring(CONFIG, ds) == Referring(CONFIG, []) + [ReferenceRef(CONFIG, name, name)];
    assert Repeated(CONFIG, ds) == [];
  }

  lemma RootReferences()
    ensures References(ROOT) == [ReferenceRef(CONFIG, "a", "a"), ReferenceRef(CONFIG, "b", "b")]
    ensures Duplicates(ROOT) == []
  {
    OneReference("a");
    var ds := ROOT.configurations;
    assert ds[..1] == Declaring("a").configurations;
    assert LastNamed(ds[..1], "b") == None;
  }

  lemma OneOccurrence(from: string, name: string)
    requires name != ""
    ensures Occurrences(from, Declaring(name)) == {Occurrence(from, CONFIG, name)}
  {
    OneReference(name);
    assert ReferenceRef(CONFIG, name, name) in References(Declaring(name));
  }

  lemma RootOccurrences()
    ensures Occurrences("", ROOT) == {A, B}
  {
    RootReferences();
    assert ReferenceRef(CONFIG, "a", "a") in References(ROOT) && ReferenceRef(CONFIG, "b", "b") in References(ROOT);
  }

  /** The four contracts and what they declare. */
  lemma Declarations()
    ensures References(ROOT) == [ReferenceRef(CONFIG, "a", "a"), ReferenceRef(CONFIG, "b", "b")]
    ensures References(TWIN) == [ReferenceRef(CONFIG, "c", "c")]
    ensures References(CHILD) == [ReferenceRef(CONFIG, "d", "d")]
    ensures References(LEAF) == []
    ensures Duplicates(ROOT) == [] && Duplicates(TWIN) == [] && Duplicates(CHILD) == [] && Duplicates(LEAF) == []
    ensures Occurrences("", ROOT) == {A, B}
    ensures Occurrences(ONE, TWIN) == {C}
    ensures Occurrences(TWO, CHILD) == {D}
  {
    RootReferences();
    RootOccurrences();
    OneReference("c");
    OneReference("d");
    OneOccurrence(ONE, "c");
    OneOccurrence(TWO, "d");
  }

  /** The node of the bundle in `dir`. */
  function In(dir: string): Node {
    Node(ContractIn(dir), dir, "local:" + HashOf(dir))
  }

  lemma Nodes()
    ensures In("x") == Node(TWIN, "x", ONE) && In("y") == Node(TWIN, "y", ONE)
    ensures In("u") == Node(CHILD, "u", TWO) && In("v") == Node(CHILD, "v", TWO)
    ensures In("p") == Node(LEAF, "p", "local:" + "3") && In("q") == Node(LEAF, "q", "local:" + "4")
  {
  }

  lemma Asks()
    ensures Ask("r", "a") == Success(Found("a", "x")) && Ask("r", "b") == Success(Found("b", "y"))
    ensures Ask("x", "c") == Success(Found("c", "u")) && Ask("y", "c") == Success(Found("c", "v"))
    ensures Ask("u", "d") == Success(Found("d", "p")) && Ask("v", "d") == Success(Found("d", "q"))
  {
  }

  lemma DiskIsCoherent()
    ensures Coherent(DISK)
  {
  }

  lemma OccurrencesIn(dir: string)
    requires dir in {"x", "y", "u", "v", "p", "q"}
    ensures Occurrences(In(dir).from, In(dir).contract) <= ALL
  {
  }

  lemma DiskIsClosed()
    ensures Closed(DISK, ALL)
  {
  }

  function Walked(st: Walk, o: Occurrence, dir: string): Walk {
    Enter(Record(st, Pin(o, dir)), dir)
  }

  /** One walk step onto a declaration not seen whose bundle is not entered. */
  lemma {:induction false} StepIn(n: Node, i: nat, st: Walk, o: Occurrence, dir: string, st': Walk)
    requires Closed(DISK, ALL) && Occurrences(n.from, n.contract) <= ALL
    requires i < |References(n.contract)| && References(n.contract)[i] == ReferenceRef(o.kind, o.name, o.name)
    requires o.from == n.from && Ask(n.dir, o.name) == Success(Found(o.name, dir))
    requires o !in st.seen && dir !in st.walked
    requires Occurrences(In(dir).from, In(dir).contract) <= ALL
    requires WalkContract(DISK, In(dir), Walked(st, o, dir), ALL) == Success(st')
    ensures WalkFrom(DISK, n, i, st, ALL) == WalkFrom(DISK, n, i + 1, st', ALL)
  {
  }

  lemma {:induction false} LeafWalk(dir: string, from: string, st: Walk)
    requires Closed(DISK, ALL)
    ensures References(LEAF) == []
    ensures WalkContract(DISK, Node(LEAF, dir, from), st, ALL) == Success(st)
  {
  }

  /** One walk step over a declaration that is recorded already. */
  lemma {:induction false} StepOver(n: Node, st: Walk, o: Occurrence, dir: string)
    requires Closed(DISK, ALL) && Occurrences(n.from, n.contract) <= ALL
    requires References(n.contract) == [ReferenceRef(o.kind, o.name, o.name)] && Duplicates(n.contract) == []
    requires o.from == n.from && Ask(n.dir, o.name) == Success(Found(o.name, dir))
    requires o in st.seen && st.seen[o] == Pin(o, dir)
    ensures WalkContract(DISK, n, st, ALL) == Success(st)
  {
    assert EntryFor(n.from, References(n.contract)[0], DISK.ask(n.dir, o.name).value) == Pin(o, dir);
    assert WalkFrom(DISK, n, 1, st, ALL) == Success(st);
  }

  /** The walk of a contract with one declaration, not seen, whose bundle is not entered. */
  lemma {:induction false} WalkOne(n: Node, st: Walk, o: Occurrence, dir: string, st': Walk)
    requires Closed(DISK, ALL) && Occurrences(n.from, n.contract) <= ALL
    requires References(n.contract) == [ReferenceRef(o.kind, o.name, o.name)] && Duplicates(n.contract) == []
    requires o.from == n.from && Ask(n.dir, o.name) == Success(Found(o.name, dir))
    requires o !in st.seen && dir !in st.walked
    requires Occurrences(In(dir).from, In(dir).contract) <= ALL
    requires WalkContract(DISK, In(dir), Walked(st, o, dir), ALL) == Success(st')
    ensures WalkContract(DISK, n, st, ALL) == Success(st')
  {
    StepIn(n, 0, st, o, dir, st');
    assert WalkFrom(DISK, n, 1, st', ALL) == Success(st');
  }

  lemma {:induction false} FirstChildWalk(st: Walk)
    requires Closed(DISK, ALL) && Occurrences(TWO, CHILD) <= ALL
    requires D !in st.seen && "p" !in st.walked
    ensures WalkContract(DISK, In("u"), st, ALL) == Success(Walked(st, D, "p"))
  {
    Nodes();
    OneReference("d");
    LeafWalk("p", In("p").from, Walked(st, D, "p"));
    assert Ask("u", "d") == Success(Found("d", "p"));
    OccurrencesIn("p");
    WalkOne(In("u"), st, D, "p", Walked(st, D, "p"));
  }

  lemma {:induction false} FirstTwinWalk(st: Walk)
    requires Closed(DISK, ALL) && Occurrences(ONE, TWIN) <= ALL && Occurrences(TWO, CHILD) <= ALL
    requires C !in st.seen && D !in st.seen && "u" !in st.walked && "p" !in st.walked
    ensures WalkContract(DISK, In("x"), st, ALL) == Success(Walked(Walked(st, C, "u"), D, "p"))
  {
    Nodes();
    OneReference("c");
    assert Ask("x", "c") == Success(Found("c", "u"));
    FirstChildWalk(Walked(st, C, "u"));
    WalkOne(In("x"), st, C, "u", Walked(Walked(st, C, "u"), D, "p"));
  }

  /** The second twin finds its one declaration recorded, and stops. */
  lemma {:induction false} SecondTwinWalk(st: Walk)
    requires Closed(DISK, ALL) && Occurrences(ONE, TWIN) <= ALL
    requires C in st.seen && st.seen[C] == Pin(C, "u")
    ensures WalkContract(DISK, In("y"), st, ALL) == Success(st)
  {
    Nodes();
    OneReference("c");
    assert Ask("y", "c") == Success(Found("c", "v"));
    assert Pin(C, "u") == Pin(C, "v");
    StepOver(In("y"), st, C, "v");
  }

  const START_NODE := Node(ROOT, "r", "")
  const FIRST := Walked(Walked(Walked(START, A, "x"), C, "u"), D, "p")
  const LAST := Walked(FIRST, B, "y")

  lemma FirstHalf()
    requires Closed(DISK, ALL) && Occurrences("", ROOT) <= ALL
    requires References(ROOT) == [ReferenceRef(CONFIG, "a", "a"), ReferenceRef(CONFIG, "b", "b")]
    ensures WalkFrom(DISK, START_NODE, 0, START, ALL) == WalkFrom(DISK, START_NODE, 1, FIRST, ALL)
  {
    OccurrencesIn("x");
    OccurrencesIn("u");
    Nodes();
    assert Ask("r", "a") == Success(Found("a", "x"));
    FirstTwinWalk(Walked(START, A, "x"));
    StepIn(START_NODE, 0, START, A, "x", FIRST);
  }

  lemma Recorded()
    ensures B !in FIRST.seen && "y" !in FIRST.walked && C in LAST.seen && LAST.seen[C] == Pin(C, "u")
  {
  }

  lemma SecondHalf()
    requires Closed(DISK, ALL) && Occurrences("", ROOT) <= ALL
    requires References(ROOT) == [ReferenceRef(CONFIG, "a", "a"), ReferenceRef(CONFIG, "b", "b")]
    ensures WalkFrom(DISK, START_NODE, 1, FIRST, ALL) == Success(LAST)
  {
    OccurrencesIn("y");
    Nodes();
    assert Ask("r", "b") == Success(Found("b", "y"));
    Recorded();
    SecondTwinWalk(LAST);
    StepIn(START_NODE, 1, FIRST, B, "y", LAST);
  }

  lemma TwinsAreBuilt()
    requires Closed(DISK, ALL) && Occurrences("", ROOT) <= ALL
    ensures WalkContract(DISK, START_NODE, START, ALL) == Success(LAST)
  {
    Declarations();
    FirstHalf();
    SecondHalf();
  }

  lemma StepReachable(n: Node, i: nat, name: string, dir: string)
    requires Reachable(DISK, START_NODE, n)
    requires i < |References(n.contract)| && References(n.contract)[i].ref == name
    requires Ask(n.dir, name) == Success(Found(name, dir))
    ensures Reachable(DISK, START_NODE, In(dir))
  {
    assert EdgeAt(DISK, n, i, In(dir));
    EdgeReachable(DISK, START_NODE, n, i, In(dir));
  }

  lemma ChildrenReachable()
    ensures Reachable(DISK, START_NODE, In("u")) && Reachable(DISK, START_NODE, In("v"))
  {
    Declarations();
    Nodes();
    Asks();
    RootReachable(DISK, START_NODE);
    StepReachable(START_NODE, 0, "a", "x");
    StepReachable(START_NODE, 1, "b", "y");
    StepReachable(In("x"), 0, "c", "u");
    StepReachable(In("y"), 0, "c", "v");
  }

  lemma OnlyNodes(n: Node)
    requires Reachable(DISK, START_NODE, n)
    ensures n == START_NODE || n == In(n.dir)
  {
    var p :| Route(DISK, START_NODE, p) && p[|p| - 1] == n;
    if |p| > 1 {
      RouteShortened(DISK, START_NODE, p);
      var m: Node := p[|p| - 2];
      var i :| 0 <= i < |References(m.contract)| && EdgeAt(DISK, m, i, n);
    }
  }

  /** The content hashes of the disk do not collide. */
  lemma DiskIsContentAddressed()
    ensures ContentAddressed(DISK, START_NODE)
  {
    forall n, m | Reachable(DISK, START_NODE, n) && Reachable(DISK, START_NODE, m) && n.from == m.from
      ensures n.contract == m.contract
    {
      OnlyNodes(n);
      OnlyNodes(m);
      assert n != START_NODE ==> n.from[6..] == HashOf(n.dir);
      assert m != START_NODE ==> m.from[6..] == HashOf(m.dir);
    }
  }

  lemma PinsMissed()
    ensures Pin(D, "q") !in LAST.out
  {
  }

  /** The closure is built and is not exact: the second child's pin is missing. */
  lemma TwinsSlipThrough()
    ensures Coherent(DISK) && Closed(DISK, ALL) && Occurrences("", ROOT) <= ALL
    ensures WalkContract(DISK, START_NODE, START, ALL) == Success(LAST)
    ensures ContentAddressed(DISK, START_NODE)
    ensures !Exact(DISK, START_NODE, LAST.out)
    ensures !ContentFixesResolution(DISK, START_NODE)
  {
    DiskIsCoherent();
    DiskIsClosed();
    DiskIsContentAddressed();
    Declarations();
    TwinsAreBuilt();
    ChildrenReachable();
    SecondChildDiffers();
  }

  lemma SecondChildDiffers()
    ensures In("u").from == In("v").from
    ensures exists i :: 0 <= i < |References(In("u").contract)| &&
                        !SameResolution(DISK.ask("u", References(In("u").contract)[i].ref), DISK.ask("v", References(In("u").contract)[i].ref))
    ensures !Pinned(DISK, In("v"), LAST.out)
  {
    Declarations();
    Nodes();
    Asks();
    PinsMissed();
    var d := References(In("u").contract)[0];
    assert !SameResolution(DISK.ask("u", d.ref), DISK.ask("v", d.ref));
    assert EntryFor(TWO, d, DISK.ask("v", d.ref).value) == Pin(D, "q");
  }
}
