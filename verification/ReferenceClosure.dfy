/**
 buildReferenceClosure as the program runs it (internal/app/lock_build.go:98-155): tables
 updated in place, with a memo per directory and ref text.
 */
module ReferenceClosure {
  import opened Basics
  import opened Text
  import opened Contracts
  import opened LockFile
  import opened ReferenceGraph
  import opened ReferenceMeaning
  import opened ReferenceWalk
  import opened ReferenceResolver

  function MemoKey(dir: string, ref: string): string {
    dir + [NUL] + ref
  }

  /** What a contract repeats and what it refers to. */
  method Read(c: Contract) returns (dups: seq<Duplicate>, refs: seq<ReferenceRef>)
    ensures dups == Duplicates(c) && refs == References(c)
  {
    dups := DuplicateDeclarations(c);
    refs := ReferenceRefs(c);
  }

  class ClosureBuilder {
    const w: World
    var walked: set<string>
    var resolved: map<string, RefResolution>
    var seen: map<Occurrence, Reference>
    var out: seq<Reference>

    constructor (w: World)
      ensures this.w == w && State() == START && Remembers()
    {
      this.w := w;
      walked, resolved, seen, out := {}, map[], map[], [];
    }

    function State(): Walk
      reads this
    {
      Walk(walked, seen, out)
    }

    /** The memo answers what the resolver would, for every directory. */
    ghost predicate Remembers()
      reads this
    {
      forall dir, ref :: Free(dir, NUL) && MemoKey(dir, ref) in resolved ==>
                           w.ask(dir, ref) == Success(resolved[MemoKey(dir, ref)])
    }

    /** The resolution of `ref` from `dir`, fetched at most once. */
    method Lookup(dir: string, ref: string) returns (r: Result<RefResolution, string>)
      requires Remembers() && Free(dir, NUL)
      modifies this`resolved
      ensures Remembers() && r == w.ask(dir, ref)
    {
      var key := MemoKey(dir, ref);
      if key in resolved {
        return Success(resolved[key]);
      }
      r := w.ask(dir, ref);
      if r.Success? {
        resolved := resolved[key := r.value];
        forall dir', ref' | Free(dir', NUL) && MemoKey(dir', ref') in resolved
          ensures w.ask(dir', ref') == Success(resolved[MemoKey(dir', ref')])
        {
          if MemoKey(dir', ref') == key {
            HeadSplits(dir, dir', ref, ref', NUL);
          }
        }
      }
    }

    method WalkNode(n: Node, ghost u: set<Occurrence>) returns (err: Option<BuildError>)
      requires Coherent(w) && Closed(w, u) && Occurrences(n.from, n.contract) <= u
      requires Remembers() && Free(n.dir, NUL)
      modifies this
      ensures Remembers()
      ensures WalkContract(w, n, old(State()), u) == if err.Some? then Failure(err.value) else Success(State())
      decreases u - seen.Keys, 1
    {
      ghost var goal := WalkContract(w, n, State(), u);
      var dups, refs := Read(n.contract);
      if |dups| > 0 {
        return Some(DuplicateDeclaration(Occurrence(n.from, dups[0].kind, dups[0].name)));
      }
      var i := 0;
      while i < |refs|
        invariant 0 <= i <= |refs|
        invariant Remembers() && old(seen.Keys) <= seen.Keys
        invariant goal == WalkFrom(w, n, i, State(), u)
      {
        var d := refs[i];
        var memo := Lookup(n.dir, d.ref);
        if memo.Failure? {
          return Some(Unresolved(d.ref, memo.error));
        }
        var r := memo.value;
        var entry := r.entry.(from := n.from, kind := d.kind, name := d.name);
        i := i + 1;
        if entry.Occ() in seen {
          if seen[entry.Occ()] != entry {
            return Some(Ambiguous(entry.Occ(), seen[entry.Occ()], entry));
          }
          continue;
        }
        assert entry.Occ() in u - seen.Keys;
        seen := seen[entry.Occ() := entry];
        out := out + [entry];
        if r.identity in walked {
          continue;
        }
        walked := walked + {r.identity};
        assert entry.Occ() in u - old(seen.Keys) && entry.Occ() !in u - seen.Keys;
        var failed := WalkNode(Node(r.child, r.childDir, entry.DestinationID()), u);
        if failed.Some? {
          return failed;
        }
      }
      return None;
    }
  }

  /**
   Every declaration the root reaches, pinned once. `u` bounds the declarations that can occur;
   it exists whenever the graph has finitely many content identities (FiniteContentsClosed).
   */
  method BuildReferenceClosure(w: World, c: Contract, baseDir: string, ghost u: set<Occurrence>)
    returns (r: Result<seq<Reference>, BuildError>)
    requires Coherent(w) && Closed(w, u) && Occurrences("", c) <= u && Free(baseDir, NUL)
    ensures var root := Node(c, baseDir, "");
            && (r.Success? <==> WalkContract(w, root, START, u).Success?)
            && (r.Success? ==> r.value == WalkContract(w, root, START, u).value.out)
            && (r.Success? ==> DistinctOccurrences(r.value) && OnlyPins(w, root, r.value))
            && (r.Success? && ContentAddressed(w, root) ==>
                  (PinsEverything(w, root, r.value) <==> MeanTheSame(w, root)))
            && (r.Failure? ==> Explains(w, root, r.error))
  {
    ghost var root := Node(c, baseDir, "");
    var b := new ClosureBuilder(w);
    var err := b.WalkNode(Node(c, baseDir, ""), u);
    if err.Some? {
      r := Failure(err.value);
      RefusalExplained(w, root, u);
    } else {
      r := Success(b.out);
      ghost var _ := WalkFinished(w, root, u);
      DeclaredIs(w, root, r.value);
      ExactMeans(w, root, r.value);
      FixedMeans(w, root);
      if ContentAddressed(w, root) && ContentFixesResolution(w, root) {
        WalkIsExact(w, root, u);
      }
      if ContentAddressed(w, root) && Exact(w, root, r.value) {
        ExactNeedsFixedResolution(w, root, r.value);
      }
    }
  }

  /** A lock whose closure holds registry refs only is exact whenever it is built. */
  method BuildRegistryClosure(s: Sources, c: Contract, baseDir: string, ghost u: set<Occurrence>)
    returns (r: Result<seq<Reference>, BuildError>)
    requires PathsNulFree(s) && Free(baseDir, NUL)
    requires Closed(WorldOf(s), u) && Occurrences("", c) <= u
    requires RegistryOnly(s, Node(c, baseDir, ""))
    ensures var root := Node(c, baseDir, "");
            && (r.Success? <==> AllResolve(WorldOf(s), root))
            && (r.Success? ==> PinsEverything(WorldOf(s), root, r.value))
  {
    ghost var root := Node(c, baseDir, "");
    ResolverCoherent(s);
    RegistryFixesResolution(s, root);
    ExactIff(WorldOf(s), root, u);
    FixedMeans(WorldOf(s), root);
    ResolvableMeans(WorldOf(s), root);
    r := BuildReferenceClosure(WorldOf(s), c, baseDir, u);
    if r.Success? {
      ExactMeans(WorldOf(s), root, r.value);
      ExactNeedsFixedResolution(WorldOf(s), root, r.value);
    }
  }
}
