/**
 What an exact closure is, told by the policies and configurations contracts declare, and that the
 graph the walk is proved over says the same (internal/app/lock_build.go:71-155).
 */
module ReferenceMeaning {
  import opened Contracts
  import opened LockFile
  import opened ReferenceGraph

  /** The contract `n` declares `d`, and it leads to `m`. */
  ghost predicate LeadsBy(w: World, n: Node, d: ReferenceRef, m: Node) {
    && Refers(n.contract, d) && w.ask(n.dir, d.ref).Success?
    && var r := w.ask(n.dir, d.ref).value; m == Node(r.child, r.childDir, r.entry.DestinationID())
  }

  ghost predicate Leads(w: World, n: Node, m: Node) {
    exists d :: LeadsBy(w, n, d, m)
  }

  ghost predicate Trail(w: World, root: Node, p: seq<Node>) {
    |p| > 0 && p[0] == root && forall i | 0 <= i < |p| - 1 :: Leads(w, p[i], p[i + 1])
  }

  /** In the closure of the root. */
  ghost predicate Met(w: World, root: Node, n: Node) {
    exists p :: Trail(w, root, p) && p[|p| - 1] == n
  }

  /** `e` is the pin of the declaration `d` of `n`: all of what its ref resolves to, under the declaration's own name. */
  ghost predicate PinOf(w: World, n: Node, d: ReferenceRef, e: Reference) {
    && w.ask(n.dir, d.ref).Success?
    && var r := w.ask(n.dir, d.ref).value.entry;
       e == Reference(n.from, d.kind, d.name, r.source, r.ref, r.path, r.version, r.digest, r.contentHash)
  }

  /** Every policy and configuration with a ref that any contract in the closure declares has its one pin, and nothing else is pinned. */
  ghost predicate PinsEverything(w: World, root: Node, out: seq<Reference>) {
    && (forall i, j | 0 <= i < j < |out| :: (out[i].from, out[i].kind, out[i].name) != (out[j].from, out[j].kind, out[j].name))
    && (forall n | Met(w, root, n) :: DistinctNames(n.contract.policies) && DistinctNames(n.contract.configurations))
    && (forall n, d | Met(w, root, n) && Refers(n.contract, d) :: exists e :: e in out && PinOf(w, n, d, e))
    && OnlyPins(w, root, out)
  }

  /** Each entry is the pin of a declaration of some contract in the closure. */
  ghost predicate OnlyPins(w: World, root: Node, out: seq<Reference>) {
    forall e | e in out :: exists n, d :: Met(w, root, n) && Refers(n.contract, d) && PinOf(w, n, d, e)
  }

  /** Contracts of one content mean the same by their refs wherever they are met. */
  ghost predicate MeanTheSame(w: World, root: Node) {
    forall n, m, d | Met(w, root, n) && Met(w, root, m) && n.from == m.from && Refers(n.contract, d) ::
      SameResolution(w.ask(n.dir, d.ref), w.ask(m.dir, d.ref))
  }

  /** No contract in the closure declares a name twice within a kind or a ref that does not resolve. */
  ghost predicate AllResolve(w: World, root: Node) {
    && (forall n | Met(w, root, n) :: DistinctNames(n.contract.policies) && DistinctNames(n.contract.configurations))
    && (forall n, d | Met(w, root, n) && Refers(n.contract, d) :: w.ask(n.dir, d.ref).Success?)
  }

  // ---- the graph says the same ---------------------------------------------------------------

  lemma {:induction false} ListedAt(c: Contract, d: ReferenceRef) returns (i: nat)
    requires Refers(c, d)
    ensures i < |References(c)| && References(c)[i] == d
  {
    ReferencesAreDeclared(c, d);
    i :| 0 <= i < |References(c)| && References(c)[i] == d;
  }

  lemma {:induction false} ListedIsDeclared(c: Contract, i: nat)
    requires i < |References(c)|
    ensures Refers(c, References(c)[i])
  {
    ReferencesAreDeclared(c, References(c)[i]);
  }

  lemma {:induction false} EdgeIsLead(w: World, n: Node, m: Node)
    ensures Edge(w, n, m) <==> Leads(w, n, m)
  {
    if Edge(w, n, m) {
      var i :| 0 <= i < |References(n.contract)| && EdgeAt(w, n, i, m);
      ListedIsDeclared(n.contract, i);
      assert LeadsBy(w, n, References(n.contract)[i], m);
    }
    if Leads(w, n, m) {
      var d :| LeadsBy(w, n, d, m);
      var i := ListedAt(n.contract, d);
      assert EdgeAt(w, n, i, m);
    }
  }

  lemma {:induction false} RouteIsTrail(w: World, root: Node, p: seq<Node>)
    ensures Route(w, root, p) <==> Trail(w, root, p)
  {
    forall i | 0 <= i < |p| - 1 ensures Edge(w, p[i], p[i + 1]) <==> Leads(w, p[i], p[i + 1]) {
      EdgeIsLead(w, p[i], p[i + 1]);
    }
  }

  lemma {:induction false} ReachableIsMet(w: World, root: Node, n: Node)
    ensures Reachable(w, root, n) <==> Met(w, root, n)
  {
    if Reachable(w, root, n) {
      var p :| Route(w, root, p) && p[|p| - 1] == n;
      RouteIsTrail(w, root, p);
    }
    if Met(w, root, n) {
      var p :| Trail(w, root, p) && p[|p| - 1] == n;
      RouteIsTrail(w, root, p);
    }
  }

  lemma {:induction false} PinIsEntry(w: World, n: Node, d: ReferenceRef, e: Reference)
    ensures PinOf(w, n, d, e) <==> w.ask(n.dir, d.ref).Success? && e == EntryFor(n.from, d, w.ask(n.dir, d.ref).value)
  {
  }

  lemma {:induction false} PinnedIs(w: World, n: Node, out: seq<Reference>)
    ensures Pinned(w, n, out) <==>
            && DistinctNames(n.contract.policies) && DistinctNames(n.contract.configurations)
            && forall d | Refers(n.contract, d) :: exists e :: e in out && PinOf(w, n, d, e)
  {
    if Pinned(w, n, out) {
      forall d | Refers(n.contract, d) ensures exists e :: e in out && PinOf(w, n, d, e) {
        var i := ListedAt(n.contract, d);
        PinIsEntry(w, n, d, EntryFor(n.from, d, w.ask(n.dir, d.ref).value));
      }
    }
    if NoDuplicates(n.contract) && forall d | Refers(n.contract, d) :: exists e :: e in out && PinOf(w, n, d, e) {
      forall i | 0 <= i < |References(n.contract)|
        ensures w.ask(n.dir, References(n.contract)[i].ref).Success?
        ensures EntryFor(n.from, References(n.contract)[i], w.ask(n.dir, References(n.contract)[i].ref).value) in out
      {
        ListedIsDeclared(n.contract, i);
        var d := References(n.contract)[i];
        var e :| e in out && PinOf(w, n, d, e);
        PinIsEntry(w, n, d, e);
      }
    }
  }

  lemma {:induction false} DeclaresIs(w: World, n: Node, e: Reference)
    ensures Declares(w, n, e) <==> exists d :: Refers(n.contract, d) && PinOf(w, n, d, e)
  {
    if Declares(w, n, e) {
      var i :| 0 <= i < |References(n.contract)| && DeclaresAt(w, n, i, e);
      ListedIsDeclared(n.contract, i);
      PinIsEntry(w, n, References(n.contract)[i], e);
    }
    if d :| Refers(n.contract, d) && PinOf(w, n, d, e) {
      var i := ListedAt(n.contract, d);
      PinIsEntry(w, n, d, e);
      assert DeclaresAt(w, n, i, e);
    }
  }

  lemma {:induction false} DeclaredIs(w: World, root: Node, out: seq<Reference>)
    ensures Declared(w, root, out) <==> OnlyPins(w, root, out)
  {
    if Declared(w, root, out) {
      forall e | e in out ensures exists n, d :: Met(w, root, n) && Refers(n.contract, d) && PinOf(w, n, d, e) {
        var n :| Reachable(w, root, n) && Declares(w, n, e);
        ReachableIsMet(w, root, n);
        DeclaresIs(w, n, e);
      }
    }
    if OnlyPins(w, root, out) {
      forall e | e in out ensures exists n :: Reachable(w, root, n) && Declares(w, n, e) {
        var n, d :| Met(w, root, n) && Refers(n.contract, d) && PinOf(w, n, d, e);
        ReachableIsMet(w, root, n);
        DeclaresIs(w, n, e);
      }
    }
  }

  /** The walk's closure is exact exactly when it pins everything the contracts declare. */
  lemma {:induction false} ExactMeans(w: World, root: Node, out: seq<Reference>)
    ensures Exact(w, root, out) <==> PinsEverything(w, root, out)
  {
    DeclaredIs(w, root, out);
    forall n ensures Reachable(w, root, n) <==> Met(w, root, n) {
      ReachableIsMet(w, root, n);
    }
    forall n ensures Pinned(w, n, out) <==>
                     && DistinctNames(n.contract.policies) && DistinctNames(n.contract.configurations)
                     && forall d | Refers(n.contract, d) :: exists e :: e in out && PinOf(w, n, d, e)
    {
      PinnedIs(w, n, out);
    }
  }

  lemma {:induction false} FixedMeans(w: World, root: Node)
    ensures ContentFixesResolution(w, root) <==> MeanTheSame(w, root)
  {
    forall n ensures Reachable(w, root, n) <==> Met(w, root, n) {
      ReachableIsMet(w, root, n);
    }
    if ContentFixesResolution(w, root) {
      forall n, m, d | Met(w, root, n) && Met(w, root, m) && n.from == m.from && Refers(n.contract, d)
        ensures SameResolution(w.ask(n.dir, d.ref), w.ask(m.dir, d.ref))
      {
        var i := ListedAt(n.contract, d);
      }
    }
    if MeanTheSame(w, root) {
      forall n, m, i | Reachable(w, root, n) && Reachable(w, root, m) && n.from == m.from && 0 <= i < |References(n.contract)|
        ensures SameResolution(w.ask(n.dir, References(n.contract)[i].ref), w.ask(m.dir, References(n.contract)[i].ref))
      {
        ListedIsDeclared(n.contract, i);
      }
    }
  }

  lemma {:induction false} ResolvableMeans(w: World, root: Node)
    ensures Resolvable(w, root) <==> AllResolve(w, root)
  {
    forall n ensures Reachable(w, root, n) <==> Met(w, root, n) {
      ReachableIsMet(w, root, n);
    }
    if Resolvable(w, root) {
      forall n, d | Met(w, root, n) && Refers(n.contract, d) ensures w.ask(n.dir, d.ref).Success? {
        var i := ListedAt(n.contract, d);
      }
    }
    if AllResolve(w, root) {
      forall n, i | Reachable(w, root, n) && 0 <= i < |References(n.contract)| ensures w.ask(n.dir, References(n.contract)[i].ref).Success? {
        ListedIsDeclared(n.contract, i);
      }
    }
  }

  // ---- identities -----------------------------------------------------------------------------

  /** Two references stand for one content if and only if they are of one source and pin one hash or digest. */
  lemma {:induction false} SameContentIff(a: Reference, b: Reference)
    ensures a.DestinationID() == b.DestinationID() && a.DestinationID() != "" <==>
            || (a.source == "local" && b.source == "local" && a.contentHash == b.contentHash && a.contentHash != "")
            || (a.source == "oci" && b.source == "oci" && a.digest == b.digest && a.digest != "")
  {
    var x, y := a.DestinationID(), b.DestinationID();
    if x == y && x != "" {
      assert x[0] == y[0];
      if a.source == "local" {
        assert x[6..] == a.contentHash && y[6..] == b.contentHash;
      } else {
        assert x[4..] == a.digest && y[4..] == b.digest;
      }
    }
  }
}
