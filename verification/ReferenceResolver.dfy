/**
 How a ref text resolves (internal/app/lock_build.go:189-224, internal/app/graph.go:132-140,
 internal/app/lock_resolve.go:32-49) over a file system and a registry given as functions.
 */
module ReferenceResolver {
  import opened Basics
  import opened Text
  import opened Contracts
  import opened LockFile
  import opened ReferenceGraph

  const OCI_BASE := "oci://"

  datatype Bundle = Bundle(contract: Contract, hash: Result<string, string>)

  /**
   The outside world. A registry is content addressed: the pinned digest names the contract,
   because pulling a bundle and reading its digest is one observation.
   */
  datatype Sources = Sources(join: (string, string) -> string,
                             load: string -> Result<Bundle, string>,
                             pin: string -> Result<string, string>,
                             blob: string -> Contract)

  datatype ParsedRef = ParsedRef(local: bool, location: string)

  function ParseDependencyRef(raw: string): ParsedRef {
    if "oci://" <= raw then ParsedRef(false, raw[6..])
    else if "file://" <= raw then ParsedRef(true, raw[7..])
    else ParsedRef(true, raw)
  }

  /** The directory a local reference means; a registry bundle may name none. */
  function LocalDir(s: Sources, path: string, base: string): Result<string, string> {
    if base == OCI_BASE then Failure("a local reference declared inside a registry bundle")
    else if "/" <= path || base == "" then Success(path)
    else Success(s.join(base, path))
  }

  function ResolveLocal(s: Sources, location: string, dir: string): Result<RefResolution, string> {
    match LocalDir(s, location, dir)
    case Failure(e) => Failure(e)
    case Success(path) =>
      match s.load(path)
      case Failure(e) => Failure(e)
      case Success(b) =>
        match b.hash
        case Failure(e) => Failure(e)
        case Success(h) =>
          Success(RefResolution(Reference("", "", "", "local", "", location, b.contract.version, "", h),
                                b.contract, path, "local:" + path))
  }

  function ResolvePinned(s: Sources, ref: string, location: string): Result<RefResolution, string> {
    match s.pin(location)
    case Failure(e) => Failure(e)
    case Success(digest) =>
      if digest == "" then Failure("the registry would not say what it points at")
      else
        var c := s.blob(digest);
        Success(RefResolution(Reference("", "", "", "oci", ref, "", c.version, digest, ""),
                              c, OCI_BASE, "oci:" + digest))
  }

  /** Pins one reference. Its identity is the resolved path or digest, never the ref text. */
  function ResolveReference(s: Sources, dir: string, ref: string): (r: Result<RefResolution, string>)
    ensures r.Success? && dir == OCI_BASE ==> r.value.childDir == OCI_BASE && "oci:" <= r.value.identity
  {
    var parsed := ParseDependencyRef(ref);
    if parsed.local then ResolveLocal(s, parsed.location, dir)
    else ResolvePinned(s, ref, parsed.location)
  }

  function WorldOf(s: Sources): World {
    World((dir, ref) => ResolveReference(s, dir, ref))
  }

  /** Opening a path that holds a NUL fails. */
  ghost predicate PathsNulFree(s: Sources) {
    forall path :: s.load(path).Success? ==> Free(path, NUL)
  }

  /** The identity that stops the walk fixes the bundle it stands for. */
  lemma IdentityFixesTarget(s: Sources, dir: string, ref: string, dir': string, ref': string)
    requires ResolveReference(s, dir, ref).Success? && ResolveReference(s, dir', ref').Success?
    requires ResolveReference(s, dir, ref).value.identity == ResolveReference(s, dir', ref').value.identity
    ensures Target(ResolveReference(s, dir, ref).value) == Target(ResolveReference(s, dir', ref').value)
  {
    var a, b := ResolveReference(s, dir, ref).value, ResolveReference(s, dir', ref').value;
    assert a.identity[0] == b.identity[0];
    if ParseDependencyRef(ref).local {
      assert a.identity[6..] == a.childDir && b.identity[6..] == b.childDir;
    } else {
      assert a.identity[4..] == a.entry.digest && b.identity[4..] == b.entry.digest;
    }
  }

  lemma ResolverCoherent(s: Sources)
    requires PathsNulFree(s)
    ensures Coherent(WorldOf(s))
  {
    var w := WorldOf(s);
    forall dir, ref, dir', ref' | w.ask(dir, ref).Success? && w.ask(dir', ref').Success?
                                  && w.ask(dir, ref).value.identity == w.ask(dir', ref').value.identity
      ensures Target(w.ask(dir, ref).value) == Target(w.ask(dir', ref').value)
    {
      IdentityFixesTarget(s, dir, ref, dir', ref');
    }
    assert Free(OCI_BASE, NUL);
  }

  // ---- registry-only closures -----------------------------------------------

  ghost predicate RegistryOnly(s: Sources, root: Node) {
    forall n | Reachable(WorldOf(s), root, n) ::
      forall d | d in References(n.contract) :: !ParseDependencyRef(d.ref).local
  }

  /** In a registry-only closure a node other than the root is determined by its content identity. */
  lemma RegistryNode(s: Sources, root: Node, n: Node)
    requires RegistryOnly(s, root) && Reachable(WorldOf(s), root, n)
    requires root.from == ""
    ensures n == root || (|n.from| > 4 && n.dir == OCI_BASE && n.contract == s.blob(n.from[4..]))
  {
    var w := WorldOf(s);
    var p :| Route(w, root, p) && p[|p| - 1] == n;
    if |p| > 1 {
      RouteShortened(w, root, p);
      var q := p[..|p| - 1];
      var m := p[|p| - 2];
      assert q[|q| - 1] == m && Reachable(w, root, m);
      var i :| 0 <= i < |References(m.contract)| && EdgeAt(w, m, i, n);
      var d := References(m.contract)[i];
      assert d in References(m.contract) && !ParseDependencyRef(d.ref).local;
      PinnedTarget(s, m.dir, d.ref);
    }
  }

  lemma PinnedTarget(s: Sources, dir: string, ref: string)
    requires !ParseDependencyRef(ref).local && ResolveReference(s, dir, ref).Success?
    ensures var t := Target(ResolveReference(s, dir, ref).value);
            |t.from| > 4 && t.dir == OCI_BASE && t.contract == s.blob(t.from[4..])
  {
  }

  /** A closure with registry refs only meets the condition of an exact lock. */
  lemma RegistryFixesResolution(s: Sources, root: Node)
    requires RegistryOnly(s, root) && root.from == ""
    ensures ContentAddressed(WorldOf(s), root) && ContentFixesResolution(WorldOf(s), root)
  {
    forall n, m | Reachable(WorldOf(s), root, n) && Reachable(WorldOf(s), root, m) && n.from == m.from
      ensures n == m
    {
      RegistryNode(s, root, n);
      RegistryNode(s, root, m);
    }
  }

  // ---- what a ref pins ------------------------------------------------------------------------

  /** Where a ref that names no registry leads, seen from a directory. */
  function PathFrom(s: Sources, dir: string, location: string): string {
    if dir == "" || (location != "" && location[0] == '/') then location else s.join(dir, location)
  }

  /** A registry ref pins the digest the registry gives and the contract that digest names. */
  lemma {:induction false} RegistryRefPins(s: Sources, dir: string, location: string)
    ensures var r := ResolveReference(s, dir, "oci://" + location); var d := s.pin(location);
            && (r.Success? <==> d.Success? && d.value != "")
            && (r.Success? ==> && r.value.entry.source == "oci" && r.value.entry.digest == d.value && r.value.entry.ref == "oci://" + location
                               && r.value.entry.version == s.blob(d.value).version && r.value.child == s.blob(d.value) && r.value.childDir == "oci://")
  {
    var ref := "oci://" + location;
    assert "oci://" <= ref && ref[6..] == location;
  }

  /** Any other ref pins the hash of the bundle at its path; inside a registry bundle it pins nothing. */
  lemma {:induction false} LocalRefPins(s: Sources, dir: string, ref: string)
    requires !("oci://" <= ref)
    ensures var location := if "file://" <= ref then ref[7..] else ref;
            var r := ResolveReference(s, dir, ref); var path := PathFrom(s, dir, location); var b := s.load(path);
            && (r.Success? <==> dir != "oci://" && b.Success? && b.value.hash.Success?)
            && (r.Success? ==> && r.value.entry.source == "local" && r.value.entry.contentHash == b.value.hash.value && r.value.entry.path == location
                               && r.value.entry.version == b.value.contract.version && r.value.child == b.value.contract && r.value.childDir == path)
  {
  }
}
