/** Comparing, merging and writing locks (internal/app/lock.go, pkg/lock/lock.go). */
module LockUpdate {
  import opened Basics
  import opened Order
  import opened LockFile

  datatype Subject = Dependency(name: string) | Declared(occurrence: Occurrence)

  datatype Divergence =
    | OldSchema(version: int)
    | DependencySetChanged
    | NewDependency(name: string)
    | ReferenceSetChanged
    | NewReference(occurrence: Occurrence)
    | Repointed(occurrence: Occurrence)
    | LocalDrift(subject: Subject, locked: string, current: string)
    | Drift(subject: Subject, locked: string, current: string)

  // ---- lookups ------------------------------------------------------------------

  /** The entry at `k` is the first called `name`. */
  predicate FirstNamed(deps: seq<Entry>, name: string, k: int) {
    0 <= k < |deps| && deps[k].name == name && forall j | 0 <= j < k :: deps[j].name != name
  }

  /** The first dependency called `name`. */
  function FindFrom(deps: seq<Entry>, name: string, i: nat): (r: Option<Entry>)
    requires i <= |deps|
    ensures r.None? <==> forall k | i <= k < |deps| :: deps[k].name != name
    ensures r.Some? ==> r.value in deps && r.value.name == name
    decreases |deps| - i
  {
    if i == |deps| then None
    else if deps[i].name == name then Some(deps[i])
    else FindFrom(deps, name, i + 1)
  }

  function Find(deps: seq<Entry>, name: string): Option<Entry> {
    FindFrom(deps, name, 0)
  }

  lemma {:induction false} FindIsFirst(deps: seq<Entry>, name: string, k: nat)
    requires FirstNamed(deps, name, k)
    ensures Find(deps, name) == Some(deps[k])
  {
    FindFromIsFirst(deps, name, k, 0);
  }

  lemma {:induction false} FindFromIsFirst(deps: seq<Entry>, name: string, k: nat, i: nat)
    requires FirstNamed(deps, name, k) && i <= k
    ensures FindFrom(deps, name, i) == Some(deps[k])
    decreases k - i
  {
    if i < k {
      FindFromIsFirst(deps, name, k, i + 1);
    }
  }

  method FindDependency(deps: seq<Entry>, name: string) returns (r: Option<Entry>)
    ensures r == Find(deps, name)
    ensures r.None? <==> forall k | 0 <= k < |deps| :: deps[k].name != name
    ensures r.Some? ==> exists k :: FirstNamed(deps, name, k) && r.value == deps[k]
  {
    var i := 0;
    while i < |deps|
      invariant 0 <= i <= |deps| && forall j | 0 <= j < i :: deps[j].name != name
      invariant Find(deps, name) == FindFrom(deps, name, i)
    {
      if deps[i].name == name {
        assert FirstNamed(deps, name, i);
        return Some(deps[i]);
      }
      i := i + 1;
    }
    return None;
  }

  /** The references by occurrence, the last one winning. */
  function ByOccurrence(refs: seq<Reference>): (m: map<Occurrence, Reference>)
    ensures forall o | o in m :: m[o] in refs && m[o].Occ() == o
    ensures forall r | r in refs :: r.Occ() in m
  {
    if refs == [] then map[]
    else
      var l := |refs| - 1;
      ByOccurrence(refs[..l])[refs[l].Occ() := refs[l]]
  }

  // ---- comparing -----------------------------------------------------------------

  function CompareEntry(subject: Subject, source: string, lockedDigest: string, lockedHash: string,
                        freshDigest: string, freshHash: string): Option<Divergence>
  {
    if source == "local" then
      if lockedHash != freshHash then Some(LocalDrift(subject, lockedHash, freshHash)) else None
    else if lockedDigest != freshDigest then Some(Drift(subject, lockedDigest, freshDigest))
    else None
  }

  function CompareDependency(existing: seq<Entry>, fe: Entry): Option<Divergence> {
    match Find(existing, fe.name)
    case None => Some(NewDependency(fe.name))
    case Some(ee) => CompareEntry(Dependency(fe.name), fe.source, ee.digest, ee.contentHash, fe.digest, fe.contentHash)
  }

  function CompareReference(byID: map<Occurrence, Reference>, fr: Reference): Option<Divergence> {
    var id := fr.Occ();
    if id !in byID then Some(NewReference(id))
    else
      var er := byID[id];
      if er.source != fr.source || er.ref != fr.ref || er.path != fr.path then Some(Repointed(id))
      else CompareEntry(Declared(id), fr.source, er.digest, er.contentHash, fr.digest, fr.contentHash)
  }

  function FirstDependency(existing: seq<Entry>, built: seq<Entry>, i: nat): (r: Option<Divergence>)
    requires i <= |built|
    ensures r.None? <==> forall k | i <= k < |built| :: CompareDependency(existing, built[k]).None?
    decreases |built| - i
  {
    if i == |built| then None
    else
      var d := CompareDependency(existing, built[i]);
      if d.Some? then d else FirstDependency(existing, built, i + 1)
  }

  function FirstReference(byID: map<Occurrence, Reference>, built: seq<Reference>, i: nat): (r: Option<Divergence>)
    requires i <= |built|
    ensures r.None? <==> forall k | i <= k < |built| :: CompareReference(byID, built[k]).None?
    decreases |built| - i
  {
    if i == |built| then None
    else
      var d := CompareReference(byID, built[i]);
      if d.Some? then d else FirstReference(byID, built, i + 1)
  }

  /** The first divergence of `existing` from `built`, in the order the program looks for one. */
  function Compare(existing: Lock, built: Lock): Option<Divergence> {
    if existing.lockVersion != CURRENT_LOCK_VERSION then Some(OldSchema(existing.lockVersion))
    else if |existing.dependencies| != |built.dependencies| then Some(DependencySetChanged)
    else
      var d := FirstDependency(existing.dependencies, built.dependencies, 0);
      if d.Some? then d
      else if |existing.references| != |built.references| then Some(ReferenceSetChanged)
      else FirstReference(ByOccurrence(existing.references), built.references, 0)
  }

  method CompareDependencies(existing: seq<Entry>, built: seq<Entry>) returns (err: Option<Divergence>)
    ensures err == FirstDependency(existing, built, 0)
  {
    var i := 0;
    while i < |built|
      invariant 0 <= i <= |built|
      invariant FirstDependency(existing, built, 0) == FirstDependency(existing, built, i)
    {
      var fe := built[i];
      var ee := FindDependency(existing, fe.name);
      if ee.None? {
        return Some(NewDependency(fe.name));
      }
      var d := CompareEntry(Dependency(fe.name), fe.source, ee.value.digest, ee.value.contentHash, fe.digest, fe.contentHash);
      if d.Some? {
        return d;
      }
      i := i + 1;
    }
    return None;
  }

  method IndexReferences(refs: seq<Reference>) returns (byID: map<Occurrence, Reference>)
    ensures byID == ByOccurrence(refs)
  {
    byID := map[];
    for k := 0 to |refs|
      invariant byID == ByOccurrence(refs[..k])
    {
      assert refs[..k + 1][..k] == refs[..k];
      byID := byID[refs[k].Occ() := refs[k]];
    }
    assert refs[..|refs|] == refs;
  }

  method CompareReferences(existing: seq<Reference>, built: seq<Reference>) returns (err: Option<Divergence>)
    ensures err == FirstReference(ByOccurrence(existing), built, 0)
  {
    var byID := IndexReferences(existing);
    var i := 0;
    while i < |built|
      invariant 0 <= i <= |built|
      invariant FirstReference(byID, built, 0) == FirstReference(byID, built, i)
    {
      var fr := built[i];
      var id := fr.Occ();
      if id !in byID {
        return Some(NewReference(id));
      }
      var er := byID[id];
      if er.source != fr.source || er.ref != fr.ref || er.path != fr.path {
        return Some(Repointed(id));
      }
      var d := CompareEntry(Declared(id), fr.source, er.digest, er.contentHash, fr.digest, fr.contentHash);
      if d.Some? {
        return d;
      }
      i := i + 1;
    }
    return None;
  }

  method CompareLocks(existing: Lock, built: Lock) returns (err: Option<Divergence>)
    ensures err == Compare(existing, built)
  {
    if existing.lockVersion != CURRENT_LOCK_VERSION {
      return Some(OldSchema(existing.lockVersion));
    }
    if |existing.dependencies| != |built.dependencies| {
      return Some(DependencySetChanged);
    }
    var d := CompareDependencies(existing.dependencies, built.dependencies);
    if d.Some? {
      return d;
    }
    if |existing.references| != |built.references| {
      return Some(ReferenceSetChanged);
    }
    err := CompareReferences(existing.references, built.references);
  }

  // ---- what acceptance means ---------------------------------------------------------

  predicate Distinct<K(==)>(ks: seq<K>) {
    forall i, j | 0 <= i < j < |ks| :: ks[i] != ks[j]
  }

  function Names(deps: seq<Entry>): (ns: seq<string>)
    ensures |ns| == |deps| && forall i | 0 <= i < |deps| :: ns[i] == deps[i].name
  {
    seq(|deps|, i requires 0 <= i < |deps| => deps[i].name)
  }

  function Ids(refs: seq<Reference>): (ids: seq<Occurrence>)
    ensures |ids| == |refs| && forall i | 0 <= i < |refs| :: ids[i] == refs[i].Occ()
  {
    seq(|refs|, i requires 0 <= i < |refs| => refs[i].Occ())
  }

  /** One entry per dependency name and per declaration, as a built closure holds them. */
  predicate Unambiguous(l: Lock) {
    Distinct(Names(l.dependencies)) && Distinct(Ids(l.references))
  }

  predicate SamePin(source: string, lockedDigest: string, lockedHash: string, digest: string, hash: string) {
    if source == "local" then lockedHash == hash else lockedDigest == digest
  }

  predicate SameDependency(ee: Entry, fe: Entry) {
    SamePin(fe.source, ee.digest, ee.contentHash, fe.digest, fe.contentHash)
  }

  predicate SameReference(er: Reference, fr: Reference) {
    && er.source == fr.source && er.ref == fr.ref && er.path == fr.path
    && SamePin(fr.source, er.digest, er.contentHash, fr.digest, fr.contentHash)
  }

  ghost predicate DependenciesMirror(existing: seq<Entry>, built: seq<Entry>) {
    && Distinct(Names(existing))
    && (forall n :: n in Names(existing) <==> n in Names(built))
    && (forall ee, fe | ee in existing && fe in built && ee.name == fe.name :: SameDependency(ee, fe))
  }

  ghost predicate ReferencesMirror(existing: seq<Reference>, built: seq<Reference>) {
    && Distinct(Ids(existing))
    && (forall o :: o in Ids(existing) <==> o in Ids(built))
    && (forall er, fr | er in existing && fr in built && er.Occ() == fr.Occ() :: SameReference(er, fr))
  }

  /** The same members, each once, with the same sources and pins. */
  ghost predicate Mirrors(existing: Lock, built: Lock) {
    && existing.lockVersion == CURRENT_LOCK_VERSION
    && DependenciesMirror(existing.dependencies, built.dependencies)
    && ReferencesMirror(existing.references, built.references)
  }

  lemma {:induction false} CountMembers<K>(ks: seq<K>)
    ensures |set k | k in ks| <= |ks|
    ensures |set k | k in ks| == |ks| <==> Distinct(ks)
  {
    if ks == [] {
      assert (set k | k in ks) == {};
    } else {
      var l := |ks| - 1;
      CountMembers(ks[..l]);
      assert ks == ks[..l] + [ks[l]];
      assert (set k | k in ks) == (set k | k in ks[..l]) + {ks[l]};
      if Distinct(ks) {
        assert ks[l] !in ks[..l];
      }
      if Distinct(ks[..l]) && ks[l] !in ks[..l] {
        assert forall i | 0 <= i < l :: ks[..l][i] == ks[i];
      }
    }
  }

  /** As many keys as the distinct ones they must cover leave no room for a repeat or an extra. */
  lemma {:induction false} Pigeonhole<K>(built: seq<K>, existing: seq<K>)
    requires Distinct(built) && |existing| == |built|
    requires forall k | k in built :: k in existing
    ensures Distinct(existing)
    ensures forall k | k in existing :: k in built
  {
    CountMembers(built);
    CountMembers(existing);
    var f, e := set k | k in built, set k | k in existing;
    assert f <= e;
    SubsetCount(f, e);
    assert forall k | k in existing :: k in e;
  }

  lemma {:induction false} SubsetCount<K>(a: set<K>, b: set<K>)
    requires a <= b
    ensures |a| <= |b|
    ensures |a| == |b| ==> a == b
  {
    assert b == a + (b - a);
  }

  lemma {:induction false} FindOnly(deps: seq<Entry>, e: Entry)
    requires Distinct(Names(deps)) && e in deps
    ensures Find(deps, e.name) == Some(e)
  {
  }

  lemma {:induction false} OneId(refs: seq<Reference>, a: Reference, b: Reference)
    requires Distinct(Ids(refs)) && a in refs && b in refs && a.Occ() == b.Occ()
    ensures a == b
  {
  }

  lemma {:induction false} NamesMember(deps: seq<Entry>, n: string)
    ensures n in Names(deps) <==> exists e :: e in deps && e.name == n
  {
  }

  lemma {:induction false} IdsMember(refs: seq<Reference>, o: Occurrence)
    ensures o in Ids(refs) <==> exists r :: r in refs && r.Occ() == o
  {
  }

  lemma {:induction false} AcceptedDependencies(existing: seq<Entry>, built: seq<Entry>)
    requires Distinct(Names(built)) && |existing| == |built|
    requires FirstDependency(existing, built, 0).None?
    ensures DependenciesMirror(existing, built)
  {
    forall n | n in Names(built)
      ensures n in Names(existing)
    {
      var k :| 0 <= k < |built| && Names(built)[k] == n;
      assert CompareDependency(existing, built[k]).None?;
      NamesMember(existing, n);
    }
    Pigeonhole(Names(built), Names(existing));
    forall ee, fe | ee in existing && fe in built && ee.name == fe.name
      ensures SameDependency(ee, fe)
    {
      FindOnly(existing, ee);
      assert CompareDependency(existing, fe).None?;
    }
  }

  lemma {:induction false} AcceptedReferences(existing: seq<Reference>, built: seq<Reference>)
    requires Distinct(Ids(built)) && |existing| == |built|
    requires FirstReference(ByOccurrence(existing), built, 0).None?
    ensures ReferencesMirror(existing, built)
  {
    forall o | o in Ids(built)
      ensures o in Ids(existing)
    {
      var k :| 0 <= k < |built| && Ids(built)[k] == o;
      assert CompareReference(ByOccurrence(existing), built[k]).None?;
      IdsMember(existing, o);
    }
    Pigeonhole(Ids(built), Ids(existing));
    forall er, fr | er in existing && fr in built && er.Occ() == fr.Occ()
      ensures SameReference(er, fr)
    {
      OneId(existing, er, ByOccurrence(existing)[er.Occ()]);
      assert CompareReference(ByOccurrence(existing), fr).None?;
    }
  }

  lemma {:induction false} SameCount<K>(a: seq<K>, b: seq<K>)
    requires Distinct(a) && Distinct(b)
    requires forall k :: k in a <==> k in b
    ensures |a| == |b|
  {
    CountMembers(a);
    CountMembers(b);
    assert (set k | k in a) == (set k | k in b);
  }

  lemma {:induction false} DependenciesAccepted(existing: seq<Entry>, built: seq<Entry>)
    requires Distinct(Names(built)) && DependenciesMirror(existing, built)
    ensures |existing| == |built| && FirstDependency(existing, built, 0).None?
  {
    SameCount(Names(existing), Names(built));
    forall k | 0 <= k < |built|
      ensures CompareDependency(existing, built[k]).None?
    {
      var fe := built[k];
      assert Names(built)[k] == fe.name;
      NamesMember(existing, fe.name);
      assert SameDependency(Find(existing, fe.name).value, fe);
    }
  }

  lemma {:induction false} ReferencesAccepted(existing: seq<Reference>, built: seq<Reference>)
    requires Distinct(Ids(built)) && ReferencesMirror(existing, built)
    ensures |existing| == |built| && FirstReference(ByOccurrence(existing), built, 0).None?
  {
    SameCount(Ids(existing), Ids(built));
    forall k | 0 <= k < |built|
      ensures CompareReference(ByOccurrence(existing), built[k]).None?
    {
      var fr := built[k];
      assert Ids(built)[k] == fr.Occ();
      IdsMember(existing, fr.Occ());
      assert SameReference(ByOccurrence(existing)[fr.Occ()], fr);
    }
  }

  /** A lock is accepted exactly when it mirrors the built closure: no duplicate, no extra, no stale pin. */
  lemma {:induction false} AcceptsIffMirrors(existing: Lock, built: Lock)
    requires Unambiguous(built)
    ensures Compare(existing, built).None? <==> Mirrors(existing, built)
  {
    if Compare(existing, built).None? {
      AcceptedDependencies(existing.dependencies, built.dependencies);
      AcceptedReferences(existing.references, built.references);
    }
    if Mirrors(existing, built) {
      DependenciesAccepted(existing.dependencies, built.dependencies);
      ReferencesAccepted(existing.references, built.references);
    }
  }

  // ---- merging -------------------------------------------------------------------------

  /** Whether the merge keeps the existing pin of `fe`. */
  predicate Kept(existing: seq<Entry>, fe: Entry, names: seq<string>) {
    fe.name !in names && Find(existing, fe.name).Some? && Find(existing, fe.name).value.constraint == fe.constraint
  }

  function MergedEntry(existing: seq<Entry>, fe: Entry, names: seq<string>): Entry {
    if Kept(existing, fe, names) then
      var ee := Find(existing, fe.name).value;
      fe.(version := ee.version, digest := ee.digest, contentHash := ee.contentHash)
    else fe
  }

  function MergedEntries(existing: seq<Entry>, built: seq<Entry>, names: seq<string>): (r: seq<Entry>)
    ensures |r| == |built|
    ensures forall i | 0 <= i < |built| :: r[i] == MergedEntry(existing, built[i], names)
  {
    seq(|built|, i requires 0 <= i < |built| => MergedEntry(existing, built[i], names))
  }

  function Merge(existing: Lock, built: Lock, names: seq<string>): Lock {
    built.(dependencies := MergedEntries(existing.dependencies, built.dependencies, names))
  }

  function Repinned(fe: Entry, ee: Entry): Entry {
    Entry(fe.name, fe.source, fe.ref, fe.path, fe.constraint, ee.version, ee.digest, ee.contentHash, fe.dependsOn)
  }

  /** A dependency named for update is as built; so is one whose first existing entry is missing or of another constraint; any other has that entry's pin. */
  ghost predicate KeepsPin(existing: seq<Entry>, fe: Entry, names: seq<string>, e: Entry) {
    && (fe.name in names ==> e == fe)
    && (forall k | FirstNamed(existing, fe.name, k) && fe.name !in names && existing[k].constraint == fe.constraint :: e == Repinned(fe, existing[k]))
    && (forall k | FirstNamed(existing, fe.name, k) && existing[k].constraint != fe.constraint :: e == fe)
    && ((forall k | 0 <= k < |existing| :: existing[k].name != fe.name) ==> e == fe)
  }

  ghost predicate KeepsPins(existing: Lock, built: Lock, names: seq<string>, out: Lock) {
    && out == built.(dependencies := out.dependencies) && |out.dependencies| == |built.dependencies|
    && forall i | 0 <= i < |built.dependencies| :: KeepsPin(existing.dependencies, built.dependencies[i], names, out.dependencies[i])
  }

  lemma {:induction false} MergedKeepsPin(existing: seq<Entry>, fe: Entry, names: seq<string>)
    ensures KeepsPin(existing, fe, names, MergedEntry(existing, fe, names))
  {
    forall k | FirstNamed(existing, fe.name, k) ensures Find(existing, fe.name) == Some(existing[k]) {
      FindIsFirst(existing, fe.name, k);
    }
  }

  lemma {:induction false} MergeKeepsPins(existing: Lock, built: Lock, names: seq<string>)
    ensures KeepsPins(existing, built, names, Merge(existing, built, names))
  {
    forall i | 0 <= i < |built.dependencies|
      ensures KeepsPin(existing.dependencies, built.dependencies[i], names, Merge(existing, built, names).dependencies[i])
    {
      MergedKeepsPin(existing.dependencies, built.dependencies[i], names);
    }
  }

  method MergePreservingPins(existing: Lock, built: Lock, names: seq<string>) returns (out: Lock)
    ensures out == Merge(existing, built, names)
    ensures KeepsPins(existing, built, names, out)
  {
    var forced: set<string> := {};
    for k := 0 to |names|
      invariant forall n :: n in forced <==> n in names[..k]
    {
      forced := forced + {names[k]};
    }
    var deps := built.dependencies;
    for i := 0 to |deps|
      invariant |deps| == |built.dependencies|
      invariant forall k | 0 <= k < i :: deps[k] == MergedEntry(existing.dependencies, built.dependencies[k], names)
      invariant forall k | i <= k < |deps| :: deps[k] == built.dependencies[k]
    {
      var fe := deps[i];
      if fe.name !in forced {
        var ee := FindDependency(existing.dependencies, fe.name);
        if ee.Some? && ee.value.constraint == fe.constraint {
          deps := deps[i := fe.(version := ee.value.version, digest := ee.value.digest, contentHash := ee.value.contentHash)];
        }
      }
    }
    out := built.(dependencies := deps);
    assert deps == MergedEntries(existing.dependencies, built.dependencies, names);
    MergeKeepsPins(existing, built, names);
  }

  /** The merge keeps the built names, order, sources, constraints, edges and references. */
  lemma {:induction false} MergeTouchesOnlyPins(existing: Lock, built: Lock, names: seq<string>)
    ensures var m := Merge(existing, built, names);
            && m.references == built.references
            && Names(m.dependencies) == Names(built.dependencies)
            && forall i | 0 <= i < |built.dependencies| ::
              && (!Kept(existing.dependencies, built.dependencies[i], names) ==> m.dependencies[i] == built.dependencies[i])
              && m.dependencies[i].(version := built.dependencies[i].version, digest := built.dependencies[i].digest,
                                    contentHash := built.dependencies[i].contentHash) == built.dependencies[i]
  {
  }

  // ---- the stored lock --------------------------------------------------------------------

  function EntryKey(e: Entry): Key { [e.name] }

  function ReferenceKey(r: Reference): Key { [r.from, r.kind, r.name, r.ref, r.path] }

  function StringKey(s: string): Key { [s] }

  function SortedEdges(e: Entry): Entry {
    e.(dependsOn := Sort(StringKey, e.dependsOn))
  }

  function WithSortedEdges(deps: seq<Entry>): (r: seq<Entry>)
    ensures |r| == |deps| && forall i | 0 <= i < |deps| :: r[i] == SortedEdges(deps[i])
  {
    seq(|deps|, i requires 0 <= i < |deps| => SortedEdges(deps[i]))
  }

  /** What writing a lock and reading it back gives: the current schema, sorted members, sorted edges. */
  function Stored(l: Lock): Lock {
    l.(lockVersion := CURRENT_LOCK_VERSION,
       dependencies := WithSortedEdges(Sort(EntryKey, l.dependencies)),
       references := Sort(ReferenceKey, l.references))
  }

  datatype Options = Options(update: bool, updateNames: seq<string>, check: bool)

  datatype Outcome = UpToDate(lock: Lock) | Written(lock: Lock) | Diverged(error: Divergence) | Missing

  datatype Ran = Ran(file: Option<Lock>, outcome: Outcome)

  /** One `pacto lock`: `file` is the readable lock on disk, if any. */
  function Run(file: Option<Lock>, built: Lock, opts: Options): Ran {
    if opts.check then
      if file.None? then Ran(file, Missing)
      else match Compare(file.value, built)
           case Some(d) => Ran(file, Diverged(d))
           case None => Ran(file, UpToDate(file.value))
    else if file.Some? && !opts.update then
      if Compare(file.value, built).None? then Ran(file, UpToDate(file.value))
      else
        var m := Merge(file.value, built, opts.updateNames);
        Ran(Some(Stored(m)), Written(m))
    else Ran(Some(Stored(built)), Written(built))
  }

  method LockCommand(file: Option<Lock>, built: Lock, opts: Options) returns (r: Ran)
    ensures r == Run(file, built, opts)
  {
    if opts.check {
      if file.None? {
        return Ran(file, Missing);
      }
      var d := CompareLocks(file.value, built);
      if d.Some? {
        return Ran(file, Diverged(d.value));
      }
      return Ran(file, UpToDate(file.value));
    }
    var lock := built;
    if file.Some? && !opts.update {
      var d := CompareLocks(file.value, built);
      if d.None? {
        return Ran(file, UpToDate(file.value));
      }
      lock := MergePreservingPins(file.value, built, opts.updateNames);
    }
    return Ran(Some(Stored(lock)), Written(lock));
  }

  // ---- a second run ---------------------------------------------------------------------

  lemma {:induction false} DistinctEntries(deps: seq<Entry>, a: Entry, b: Entry)
    requires Distinct(Names(deps)) && a in deps && b in deps && a.name == b.name
    ensures a == b
  {
  }

  /** Looking a dependency up in the stored lock finds the one that was written. */
  lemma {:induction false} FindStored(l: Lock, e: Entry)
    requires Distinct(Names(l.dependencies)) && e in l.dependencies
    ensures Find(Stored(l).dependencies, e.name) == Some(SortedEdges(e))
  {
    var s := Sort(EntryKey, l.dependencies);
    var stored := Stored(l).dependencies;
    SortMembers(EntryKey, l.dependencies);
    var k :| 0 <= k < |s| && s[k] == e;
    assert stored[k].name == e.name;
    var f := Find(stored, e.name);
    assert f.Some?;
    var j :| 0 <= j < |stored| && stored[j] == f.value;
    assert s[j] in s && s[j].name == e.name;
    DistinctEntries(l.dependencies, s[j], e);
  }

  /** Merging what was written changes nothing, whatever it was merged from. */
  lemma {:induction false} MergeFixed(existing: Lock, built: Lock, names: seq<string>)
    requires Distinct(Names(built.dependencies))
    ensures var m := Merge(existing, built, names);
            Merge(Stored(m), built, names) == m
  {
    var m := Merge(existing, built, names);
    MergeTouchesOnlyPins(existing, built, names);
    forall i | 0 <= i < |built.dependencies|
      ensures MergedEntry(Stored(m).dependencies, built.dependencies[i], names) == m.dependencies[i]
    {
      assert m.dependencies[i] in m.dependencies;
      FindStored(m, m.dependencies[i]);
    }
    assert MergedEntries(Stored(m).dependencies, built.dependencies, names) == m.dependencies;
  }

  lemma {:induction false} MergeBuilt(built: Lock, names: seq<string>)
    requires Distinct(Names(built.dependencies))
    ensures Merge(Stored(built), built, names) == built
  {
    forall i | 0 <= i < |built.dependencies|
      ensures MergedEntry(Stored(built).dependencies, built.dependencies[i], names) == built.dependencies[i]
    {
      assert built.dependencies[i] in built.dependencies;
      FindStored(built, built.dependencies[i]);
    }
    assert MergedEntries(Stored(built).dependencies, built.dependencies, names) == built.dependencies;
  }

  /** Running `pacto lock` again with the same closure and options leaves the same file. */
  lemma {:induction false} LockConverges(file: Option<Lock>, built: Lock, opts: Options)
    requires Distinct(Names(built.dependencies))
    ensures var once := Run(file, built, opts).file;
            Run(once, built, opts).file == once
  {
    if !opts.check && !opts.update {
      MergeBuilt(built, opts.updateNames);
      if file.Some? {
        MergeFixed(file.value, built, opts.updateNames);
      }
    }
  }

  // ---- checking after locking ----------------------------------------------------------------

  /** A pin the merge keeps is not the one the closure resolves to now. */
  ghost predicate KeepsDrifted(existing: Lock, built: Lock, names: seq<string>) {
    exists i :: 0 <= i < |built.dependencies| && DriftedAt(existing, built, names, i)
  }

  predicate DriftedAt(existing: Lock, built: Lock, names: seq<string>, i: nat)
    requires i < |built.dependencies|
  {
    var fe := built.dependencies[i];
    Kept(existing.dependencies, fe, names) && !SameDependency(Find(existing.dependencies, fe.name).value, fe)
  }

  /** The written references are the built ones, so they compare equal. */
  lemma {:induction false} StoredReferencesMirror(refs: seq<Reference>)
    requires Distinct(Ids(refs))
    ensures ReferencesMirror(Sort(ReferenceKey, refs), refs)
  {
    var s := Sort(ReferenceKey, refs);
    SortMembers(ReferenceKey, refs);
    SortContents(ReferenceKey, refs);
    forall o
      ensures o in Ids(s) <==> o in Ids(refs)
    {
      IdsMember(s, o);
      IdsMember(refs, o);
    }
    CountMembers(Ids(refs));
    CountMembers(Ids(s));
    assert (set o | o in Ids(s)) == (set o | o in Ids(refs));
    forall er, fr | er in s && fr in refs && er.Occ() == fr.Occ()
      ensures SameReference(er, fr)
    {
      OneId(refs, er, fr);
    }
  }

  /** A written lock is accepted exactly when each of its pins is the one resolved now. */
  lemma {:induction false} WrittenAccepted(m: Lock, built: Lock)
    requires Unambiguous(built)
    requires m.references == built.references && Names(m.dependencies) == Names(built.dependencies)
    ensures Compare(Stored(m), built).None? <==>
            forall i | 0 <= i < |built.dependencies| :: SameDependency(m.dependencies[i], built.dependencies[i])
  {
    SortMembers(EntryKey, m.dependencies);
    StoredReferencesMirror(built.references);
    ReferencesAccepted(Stored(m).references, built.references);
    assert |m.dependencies| == |Names(m.dependencies)| == |built.dependencies|;
    forall i | 0 <= i < |built.dependencies|
      ensures CompareDependency(Stored(m).dependencies, built.dependencies[i]).None? <==> SameDependency(m.dependencies[i], built.dependencies[i])
    {
      assert m.dependencies[i].name == Names(m.dependencies)[i] == built.dependencies[i].name;
      DependencyAccepted(m, built.dependencies[i], i);
    }
  }

  lemma {:induction false} DependencyAccepted(m: Lock, fe: Entry, i: nat)
    requires Distinct(Names(m.dependencies)) && i < |m.dependencies| && m.dependencies[i].name == fe.name
    ensures CompareDependency(Stored(m).dependencies, fe).None? <==> SameDependency(m.dependencies[i], fe)
  {
    FindStored(m, m.dependencies[i]);
  }

  /**
   After `pacto lock`, `pacto lock --check` passes if and only if no pin the merge had to keep has
   drifted: a plain lock preserves pins, so it does not repair drift.
   */
  lemma {:induction false} CheckAfterLock(file: Option<Lock>, built: Lock, opts: Options)
    requires Unambiguous(built) && !opts.check
    ensures var after := Run(file, built, opts).file;
            after.Some? &&
            (Compare(after.value, built).None? <==>
             (opts.update || file.None? || Compare(file.value, built).None? || !KeepsDrifted(file.value, built, opts.updateNames)))
  {
    if opts.update || file.None? {
      WrittenAccepted(built, built);
    } else if Compare(file.value, built).Some? {
      var m := Merge(file.value, built, opts.updateNames);
      MergeTouchesOnlyPins(file.value, built, opts.updateNames);
      WrittenAccepted(m, built);
      forall i | 0 <= i < |built.dependencies|
        ensures SameDependency(m.dependencies[i], built.dependencies[i]) <==> !DriftedAt(file.value, built, opts.updateNames, i)
      {
      }
    }
  }

  /** One dependency, pinned at `digest`. */
  function OnePin(digest: string): Lock {
    Lock(CURRENT_LOCK_VERSION, "", "", "", [Entry("a", "oci", "r", "", "^1", "", digest, "", [])], [])
  }

  const PLAIN := Options(false, [], false)

  /** The constraint's text is the same and the version it resolves to moved on: `lock` keeps the old pin, and `lock --check` then fails. */
  lemma {:induction false} LockThenCheckFails()
    ensures var after := Run(Some(OnePin("1")), OnePin("2"), PLAIN).file;
            after.Some? && Run(after, OnePin("2"), PLAIN.(check := true)).outcome.Diverged?
  {
    var kept, built := OnePin("1"), OnePin("2");
    assert kept.dependencies[0].name == "a" && built.dependencies[0].name == "a";
    assert Find(kept.dependencies, "a") == Some(kept.dependencies[0]);
    assert DriftedAt(kept, built, [], 0);
    CheckAfterLock(Some(kept), built, PLAIN);
  }
}
