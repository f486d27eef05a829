/** What `pacto lock` promises of its file and its errors, told by the locks' own fields (internal/app/lock.go, pkg/lock/lock.go). */
module LockPromises {
  import opened Basics
  import opened Order
  import opened LockFile
  import opened LockUpdate

  // ---- the file ---------------------------------------------------------------------------

  /** The order references are written in. */
  predicate RefBefore(a: Reference, b: Reference) {
    if a.from != b.from then Less(a.from, b.from)
    else if a.kind != b.kind then Less(a.kind, b.kind)
    else if a.name != b.name then Less(a.name, b.name)
    else if a.ref != b.ref then Less(a.ref, b.ref)
    else Less(a.path, b.path)
  }

  lemma {:induction false} BeforeCons(a: string, b: string, x: Key, y: Key)
    ensures Before([a] + x, [b] + y) <==> if a != b then Less(a, b) else Before(x, y)
  {
    LessIrreflexive(a);
    assert ([a] + x)[1..] == x && ([b] + y)[1..] == y;
  }

  lemma {:induction false} BeforeOne(a: string, b: string)
    ensures Before([a], [b]) <==> Less(a, b)
  {
    LessIrreflexive(a);
    BeforeCons(a, b, [], []);
    assert [a] + [] == [a] && [b] + [] == [b];
  }

  lemma {:induction false} RefBeforeIs(a: Reference, b: Reference)
    ensures RefBefore(a, b) <==> Before(ReferenceKey(a), ReferenceKey(b))
  {
    BeforeOne(a.path, b.path);
    BeforeCons(a.ref, b.ref, [a.path], [b.path]);
    BeforeCons(a.name, b.name, [a.ref] + [a.path], [b.ref] + [b.path]);
    BeforeCons(a.kind, b.kind, [a.name] + ([a.ref] + [a.path]), [b.name] + ([b.ref] + [b.path]));
    BeforeCons(a.from, b.from, [a.kind] + ([a.name] + ([a.ref] + [a.path])), [b.kind] + ([b.name] + ([b.ref] + [b.path])));
    assert ReferenceKey(a) == [a.from] + ([a.kind] + ([a.name] + ([a.ref] + [a.path])));
    assert ReferenceKey(b) == [b.from] + ([b.kind] + ([b.name] + ([b.ref] + [b.path])));
  }

  /** `e'` is `e` with its edges in order. */
  ghost predicate InOrder(e: Entry, e': Entry) {
    && e' == e.(dependsOn := e'.dependsOn) && multiset(e'.dependsOn) == multiset(e.dependsOn)
    && forall i, j | 0 <= i < j < |e'.dependsOn| :: !Less(e'.dependsOn[j], e'.dependsOn[i])
  }

  lemma {:induction false} EdgesInOrder(e: Entry)
    ensures InOrder(e, SortedEdges(e))
  {
    SortContents(StringKey, e.dependsOn);
    SortSorted(StringKey, e.dependsOn);
    var s := SortedEdges(e).dependsOn;
    forall i, j | 0 <= i < j < |s| ensures !Less(s[j], s[i]) {
      BeforeOne(s[j], s[i]);
      assert !Before(StringKey(s[j]), StringKey(s[i]));
    }
  }

  /** The file has the current schema, the same members and edges, all in order. */
  lemma {:induction false} StoredInOrder(l: Lock)
    ensures var f := Stored(l);
            && f == l.(lockVersion := CURRENT_LOCK_VERSION, dependencies := f.dependencies, references := f.references)
            && multiset(f.references) == multiset(l.references)
            && (forall i, j | 0 <= i < j < |f.references| :: !RefBefore(f.references[j], f.references[i]))
            && (forall i, j | 0 <= i < j < |f.dependencies| :: !Less(f.dependencies[j].name, f.dependencies[i].name))
            && |f.dependencies| == |l.dependencies|
            && (forall e | e in l.dependencies :: exists e' :: e' in f.dependencies && InOrder(e, e'))
            && (forall e' | e' in f.dependencies :: exists e :: e in l.dependencies && InOrder(e, e'))
  {
    var f := Stored(l);
    SortContents(ReferenceKey, l.references);
    SortSorted(ReferenceKey, l.references);
    forall i, j | 0 <= i < j < |f.references| ensures !RefBefore(f.references[j], f.references[i]) {
      RefBeforeIs(f.references[j], f.references[i]);
      assert !Before(ReferenceKey(f.references[j]), ReferenceKey(f.references[i]));
    }
    DependenciesInOrder(l);
  }

  lemma {:induction false} DependenciesInOrder(l: Lock)
    ensures var ds := Stored(l).dependencies;
            && (forall i, j | 0 <= i < j < |ds| :: !Less(ds[j].name, ds[i].name))
            && |ds| == |l.dependencies|
            && (forall e | e in l.dependencies :: exists e' :: e' in ds && InOrder(e, e'))
            && (forall e' | e' in ds :: exists e :: e in l.dependencies && InOrder(e, e'))
  {
    var s, ds := Sort(EntryKey, l.dependencies), Stored(l).dependencies;
    SortMembers(EntryKey, l.dependencies);
    SortSorted(EntryKey, l.dependencies);
    forall i, j | 0 <= i < j < |ds| ensures !Less(ds[j].name, ds[i].name) {
      assert !Before(EntryKey(s[j]), EntryKey(s[i]));
      BeforeOne(s[j].name, s[i].name);
    }
    forall e | e in l.dependencies ensures exists e' :: e' in ds && InOrder(e, e') {
      var i :| 0 <= i < |s| && s[i] == e;
      EdgesInOrder(e);
      assert ds[i] == SortedEdges(e);
    }
    forall e' | e' in ds ensures exists e :: e in l.dependencies && InOrder(e, e') {
      var i :| 0 <= i < |ds| && ds[i] == e';
      EdgesInOrder(s[i]);
      assert s[i] in s;
    }
  }

  /** The order a closure was built in leaves no trace in the file. */
  lemma {:induction false} StoredIgnoresOrder(a: Lock, b: Lock)
    requires multiset(a.dependencies) == multiset(b.dependencies) && multiset(a.references) == multiset(b.references)
    requires Unambiguous(a) && a == b.(dependencies := a.dependencies, references := a.references)
    ensures Stored(a) == Stored(b)
  {
    forall x, y | x in a.dependencies && y in a.dependencies && EntryKey(x) == EntryKey(y) ensures x == y {
      DistinctEntries(a.dependencies, x, y);
    }
    forall x, y | x in a.references && y in a.references && ReferenceKey(x) == ReferenceKey(y) ensures x == y {
      assert ReferenceKey(x)[0] == ReferenceKey(y)[0] && ReferenceKey(x)[1] == ReferenceKey(y)[1] && ReferenceKey(x)[2] == ReferenceKey(y)[2];
      OneId(a.references, x, y);
    }
    SortOrderIrrelevant(EntryKey, a.dependencies, b.dependencies);
    SortOrderIrrelevant(ReferenceKey, a.references, b.references);
  }

  // ---- the command ------------------------------------------------------------------------

  /** Checking writes nothing and passes on a mirror only; updating writes what was built; otherwise a mirror is left alone and anything else merged. */
  lemma {:induction false} CommandPromises(file: Option<Lock>, built: Lock, opts: Options)
    requires Unambiguous(built)
    ensures var r := Run(file, built, opts);
            if opts.check then
              && r.file == file && !r.outcome.Written?
              && (r.outcome.Missing? <==> file.None?)
              && (r.outcome.UpToDate? <==> file.Some? && Mirrors(file.value, built))
              && (r.outcome.UpToDate? ==> r.outcome.lock == file.value)
            else if opts.update || file.None? then r.outcome == Written(built) && r.file == Some(Stored(built))
            else if Mirrors(file.value, built) then r.file == file && r.outcome == UpToDate(file.value)
            else r.outcome.Written? && r.file == Some(Stored(r.outcome.lock)) && KeepsPins(file.value, built, opts.updateNames, r.outcome.lock)
  {
    if file.Some? {
      AcceptsIffMirrors(file.value, built);
      MergeKeepsPins(file.value, built, opts.updateNames);
    }
  }

  // ---- the errors --------------------------------------------------------------------------

  /** What a divergence says is so. */
  ghost predicate IsSo(existing: Lock, built: Lock, d: Divergence) {
    match d
    case OldSchema(v) => v == existing.lockVersion != CURRENT_LOCK_VERSION
    case DependencySetChanged => |existing.dependencies| != |built.dependencies|
    case NewDependency(name) =>
      && (exists fe :: fe in built.dependencies && fe.name == name)
      && forall ee | ee in existing.dependencies :: ee.name != name
    case ReferenceSetChanged => |existing.references| != |built.references|
    case NewReference(o) =>
      && (exists fr :: fr in built.references && fr.Occ() == o)
      && forall er | er in existing.references :: er.Occ() != o
    case Repointed(o) =>
      exists er, fr :: er in existing.references && fr in built.references && er.Occ() == o && fr.Occ() == o
                       && (er.source, er.ref, er.path) != (fr.source, fr.ref, fr.path)
    case LocalDrift(s, locked, current) => locked != current && Differs(existing, built, s, true, locked, current)
    case Drift(s, locked, current) => locked != current && Differs(existing, built, s, false, locked, current)
  }

  ghost predicate Differs(existing: Lock, built: Lock, s: Subject, local: bool, locked: string, current: string) {
    match s
    case Dependency(name) =>
      exists k, fe :: FirstNamed(existing.dependencies, name, k) && fe in built.dependencies && fe.name == name && (fe.source == "local") == local
                      && (if local then existing.dependencies[k].contentHash == locked && fe.contentHash == current
                          else existing.dependencies[k].digest == locked && fe.digest == current)
    case Declared(o) =>
      exists er, fr :: er in existing.references && fr in built.references && er.Occ() == o && fr.Occ() == o && (fr.source == "local") == local
                       && (if local then er.contentHash == locked && fr.contentHash == current else er.digest == locked && fr.digest == current)
  }

  lemma {:induction false} FirstIs(existing: seq<Entry>, name: string) returns (k: nat)
    requires Find(existing, name).Some?
    ensures FirstNamed(existing, name, k) && Find(existing, name) == Some(existing[k])
  {
    k := FirstFrom(existing, name, 0);
    FindIsFirst(existing, name, k);
  }

  lemma {:induction false} FirstFrom(existing: seq<Entry>, name: string, i: nat) returns (k: nat)
    requires i <= |existing| && FindFrom(existing, name, i).Some? && forall j | 0 <= j < i :: existing[j].name != name
    ensures FirstNamed(existing, name, k)
    decreases |existing| - i
  {
    if existing[i].name == name {
      k := i;
    } else {
      k := FirstFrom(existing, name, i + 1);
    }
  }

  lemma {:induction false} DependencyIsSo(existing: Lock, built: Lock, fe: Entry)
    requires fe in built.dependencies && CompareDependency(existing.dependencies, fe).Some?
    ensures IsSo(existing, built, CompareDependency(existing.dependencies, fe).value)
  {
    if Find(existing.dependencies, fe.name).Some? {
      var k := FirstIs(existing.dependencies, fe.name);
    }
  }

  /** An existing and a built reference of one declaration whose pins differ. */
  lemma {:induction false} PinIsSo(existing: Lock, built: Lock, er: Reference, fr: Reference)
    requires er in existing.references && fr in built.references && er.Occ() == fr.Occ()
    requires CompareEntry(Declared(fr.Occ()), fr.source, er.digest, er.contentHash, fr.digest, fr.contentHash).Some?
    ensures IsSo(existing, built, CompareEntry(Declared(fr.Occ()), fr.source, er.digest, er.contentHash, fr.digest, fr.contentHash).value)
  {
    if fr.source == "local" {
      assert Differs(existing, built, Declared(fr.Occ()), true, er.contentHash, fr.contentHash);
    } else {
      assert Differs(existing, built, Declared(fr.Occ()), false, er.digest, fr.digest);
    }
  }

  lemma {:induction false} ReferenceIsSo(existing: Lock, built: Lock, fr: Reference)
    requires fr in built.references && CompareReference(ByOccurrence(existing.references), fr).Some?
    ensures IsSo(existing, built, CompareReference(ByOccurrence(existing.references), fr).value)
  {
    var byID, id := ByOccurrence(existing.references), fr.Occ();
    if id in byID {
      var er := byID[id];
      if er.source == fr.source && er.ref == fr.ref && er.path == fr.path {
        PinIsSo(existing, built, er, fr);
      } else {
        assert IsSo(existing, built, Repointed(id));
      }
    } else {
      assert IsSo(existing, built, NewReference(id));
    }
  }

  lemma {:induction false} FirstDependencyIsSo(existing: Lock, built: Lock, i: nat)
    requires i <= |built.dependencies| && FirstDependency(existing.dependencies, built.dependencies, i).Some?
    ensures IsSo(existing, built, FirstDependency(existing.dependencies, built.dependencies, i).value)
    decreases |built.dependencies| - i
  {
    if CompareDependency(existing.dependencies, built.dependencies[i]).Some? {
      DependencyIsSo(existing, built, built.dependencies[i]);
    } else {
      FirstDependencyIsSo(existing, built, i + 1);
    }
  }

  lemma {:induction false} FirstReferenceIsSo(existing: Lock, built: Lock, i: nat)
    requires i <= |built.references| && FirstReference(ByOccurrence(existing.references), built.references, i).Some?
    ensures IsSo(existing, built, FirstReference(ByOccurrence(existing.references), built.references, i).value)
    decreases |built.references| - i
  {
    if CompareReference(ByOccurrence(existing.references), built.references[i]).Some? {
      ReferenceIsSo(existing, built, built.references[i]);
    } else {
      FirstReferenceIsSo(existing, built, i + 1);
    }
  }

  /** Whatever a lock is refused for is so. */
  lemma {:induction false} DivergenceIsSo(existing: Lock, built: Lock)
    requires Compare(existing, built).Some?
    ensures IsSo(existing, built, Compare(existing, built).value)
  {
    if existing.lockVersion == CURRENT_LOCK_VERSION && |existing.dependencies| == |built.dependencies| {
      if FirstDependency(existing.dependencies, built.dependencies, 0).Some? {
        FirstDependencyIsSo(existing, built, 0);
      } else if |existing.references| == |built.references| {
        FirstReferenceIsSo(existing, built, 0);
      }
    }
  }
}
