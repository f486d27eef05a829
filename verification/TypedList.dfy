/**
 The typed list over the shared cache (internal/cli/dashboard_shared.go:160-220): objects
 converted once and read again only when the cache changed, while changes keep arriving.
 */
module TypedList {
  import opened Basics
  import opened Order
  import opened SharedObjects

  /** A pointer to one version of one object: an update replaces the object, so it never changes. */
  datatype Pointer = Pointer(address: int)

  /** What a list keeps and how it reads it. */
  datatype Kind<!T> = Kind(at: Pointer -> Object, keep: Object -> bool, convert: Object -> T, ns: T -> string)

  function PointerKey<T>(k: Kind<T>): Pointer -> Key {
    (p: Pointer) => ObjectKey(k.at(p))
  }

  function Converted<T>(k: Kind<T>, ps: seq<Pointer>): (ts: seq<T>)
    ensures |ts| == |ps| && forall i | 0 <= i < |ps| :: ts[i] == k.convert(k.at(ps[i]))
  {
    seq(|ps|, i requires 0 <= i < |ps| => k.convert(k.at(ps[i])))
  }

  predicate Shows<T>(k: Kind<T>, ns: string, p: Pointer) {
    k.keep(k.at(p)) && (ns == "" || k.at(p).ns == ns)
  }

  /** The list a reader of `ns` should get: the kept objects there, by namespace and name, converted. */
  function View<T>(k: Kind<T>, store: seq<Pointer>, ns: string): seq<T> {
    Converted(k, Sort(PointerKey(k), Filter((p: Pointer) => Shows(k, ns, p), store)))
  }

  /** Conversion keeps the namespace, and a store holds one object per namespace and name. */
  ghost predicate Reads<T>(k: Kind<T>) {
    forall o :: k.ns(k.convert(o)) == o.ns
  }

  // ---- a namespace of a sorted list is a slice of it ------------------------------------

  ghost predicate Ascending<T>(k: Kind<T>, ts: seq<T>) {
    forall i, j | 0 <= i < j < |ts| :: !Less(k.ns(ts[j]), k.ns(ts[i]))
  }

  lemma {:induction false} SortedAscends<T>(k: Kind<T>, ps: seq<Pointer>)
    requires Reads(k) && Sorted(PointerKey(k), ps)
    ensures Ascending(k, Converted(k, ps))
  {
  }

  /** The slice between the first element not before `ns` and the first after it. */
  lemma {:induction false} FilterCons<T>(p: T -> bool, x: T, s: seq<T>)
    ensures Filter(p, [x] + s) == (if p(x) then [x] else []) + Filter(p, s)
  {
    assert ([x] + s)[1..] == s;
  }

  lemma {:induction false} ConcatAssociates<T>(a: seq<T>, b: seq<T>, c: seq<T>)
    ensures (a + b) + c == a + (b + c)
  {
  }

  lemma {:induction false} FilterConcat<T>(p: T -> bool, a: seq<T>, b: seq<T>)
    ensures Filter(p, a + b) == Filter(p, a) + Filter(p, b)
  {
    if a == [] {
      assert a + b == b;
    } else {
      var x, rest := a[0], a[1..];
      assert a == [x] + rest;
      ConcatAssociates([x], rest, b);
      FilterCons(p, x, rest);
      FilterCons(p, x, rest + b);
      FilterConcat(p, rest, b);
      ConcatAssociates(if p(x) then [x] else [], Filter(p, rest), Filter(p, b));
    }
  }

  lemma {:induction false} FilterAll<T>(p: T -> bool, s: seq<T>)
    requires forall x | x in s :: p(x)
    ensures Filter(p, s) == s
  {
    if s != [] {
      FilterAll(p, s[1..]);
    }
  }

  lemma {:induction false} FilterNone<T>(p: T -> bool, s: seq<T>)
    requires forall x | x in s :: !p(x)
    ensures Filter(p, s) == []
  {
    if Filter(p, s) != [] {
      assert Filter(p, s)[0] in Filter(p, s);
    }
  }

  lemma {:induction false} SliceIsFilter<T>(ts: seq<T>, p: T -> bool, lo: nat, hi: nat)
    requires lo <= hi <= |ts|
    requires forall i | 0 <= i < |ts| :: p(ts[i]) <==> lo <= i < hi
    ensures ts[lo..hi] == Filter(p, ts)
  {
    var a, b, c := ts[..lo], ts[lo..hi], ts[hi..];
    assert ts == a + (b + c);
    FilterNone(p, a);
    FilterAll(p, b);
    FilterNone(p, c);
    FilterConcat(p, a, b + c);
    FilterConcat(p, b, c);
  }

  lemma {:induction false} ConvertedCons<T>(k: Kind<T>, p: Pointer, ps: seq<Pointer>)
    ensures Converted(k, [p] + ps) == [k.convert(k.at(p))] + Converted(k, ps)
  {
  }

  lemma {:induction false} FilterConverted<T>(k: Kind<T>, ps: seq<Pointer>, ns: string)
    requires Reads(k)
    ensures Filter((t: T) => k.ns(t) == ns, Converted(k, ps))
            == Converted(k, Filter((p: Pointer) => k.at(p).ns == ns, ps))
  {
    if ps != [] {
      FilterConverted(k, ps[1..], ns);
      var q := (p: Pointer) => k.at(p).ns == ns;
      assert Converted(k, ps)[1..] == Converted(k, ps[1..]);
      if q(ps[0]) {
        ConvertedCons(k, ps[0], Filter(q, ps[1..]));
        assert Filter(q, ps) == [ps[0]] + Filter(q, ps[1..]);
      } else {
        assert Filter(q, ps) == Filter(q, ps[1..]);
      }
    }
  }

  lemma {:induction false} FilterNested(p: Pointer -> bool, q: Pointer -> bool, pq: Pointer -> bool, s: seq<Pointer>)
    requires forall x :: pq(x) <==> p(x) && q(x)
    ensures Filter(q, Filter(p, s)) == Filter(pq, s)
  {
    if s != [] {
      FilterNested(p, q, pq, s[1..]);
      if p(s[0]) {
        assert Filter(p, s) == [s[0]] + Filter(p, s[1..]);
        assert Filter(p, s)[0] == s[0] && Filter(p, s)[1..] == Filter(p, s[1..]);
      } else {
        assert Filter(p, s) == Filter(p, s[1..]);
      }
    }
  }

  /** Narrowing the whole list to a namespace is listing that namespace. */
  lemma {:induction false} NarrowedView<T>(k: Kind<T>, store: seq<Pointer>, ns: string)
    requires Reads(k) && KeyedBy(PointerKey(k), store) && ns != ""
    ensures Filter((t: T) => k.ns(t) == ns, View(k, store, "")) == View(k, store, ns)
  {
    var kept := Filter((p: Pointer) => Shows(k, "", p), store);
    var q := (p: Pointer) => k.at(p).ns == ns;
    FilterConverted(k, Sort(PointerKey(k), kept), ns);
    assert KeyedBy(PointerKey(k), kept) by {
      assert forall x | x in kept :: x in store;
    }
    FilterSort(PointerKey(k), q, kept);
    FilterNested((p: Pointer) => Shows(k, "", p), q, (p: Pointer) => Shows(k, ns, p), store);
  }

  /** The first position of `a` from which `after` holds, by bisection. */
  method SearchNamespace<T>(k: Kind<T>, a: array<T>, ns: string, after: bool) returns (i: nat)
    requires Ascending(k, a[..])
    ensures i <= a.Length
    ensures forall j | 0 <= j < i :: !PastNamespace(k, a[j], ns, after)
    ensures forall j | i <= j < a.Length :: PastNamespace(k, a[j], ns, after)
  {
    i := 0;
    var n := a.Length;
    while i < n
      invariant 0 <= i <= n <= a.Length
      invariant forall j | 0 <= j < i :: !PastNamespace(k, a[j], ns, after)
      invariant forall j | n <= j < a.Length :: PastNamespace(k, a[j], ns, after)
    {
      var h := (i + n) / 2;
      if !PastNamespace(k, a[h], ns, after) {
        forall j | 0 <= j < h
          ensures !PastNamespace(k, a[j], ns, after)
        {
          PastIsMonotone(k, a[..], j, h, ns, after);
        }
        i := h + 1;
      } else {
        forall j | h < j < a.Length
          ensures PastNamespace(k, a[j], ns, after)
        {
          PastIsMonotone(k, a[..], h, j, ns, after);
        }
        n := h;
      }
    }
  }

  /** At least `ns`, or after it. */
  predicate PastNamespace<T>(k: Kind<T>, t: T, ns: string, after: bool) {
    if after then Less(ns, k.ns(t)) else !Less(k.ns(t), ns)
  }

  lemma {:induction false} PastIsMonotone<T>(k: Kind<T>, ts: seq<T>, i: nat, j: nat, ns: string, after: bool)
    requires Ascending(k, ts) && i < j < |ts|
    ensures PastNamespace(k, ts[i], ns, after) ==> PastNamespace(k, ts[j], ns, after)
  {
    var a, b := k.ns(ts[i]), k.ns(ts[j]);
    assert !Less(b, a);
    LessTotal(a, b);
    if a != b {
      if after && Less(ns, a) {
        LessTransitive(ns, a, b);
      }
      if !after && Less(b, ns) {
        LessTransitive(a, b, ns);
      }
    }
  }

  lemma {:induction false} AfterIsNotBefore<T>(k: Kind<T>, t: T, ns: string)
    ensures PastNamespace(k, t, ns, true) ==> PastNamespace(k, t, ns, false)
  {
    if Less(ns, k.ns(t)) && Less(k.ns(t), ns) {
      LessTransitive(ns, k.ns(t), ns);
      LessIrreflexive(ns);
    }
  }

  lemma {:induction false} InNamespaceIffBetween<T>(k: Kind<T>, t: T, ns: string)
    ensures k.ns(t) == ns <==> PastNamespace(k, t, ns, false) && !PastNamespace(k, t, ns, true)
  {
    LessTotal(k.ns(t), ns);
    LessIrreflexive(ns);
  }

  /** What the two searches delimit is exactly the namespace. */
  lemma {:induction false} NamespaceSlice<T>(k: Kind<T>, ts: seq<T>, ns: string, lo: nat, hi: nat)
    requires lo <= |ts| && hi <= |ts|
    requires forall j | 0 <= j < |ts| :: PastNamespace(k, ts[j], ns, false) <==> lo <= j
    requires forall j | 0 <= j < |ts| :: PastNamespace(k, ts[j], ns, true) <==> hi <= j
    ensures lo <= hi && ts[lo..hi] == Filter((t: T) => k.ns(t) == ns, ts)
  {
    if hi < |ts| {
      AfterIsNotBefore(k, ts[hi], ns);
      assert PastNamespace(k, ts[hi], ns, false);
    }
    var here := (t: T) => k.ns(t) == ns;
    forall i | 0 <= i < |ts|
      ensures here(ts[i]) <==> lo <= i < hi
    {
      InNamespaceIffBetween(k, ts[i], ns);
    }
    SliceIsFilter(ts, here, lo, hi);
  }

  /** A built list: the changes counted before it read the store, and the store version it read. */
  datatype Built = Built(counted: nat, version: nat)

  /** The list a call answers from: the one there is while no change was counted since, else one read now. */
  function Refresh(l: Option<Built>, counted: nat, version: nat): Built {
    if l.Some? && l.value.counted == counted then l.value else Built(counted, version)
  }

  // ---- the list object ------------------------------------------------------------------

  class List<T(0)> {
    const kind: Kind<T>
    var built: nat
    var items: array?<T>
    var memo: map<Pointer, T>
    /** The store version the items were read from. */
    ghost var shown: nat

    constructor (kind: Kind<T>)
      ensures this.kind == kind && items == null && Remembers()
    {
      this.kind := kind;
      built, items, memo, shown := 0, null, map[], 0;
    }

    ghost function Model(): Option<Built>
      reads this
    {
      if items == null then None else Some(Built(built, shown))
    }

    /** The memo holds what conversion gives. */
    ghost predicate Remembers()
      reads this
    {
      forall p | p in memo :: memo[p] == kind.convert(kind.at(p))
    }

    /** The items are the view of a store version no older than the changes counted in `built`. */
    ghost predicate Current(versions: seq<seq<Pointer>>)
      reads this, items
    {
      items != null ==>
        built <= shown < |versions| && items[..] == View(kind, versions[shown], "")
    }

    /** The pointers of the kept objects. */
    method Keep(store: seq<Pointer>) returns (us: seq<Pointer>)
      ensures us == Filter((p: Pointer) => Shows(kind, "", p), store)
    {
      us := [];
      ghost var shows := (p: Pointer) => Shows(kind, "", p);
      for i := 0 to |store|
        invariant us == Filter(shows, store[..i])
      {
        assert store[..i + 1] == store[..i] + [store[i]];
        FilterSnoc(shows, store[..i], store[i]);
        if kind.keep(kind.at(store[i])) {
          us := us + [store[i]];
        }
      }
      assert store[..|store|] == store;
    }

    /** Reads the store again into a new array: arrays handed out before are never written. */
    method Rebuild(store: seq<Pointer>)
      requires Remembers()
      modifies this`items, this`memo
      ensures Remembers()
      ensures items != null && fresh(items) && items[..] == View(kind, store, "")
    {
      var us := Keep(store);
      us := Sort(PointerKey(kind), us);
      var a, seen := ConvertAll(us);
      items, memo := a, seen;
    }

    /** Converts each object the memo does not hold, and remembers every one. */
    method ConvertAll(us: seq<Pointer>) returns (a: array<T>, seen: map<Pointer, T>)
      requires Remembers()
      ensures fresh(a) && a[..] == Converted(kind, us)
      ensures forall p | p in seen :: seen[p] == kind.convert(kind.at(p))
    {
      a := new T[|us|];
      seen := map[];
      for i := 0 to |us|
        invariant forall j | 0 <= j < i :: a[j] == kind.convert(kind.at(us[j]))
        invariant forall p | p in seen :: seen[p] == kind.convert(kind.at(p))
      {
        var t := if us[i] in memo then memo[us[i]] else kind.convert(kind.at(us[i]));
        a[i] := t;
        seen := seen[us[i] := t];
      }
      assert a[..] == Converted(kind, us);
    }

    /**
     The objects in `ns`, as the slice a[lo..hi]. The change counter read `counted`; the store was
     read afterwards, when it held version `version` of `versions`, and holds at least the changes
     counted by then.
     */
    method In(ns: string, counted: nat, store: seq<Pointer>, ghost versions: seq<seq<Pointer>>, ghost version: nat)
      returns (a: array<T>, lo: nat, hi: nat)
      requires Reads(kind) && Remembers() && Current(versions)
      requires counted <= version < |versions| && store == versions[version]
      requires forall v | 0 <= v < |versions| :: KeyedBy(PointerKey(kind), versions[v])
      modifies this
      ensures Remembers() && Current(versions) && items == a
      ensures Model() == Some(Refresh(old(Model()), counted, version)) && counted <= shown
      ensures a == old(items) || fresh(a)
      ensures lo <= hi <= a.Length && a[lo..hi] == View(kind, versions[shown], ns)
    {
      if items == null || counted != built {
        Rebuild(store);
        built, shown := counted, version;
      }
      a := items;
      if ns == "" {
        lo, hi := 0, a.Length;
        assert a[0..a.Length] == a[..];
      } else {
        ItemsAscend(versions[shown]);
        lo := SearchNamespace(kind, a, ns, false);
        hi := SearchNamespace(kind, a, ns, true);
        NamespaceSlice(kind, a[..], ns, lo, hi);
        NarrowedView(kind, versions[shown], ns);
        assert a[lo..hi] == a[..][lo..hi];
      }
    }

    lemma {:induction false} ItemsAscend(store: seq<Pointer>)
      requires Reads(kind) && items != null && items[..] == View(kind, store, "")
      ensures Ascending(kind, items[..])
    {
      SortSorted(PointerKey(kind), Filter((p: Pointer) => Shows(kind, "", p), store));
      SortedAscends(kind, Sort(PointerKey(kind), Filter((p: Pointer) => Shows(kind, "", p), store)));
    }
  }

  // ---- changes arriving while the list is read ---------------------------------------------

  /** A read that found the list out of date and goes on to the store. */
  datatype Call = Call(ns: string, counted: nat)

  /** A finished read: what was counted before it was asked for, and the store version it shows. */
  datatype Answer = Answer(ns: string, floor: nat, version: nat)

  /** The store's versions, how many changes the handler counted, and the list over them, as a list object's `Model`. */
  datatype Feed = Feed(versions: seq<seq<Pointer>>, counted: nat, list: Option<Built>, calls: seq<Call>, answers: seq<Answer>)

  datatype Event = Change(store: seq<Pointer>) | Count | Ask(ns: string) | ReadStore

  /** A change is counted only once the store holds it, and one read at a time holds the lock. */
  predicate Enabled(f: Feed, e: Event) {
    match e
    case Change(_) => true
    case Count => f.counted + 1 < |f.versions|
    case Ask(_) => f.calls == []
    case ReadStore => f.calls != [] && f.versions != []
  }

  /** The list and the answer that one call of `In` leaves. */
  function Answers(f: Feed, ns: string, counted: nat, version: nat): Feed {
    var b := Refresh(f.list, counted, version);
    f.(list := Some(b), calls := [], answers := f.answers + [Answer(ns, counted, b.version)])
  }

  function Step(f: Feed, e: Event): Feed
    requires Enabled(f, e)
  {
    match e
    case Change(store) => f.(versions := f.versions + [store])
    case Count => f.(counted := f.counted + 1)
    case Ask(ns) =>
      if f.list.Some? && f.list.value.counted == f.counted then Answers(f, ns, f.counted, 0) else f.(calls := [Call(ns, f.counted)])
    case ReadStore => Answers(f, f.calls[0].ns, f.calls[0].counted, |f.versions| - 1)
  }

  /** The list is never older than the counter it remembers, whatever lands in between. */
  ghost predicate UpToDate(f: Feed) {
    && f.counted < |f.versions|
    && (f.list.Some? ==> f.list.value.counted <= f.list.value.version < |f.versions|)
    && (forall c | c in f.calls :: c.counted <= f.counted)
    && (forall a | a in f.answers :: a.floor <= a.version < |f.versions|)
  }

  ghost predicate Run(f: Feed, es: seq<Event>, f': Feed)
    decreases |es|
  {
    if es == [] then f' == f
    else Enabled(f, es[0]) && Run(Step(f, es[0]), es[1..], f')
  }

  /** Every answer of every run is the view of a store that holds every change counted before it was asked for, and stays so. */
  lemma {:induction false} NoChangeIsLost(f: Feed, es: seq<Event>, f': Feed)
    requires UpToDate(f) && Run(f, es, f')
    ensures UpToDate(f') && f.versions <= f'.versions && f.answers <= f'.answers
    decreases |es|
  {
    if es != [] {
      NoChangeIsLost(Step(f, es[0]), es[1..], f');
    }
  }

  /** What an answer holds. */
  function Held<T>(k: Kind<T>, f: Feed, a: Answer): seq<T>
    requires a.version < |f.versions|
  {
    View(k, f.versions[a.version], a.ns)
  }

  /** In every run, whatever changes land while the list is read, an answer's items are those of one store version, no older than its floor, and later steps leave them. */
  lemma {:induction false} AnswersStand<T>(k: Kind<T>, f: Feed, es: seq<Event>, f': Feed, i: nat)
    requires UpToDate(f) && Run(f, es, f') && i < |f.answers|
    ensures i < |f'.answers| && f'.answers[i] == f.answers[i] && f.answers[i].floor <= f.answers[i].version < |f.versions| <= |f'.versions|
    ensures Held(k, f', f'.answers[i]) == Held(k, f, f.answers[i])
  {
    NoChangeIsLost(f, es, f');
    assert f.answers[i] in f.answers;
  }

  // ---- what a view holds ---------------------------------------------------------------------------

  /** A view is the store's objects that are kept and of the namespace, each as often as the store has it, in order, converted. */
  lemma {:induction false} ViewHolds<T>(k: Kind<T>, store: seq<Pointer>, ns: string) returns (ps: seq<Pointer>)
    ensures View(k, store, ns) == Converted(k, ps)
    ensures forall p :: multiset(ps)[p] == if k.keep(k.at(p)) && (ns == "" || k.at(p).ns == ns) then multiset(store)[p] else 0
    ensures forall i, j | 0 <= i < j < |ps| :: !Precedes(k.at(ps[j]), k.at(ps[i]))
  {
    var shows := (p: Pointer) => Shows(k, ns, p);
    var kept := Filter(shows, store);
    ps := Sort(PointerKey(k), kept);
    SortContents(PointerKey(k), kept);
    SortSorted(PointerKey(k), kept);
    forall p ensures multiset(ps)[p] == if k.keep(k.at(p)) && (ns == "" || k.at(p).ns == ns) then multiset(store)[p] else 0 {
      FilterCounts(shows, store, p);
    }
    forall i, j | 0 <= i < j < |ps| ensures !Precedes(k.at(ps[j]), k.at(ps[i])) {
      PrecedesIs(k.at(ps[j]), k.at(ps[i]));
      assert !Before(PointerKey(k)(ps[j]), PointerKey(k)(ps[i]));
    }
  }
}
