/**
 Lists answered from the shared cache (internal/cli/dashboard_shared.go:126-132, 347-406):
 through the stage index or the namespace index, they are what a scan of the store gives.
 */
module SharedList {
  import opened Basics
  import opened Text
  import opened Order
  import opened SharedObjects

  datatype Resource = Stages | Operations

  function Selectable(r: Resource): seq<string> {
    match r
    case Stages => []
    case Operations => [SPEC_STAGE, STATUS_OUTCOME]
  }

  // ---- field selectors -----------------------------------------------------------------

  datatype Requirement = Equals(field: string, value: string) | Differs(field: string, value: string)

  type Selector = seq<Requirement>

  /** The options of a list: `fields` is the parsed field selector, if it parses. */
  datatype ListOptions = ListOptions(labels: string, limit: int, continueAt: string, resourceVersion: string, watch: bool,
                                     fields: Option<Selector>)

  predicate Known(r: Resource, field: string) {
    field == "metadata.name" || field == "metadata.namespace" || field in Selectable(r)
  }

  predicate AllKnown(r: Resource, sel: Selector) {
    forall q | q in sel :: Known(r, q.field)
  }

  predicate Evaluable(r: Resource, o: ListOptions) {
    && o.labels == "" && o.limit == 0 && o.continueAt == "" && o.resourceVersion == "" && !o.watch
    && o.fields.Some? && AllKnown(r, o.fields.value)
  }

  /** What to filter by here, or nothing if any part of the request has to go elsewhere. */
  method SelectorOf(r: Resource, o: ListOptions) returns (sel: Option<Selector>)
    ensures sel == if Evaluable(r, o) then o.fields else None
    ensures sel.Some? <==>
            && o.labels == "" && o.limit == 0 && o.continueAt == "" && o.resourceVersion == "" && !o.watch && o.fields.Some?
            && forall q | q in o.fields.value :: q.field in ["metadata.name", "metadata.namespace"]
                                                 || (r == Operations && q.field in ["spec.stage", "status.outcome"])
  {
    if o.labels != "" || o.limit != 0 || o.continueAt != "" || o.resourceVersion != "" || o.watch {
      return None;
    }
    if o.fields.None? {
      return None;
    }
    for i := 0 to |o.fields.value|
      invariant AllKnown(r, o.fields.value[..i])
    {
      if !Known(r, o.fields.value[i].field) {
        assert o.fields.value[i] in o.fields.value;
        return None;
      }
      assert o.fields.value[..i + 1] == o.fields.value[..i] + [o.fields.value[i]];
    }
    assert o.fields.value[..|o.fields.value|] == o.fields.value;
    return o.fields;
  }

  /** The value a field has in the set of fields a selector may name. */
  function FieldOf(r: Resource, o: Object, field: string): string {
    if field in Selectable(r) then NestedString(o, field)
    else if field == "metadata.name" then o.name
    else if field == "metadata.namespace" then o.ns
    else ""
  }

  predicate Meets(r: Resource, o: Object, q: Requirement) {
    match q
    case Equals(f, v) => FieldOf(r, o, f) == v
    case Differs(f, v) => FieldOf(r, o, f) != v
  }

  predicate Matches(r: Resource, sel: Selector, o: Object) {
    forall q | q in sel :: Meets(r, o, q)
  }

  /** The value the selector pins `field` to, if it pins one. */
  function RequiresExactMatch(sel: Selector, field: string): (v: Option<string>)
    ensures v.Some? ==> Equals(field, v.value) in sel
  {
    if sel == [] then None
    else if sel[0].Equals? && sel[0].field == field then Some(sel[0].value)
    else RequiresExactMatch(sel[1..], field)
  }

  // ---- the indices -----------------------------------------------------------------------

  function StageIndexKey(ns: string, stage: string): string {
    ns + ['/'] + stage
  }

  predicate InNamespace(ns: string, o: Object) {
    ns == "" || o.ns == ns
  }

  predicate UnderStage(key: string, o: Object) {
    StageIndexKey(o.ns, NestedString(o, SPEC_STAGE)) == key
  }

  /** A store's list: every object, in no particular order. */
  method ListStore(store: seq<Object>) returns (objs: seq<Object>)
    ensures multiset(objs) == multiset(store)
  {
    objs := store;
  }

  /** The objects of an index bucket, in no particular order. */
  method ByStage(store: seq<Object>, key: string) returns (objs: seq<Object>)
    ensures multiset(objs) == multiset(Filter(o => UnderStage(key, o), store))
  {
    objs := Filter(o => UnderStage(key, o), store);
  }

  method ByNamespace(store: seq<Object>, ns: string) returns (objs: seq<Object>)
    ensures multiset(objs) == multiset(Filter((o: Object) => o.ns == ns, store))
  {
    objs := Filter((o: Object) => o.ns == ns, store);
  }

  // ---- listing -------------------------------------------------------------------------------

  /** What the apiserver lists: a scan of the whole store, by namespace and then name. */
  function Scan(r: Resource, store: seq<Object>, ns: string, sel: Selector): seq<Object> {
    Sort(ObjectKey, Filter(o => InNamespace(ns, o) && Matches(r, sel, o), store))
  }

  datatype Listing = Delegated | Denied | Items(items: seq<Object>)

  predicate SlashFree(store: seq<Object>) {
    forall o | o in store :: Free(o.ns, '/')
  }

  lemma {:induction false} FilterTwice(p: Object -> bool, q: Object -> bool, pq: Object -> bool, s: seq<Object>)
    requires forall o | o in s :: pq(o) <==> p(o) && q(o)
    ensures multiset(Filter(q, Filter(p, s))) == multiset(Filter(pq, s))
  {
    forall x: Object
      ensures multiset(Filter(q, Filter(p, s)))[x] == multiset(Filter(pq, s))[x]
    {
      FilterCounts(q, Filter(p, s), x);
      FilterCounts(p, s, x);
      FilterCounts(pq, s, x);
      if x !in s {
        assert multiset(s)[x] == 0;
      }
    }
  }

  /** A bucket of the stage index holds every object of the namespace a selector on that stage can match. */
  lemma {:induction false} StageBucketIsEnough(store: seq<Object>, ns: string, sel: Selector, stage: string, o: Object)
    requires SlashFree(store) && Free(ns, '/') && ns != "" && o in store
    requires RequiresExactMatch(sel, SPEC_STAGE) == Some(stage)
    ensures UnderStage(StageIndexKey(ns, stage), o) && Matches(Operations, sel, o)
            <==> InNamespace(ns, o) && Matches(Operations, sel, o)
  {
    if UnderStage(StageIndexKey(ns, stage), o) {
      HeadSplits(o.ns, ns, NestedString(o, SPEC_STAGE), stage, '/');
    }
    if Matches(Operations, sel, o) {
      assert Meets(Operations, o, Equals(SPEC_STAGE, stage));
    }
  }

  lemma {:induction false} StageIndexAgreesWithScan(store: seq<Object>, ns: string, sel: Selector, stage: string, objs: seq<Object>)
    requires SlashFree(store) && Free(ns, '/') && ns != ""
    requires RequiresExactMatch(sel, SPEC_STAGE) == Some(stage)
    requires multiset(objs) == multiset(Filter(o => UnderStage(StageIndexKey(ns, stage), o), store))
    ensures multiset(Filter(o => Matches(Operations, sel, o), objs))
            == multiset(Filter(o => InNamespace(ns, o) && Matches(Operations, sel, o), store))
  {
    var p := (o: Object) => UnderStage(StageIndexKey(ns, stage), o);
    var q := (o: Object) => Matches(Operations, sel, o);
    var pq := (o: Object) => InNamespace(ns, o) && Matches(Operations, sel, o);
    FilterContents(q, objs, Filter(p, store));
    forall o | o in store
      ensures pq(o) <==> p(o) && q(o)
    {
      StageBucketIsEnough(store, ns, sel, stage, o);
    }
    FilterTwice(p, q, pq, store);
  }

  lemma {:induction false} NamespaceIndexAgreesWithScan(r: Resource, store: seq<Object>, ns: string, sel: Selector, objs: seq<Object>)
    requires ns != ""
    requires multiset(objs) == multiset(Filter((o: Object) => o.ns == ns, store))
    ensures multiset(Filter(o => Matches(r, sel, o), objs))
            == multiset(Filter(o => InNamespace(ns, o) && Matches(r, sel, o), store))
  {
    var p := (o: Object) => o.ns == ns;
    var q := (o: Object) => Matches(r, sel, o);
    var pq := (o: Object) => InNamespace(ns, o) && Matches(r, sel, o);
    FilterContents(q, objs, Filter(p, store));
    FilterTwice(p, q, pq, store);
  }

  lemma {:induction false} StoreAgreesWithScan(r: Resource, store: seq<Object>, sel: Selector, objs: seq<Object>)
    requires multiset(objs) == multiset(store)
    ensures multiset(Filter(o => Matches(r, sel, o), objs))
            == multiset(Filter(o => InNamespace("", o) && Matches(r, sel, o), store))
  {
    var q := (o: Object) => Matches(r, sel, o);
    var pq := (o: Object) => InNamespace("", o) && Matches(r, sel, o);
    FilterContents(q, objs, store);
    FilterCountsAgree(q, pq, store);
  }

  lemma {:induction false} FilterCountsAgree(p: Object -> bool, q: Object -> bool, s: seq<Object>)
    requires forall o :: p(o) <==> q(o)
    ensures multiset(Filter(p, s)) == multiset(Filter(q, s))
  {
    forall x: Object
      ensures multiset(Filter(p, s))[x] == multiset(Filter(q, s))[x]
    {
      FilterCounts(p, s, x);
      FilterCounts(q, s, x);
    }
  }

  /** The objects the cheapest index yields for a request. */
  method Candidates(r: Resource, store: seq<Object>, ns: string, sel: Selector) returns (objs: seq<Object>)
    requires SlashFree(store) && Free(ns, '/')
    ensures multiset(Filter(o => Matches(r, sel, o), objs))
            == multiset(Filter(o => InNamespace(ns, o) && Matches(r, sel, o), store))
  {
    var stage := RequiresExactMatch(sel, SPEC_STAGE);
    if ns == "" {
      objs := ListStore(store);
      StoreAgreesWithScan(r, store, sel, objs);
    } else if stage.Some? && r == Operations {
      objs := ByStage(store, StageIndexKey(ns, stage.value));
      StageIndexAgreesWithScan(store, ns, sel, stage.value, objs);
    } else {
      objs := ByNamespace(store, ns);
      NamespaceIndexAgreesWithScan(r, store, ns, sel, objs);
    }
  }

  /**
   A list from memory is the scan, for every selector the cache accepts and every order the
   indices answer in. `usable` is a synced cache and a person who did not just write; `allowed`
   is the review of that person for this list.
   */
  method List(r: Resource, store: seq<Object>, ns: string, o: ListOptions, usable: bool, allowed: bool) returns (l: Listing)
    requires KeyedBy(ObjectKey, store) && SlashFree(store) && Free(ns, '/')
    ensures l == if !usable || !Evaluable(r, o) then Delegated
                 else if !allowed then Denied
                 else Items(Scan(r, store, ns, o.fields.value))
  {
    var sel := SelectorOf(r, o);
    if sel.None? || !usable {
      return Delegated;
    }
    if !allowed {
      return Denied;
    }
    var objs := Candidates(r, store, ns, sel.value);
    var items := Matching(r, objs, sel.value);
    SortedScan(r, store, ns, sel.value, items);
    return Items(Sort(ObjectKey, items));
  }

  method Matching(r: Resource, objs: seq<Object>, sel: Selector) returns (items: seq<Object>)
    ensures items == Filter(o => Matches(r, sel, o), objs)
  {
    items := [];
    ghost var p := (o: Object) => Matches(r, sel, o);
    for i := 0 to |objs|
      invariant items == Filter(p, objs[..i])
    {
      assert objs[..i + 1] == objs[..i] + [objs[i]];
      FilterSnoc(p, objs[..i], objs[i]);
      if Matches(r, sel, objs[i]) {
        items := items + [objs[i]];
      }
    }
    assert objs[..|objs|] == objs;
  }

  lemma {:induction false} SortedScan(r: Resource, store: seq<Object>, ns: string, sel: Selector, items: seq<Object>)
    requires KeyedBy(ObjectKey, store)
    requires multiset(items) == multiset(Filter(o => InNamespace(ns, o) && Matches(r, sel, o), store))
    ensures Sort(ObjectKey, items) == Scan(r, store, ns, sel)
  {
    var scanned := Filter(o => InNamespace(ns, o) && Matches(r, sel, o), store);
    assert KeyedBy(ObjectKey, scanned) by {
      assert forall x | x in scanned :: x in store;
    }
    SortOrderIrrelevant(ObjectKey, scanned, items);
  }

  // ---- what a scan holds ------------------------------------------------------------------------

  /** What a selector may ask of an object: its name, its namespace and, of an operation, its stage and outcome. */
  predicate Answers(r: Resource, o: Object, q: Requirement) {
    var value := if q.field == "metadata.name" then o.name
                 else if q.field == "metadata.namespace" then o.ns
                 else if r.Operations? && (q.field == "spec.stage" || q.field == "status.outcome") && q.field in o.fields then o.fields[q.field]
                 else "";
    if q.Equals? then value == q.value else value != q.value
  }

  lemma {:induction false} MeetsIs(r: Resource, o: Object, q: Requirement)
    ensures Meets(r, o, q) <==> Answers(r, o, q)
  {
  }

  /** A scan is the store's objects of the namespace that answer every requirement, each as often as the store has it, by namespace and then name. */
  lemma {:induction false} ScanHolds(r: Resource, store: seq<Object>, ns: string, sel: Selector)
    ensures forall o :: multiset(Scan(r, store, ns, sel))[o] ==
                        if (ns == "" || o.ns == ns) && forall q | q in sel :: Answers(r, o, q) then multiset(store)[o] else 0
    ensures var s := Scan(r, store, ns, sel);
            forall i, j | 0 <= i < j < |s| :: !Precedes(s[j], s[i])
  {
    var wanted := (o: Object) => InNamespace(ns, o) && Matches(r, sel, o);
    var kept := Filter(wanted, store);
    assert Scan(r, store, ns, sel) == Sort(ObjectKey, kept);
    SortContents(ObjectKey, kept);
    SortSorted(ObjectKey, kept);
    forall o: Object ensures multiset(kept)[o] == if (ns == "" || o.ns == ns) && forall q | q in sel :: Answers(r, o, q) then multiset(store)[o] else 0 {
      FilterCounts(wanted, store, o);
      forall q | q in sel ensures Meets(r, o, q) <==> Answers(r, o, q) {
        MeetsIs(r, o, q);
      }
    }
    InKeyOrder(Scan(r, store, ns, sel));
  }

  lemma {:induction false} InKeyOrder(s: seq<Object>)
    requires Sorted(ObjectKey, s)
    ensures forall i, j | 0 <= i < j < |s| :: !Precedes(s[j], s[i])
  {
    forall i, j | 0 <= i < j < |s| ensures !Precedes(s[j], s[i]) {
      PrecedesIs(s[j], s[i]);
      assert !Before(ObjectKey(s[j]), ObjectKey(s[i]));
    }
  }
}
