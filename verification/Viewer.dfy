/**
 Fleet answers narrowed to the namespaces a person may read (internal/authn/viewer.go), with
 reviews and restricted views kept in caches that everyone shares.
 */
module Viewer {
  import opened Basics
  import opened Text
  import opened Order

  const ONE: char := '\U{0001}'
  const MAX_ANSWERS := 8192
  const MAX_VIEWS := 64

  datatype Person = Person(user: string, groups: seq<string>)

  /** A fleet snapshot: its id fixes its contents; `namespaces` are sorted. */
  datatype Snapshot = Snapshot(id: string, namespaces: seq<string>)

  /** A query over a snapshot: all of it, or what is left when `hidden` namespaces are. */
  datatype Query = Whole(snapshot: string) | Restricted(snapshot: string, hidden: set<string>)

  datatype Verdict = Verdict(allowed: bool, until: int)

  // ---- keys ----------------------------------------------------------------------------

  function Join(parts: seq<string>): string {
    if parts == [] then ""
    else if |parts| == 1 then parts[0]
    else parts[0] + [NUL] + Join(parts[1..])
  }

  predicate AllFree(parts: seq<string>) {
    forall s | s in parts :: Free(s, NUL)
  }

  /** No parts, or only the empty one. */
  predicate Blank(parts: seq<string>) {
    parts == [] || parts == [""]
  }

  /** Joined lists collide only as nothing and only the empty part. */
  lemma {:induction false} JoinInjective(a: seq<string>, b: seq<string>)
    requires AllFree(a) && AllFree(b) && Join(a) == Join(b)
    ensures a == b || (Blank(a) && Blank(b))
    decreases |a|
  {
    JoinSeparates(a);
    JoinSeparates(b);
    if |a| > 1 {
      HeadSplits(a[0], b[0], Join(a[1..]), Join(b[1..]), NUL);
      JoinInjective(a[1..], b[1..]);
      assert a == [a[0]] + a[1..] && b == [b[0]] + b[1..];
    }
  }

  lemma {:induction false} JoinSeparates(parts: seq<string>)
    requires AllFree(parts)
    ensures NUL in Join(parts) <==> |parts| > 1
  {
    if |parts| > 1 {
      assert Join(parts)[|parts[0]|] == NUL;
    } else if |parts| == 1 {
      assert parts[0] in parts;
    }
  }

  function SortKey(s: string): Key { [s] }

  /** The person as the answers are keyed: the user and the groups in order. */
  function WhoKey(p: Person): string {
    p.user + [NUL] + Join(Sort(SortKey, p.groups))
  }

  lemma {:induction false} WhoKeyNamesThePerson(p: Person, q: Person)
    requires Free(p.user, NUL) && Free(q.user, NUL) && AllFree(p.groups) && AllFree(q.groups)
    requires WhoKey(p) == WhoKey(q)
    ensures p.user == q.user
    ensures multiset(p.groups) == multiset(q.groups) || (Blank(p.groups) && Blank(q.groups))
  {
    var a, b := Sort(SortKey, p.groups), Sort(SortKey, q.groups);
    HeadSplits(p.user, q.user, Join(a), Join(b), NUL);
    SortMembers(SortKey, p.groups);
    SortMembers(SortKey, q.groups);
    JoinInjective(a, b);
    SortContents(SortKey, p.groups);
    SortContents(SortKey, q.groups);
    if a != b {
      BlankSorted(p.groups);
      BlankSorted(q.groups);
    }
  }

  lemma {:induction false} BlankSorted(s: seq<string>)
    requires Blank(Sort(SortKey, s))
    ensures Blank(s)
  {
    SortMembers(SortKey, s);
    if |s| == 1 {
      assert s[0] in Sort(SortKey, s);
    }
  }

  function AnswerKey(who: string, ns: string): string {
    who + [ONE] + ns
  }

  lemma {:induction false} AnswerKeyInjective(who: string, ns: string, who': string, ns': string)
    requires Free(ns, ONE) && Free(ns', ONE) && AnswerKey(who, ns) == AnswerKey(who', ns')
    ensures who == who' && ns == ns'
  {
    TailSplits(who, who', ns, ns', ONE);
  }

  // ---- what a person sees --------------------------------------------------------------------

  predicate Ascending(s: seq<string>) {
    forall i, j | 0 <= i < j < |s| :: Less(s[i], s[j])
  }

  /** The namespaces of the snapshot the person does not see: those not listed, and the nameless one. */
  function HiddenFrom(q: Snapshot, visible: seq<string>): set<string> {
    set ns | ns in q.namespaces && (ns !in visible || ns == "")
  }

  function RestrictTo(q: Snapshot, visible: seq<string>): Query {
    Restricted(q.id, HiddenFrom(q, visible))
  }

  /** Lists whose keys collide see the same. */
  lemma {:induction false} SameKeySameView(q: Snapshot, a: seq<string>, b: seq<string>)
    requires AllFree(a) && AllFree(b) && Join(a) == Join(b)
    ensures RestrictTo(q, a) == RestrictTo(q, b)
  {
    JoinInjective(a, b);
  }

  method BinarySearch(s: seq<string>, x: string) returns (found: bool)
    requires Ascending(s)
    ensures found <==> x in s
  {
    var lo, hi := 0, |s|;
    while lo < hi
      invariant 0 <= lo <= hi <= |s|
      invariant forall i | 0 <= i < lo :: Less(s[i], x)
      invariant forall i | hi <= i < |s| :: !Less(s[i], x)
    {
      var h := (lo + hi) / 2;
      if Less(s[h], x) {
        forall i | 0 <= i < h
          ensures Less(s[i], x)
        {
          LessTransitive(s[i], s[h], x);
        }
        lo := h + 1;
      } else {
        forall i | h < i < |s|
          ensures !Less(s[i], x)
        {
          if Less(s[i], x) {
            LessTransitive(s[h], s[i], x);
          }
        }
        hi := h;
      }
    }
    FoundAtBound(s, x, lo);
    found := lo < |s| && s[lo] == x;
  }

  lemma {:induction false} FoundAtBound(s: seq<string>, x: string, lo: nat)
    requires Ascending(s) && lo <= |s|
    requires forall i | 0 <= i < lo :: Less(s[i], x)
    requires forall i | lo <= i < |s| :: !Less(s[i], x)
    ensures x in s <==> lo < |s| && s[lo] == x
  {
    LessIrreflexive(x);
    if x in s {
      var i :| 0 <= i < |s| && s[i] == x;
      AscendingPair(s, lo, i);
    }
  }

  lemma {:induction false} AscendingPair(s: seq<string>, i: nat, j: nat)
    requires Ascending(s) && i <= j < |s|
    ensures s[i] == s[j] || Less(s[i], s[j])
  {
  }

  /** The namespaces to hide, asking the visibility of each as the restriction does. */
  method Restrict(q: Snapshot, visible: seq<string>) returns (r: Query)
    requires Ascending(visible)
    ensures r == RestrictTo(q, visible)
    ensures r.Restricted? && r.snapshot == q.id
    ensures forall ns :: ns in r.hidden <==> ns in q.namespaces && (ns == "" || ns !in visible)
  {
    var hidden: set<string> := {};
    for i := 0 to |q.namespaces|
      invariant hidden == set ns | ns in q.namespaces[..i] && (ns !in visible || ns == "")
    {
      var ns := q.namespaces[i];
      var found := BinarySearch(visible, ns);
      assert q.namespaces[..i + 1] == q.namespaces[..i] + [ns];
      if !(found && ns != "") {
        hidden := hidden + {ns};
      }
    }
    assert q.namespaces[..|q.namespaces|] == q.namespaces;
    r := Restricted(q.id, hidden);
  }

  // ---- the caches, one lock region at a time ---------------------------------------------------

  datatype Caches = Caches(answers: map<string, Verdict>, viewsOf: string, views: map<string, Query>)

  const EMPTY := Caches(map[], "", map[])

  function CachedAnswer(c: Caches, key: string, now: int): Option<bool> {
    if key in c.answers && now < c.answers[key].until then Some(c.answers[key].allowed) else None
  }

  function WithAnswer(c: Caches, key: string, v: Verdict): Caches {
    var answers := if |c.answers| >= MAX_ANSWERS then map[] else c.answers;
    c.(answers := answers[key := v])
  }

  function CachedView(c: Caches, key: string, snapshot: string): Option<Query> {
    if key in c.views && c.viewsOf == snapshot then Some(c.views[key]) else None
  }

  function WithView(c: Caches, key: string, snapshot: string, view: Query): Caches {
    var c' := if c.viewsOf != snapshot || |c.views| >= MAX_VIEWS then c.(viewsOf := snapshot, views := map[]) else c;
    c'.(views := c'.views[key := view])
  }

  /** A kept answer is given for as long as it lasts; keeping it drops others only when there are too many. */
  lemma {:induction false} AnswersKept(c: Caches, key: string, v: Verdict, k: string, now: int)
    ensures CachedAnswer(WithAnswer(c, key, v), key, now) == if now < v.until then Some(v.allowed) else None
    ensures k != key ==> CachedAnswer(WithAnswer(c, key, v), k, now) == if |c.answers| < MAX_ANSWERS then CachedAnswer(c, k, now) else None
    ensures WithAnswer(c, key, v).viewsOf == c.viewsOf && WithAnswer(c, key, v).views == c.views
  {
  }

  /** A kept view is given for its snapshot and no other; keeping it drops others of that snapshot only when there are too many. */
  lemma {:induction false} ViewsKept(c: Caches, key: string, id: string, view: Query, k: string, id': string)
    ensures CachedView(WithView(c, key, id, view), key, id') == if id' == id then Some(view) else None
    ensures k != key ==> CachedView(WithView(c, key, id, view), k, id') ==
                         if id' == id && |c.views| < MAX_VIEWS then CachedView(c, k, id) else None
    ensures WithView(c, key, id, view).answers == c.answers
  {
  }

  // ---- one query --------------------------------------------------------------------------------

  /** The namespaces of `nss` that `allowed` says yes to, in order. */
  function Allowed(nss: seq<string>, allowed: seq<bool>): (out: seq<string>)
    requires |allowed| == |nss|
    ensures forall ns | ns in out :: ns in nss
  {
    if nss == [] then []
    else
      var l := |nss| - 1;
      Allowed(nss[..l], allowed[..l]) + if allowed[l] then [nss[l]] else []
  }

  lemma {:induction false} AllowedMembers(nss: seq<string>, allowed: seq<bool>)
    requires |allowed| == |nss| && Ascending(nss)
    ensures Ascending(Allowed(nss, allowed))
    ensures forall i | 0 <= i < |nss| :: nss[i] in Allowed(nss, allowed) <==> allowed[i]
  {
    if nss != [] {
      var l := |nss| - 1;
      AllowedMembers(nss[..l], allowed[..l]);
      var out := Allowed(nss[..l], allowed[..l]);
      LastIsAbove(nss, out);
      SnocAscending(out, nss[l]);
      forall i | 0 <= i < |nss|
        ensures nss[i] in Allowed(nss, allowed) <==> allowed[i]
      {
        if i < l {
          assert nss[..l][i] == nss[i] && allowed[..l][i] == allowed[i] && nss[i] != nss[l];
        }
      }
    }
  }

  /** The view is of this snapshot, and hides each of its namespaces that was refused, the nameless one, and nothing else. */
  predicate ShowsAllowed(q: Snapshot, allowed: seq<bool>, view: Query) {
    && |allowed| == |q.namespaces| && view.Restricted? && view.snapshot == q.id
    && (forall i | 0 <= i < |q.namespaces| :: q.namespaces[i] in view.hidden <==> !allowed[i] || q.namespaces[i] == "")
    && (forall ns | ns in view.hidden :: ns in q.namespaces)
  }

  lemma {:induction false} RestrictShowsAllowed(q: Snapshot, allowed: seq<bool>)
    requires Ascending(q.namespaces) && |allowed| == |q.namespaces|
    ensures ShowsAllowed(q, allowed, RestrictTo(q, Allowed(q.namespaces, allowed)))
  {
    AllowedMembers(q.namespaces, allowed);
  }

  lemma {:induction false} SnocAscending(s: seq<string>, x: string)
    requires Ascending(s) && forall y | y in s :: Less(y, x)
    ensures Ascending(s + [x])
  {
  }

  /** Everything drawn from before the last element is below it. */
  lemma {:induction false} LastIsAbove(nss: seq<string>, out: seq<string>)
    requires Ascending(nss) && nss != []
    requires forall ns | ns in out :: ns in nss[..|nss| - 1]
    ensures forall ns | ns in out :: Less(ns, nss[|nss| - 1])
    ensures nss[|nss| - 1] !in out
    ensures forall i | 0 <= i < |nss| - 1 :: nss[i] != nss[|nss| - 1]
  {
    var l := |nss| - 1;
    LessIrreflexive(nss[l]);
    forall ns | ns in nss[..l]
      ensures Less(ns, nss[l])
    {
      var i :| 0 <= i < l && nss[i] == ns;
    }
    assert forall i | 0 <= i < l :: Less(nss[i], nss[l]);
  }

  /** A reply is what the apiserver says now, or a kept answer that still lasts. */
  ghost predicate Justified(c: Caches, who: string, ns: string, now: int, reviews: string -> Result<bool, string>, r: Result<bool, string>) {
    r == reviews(ns) || (r.Success? && CachedAnswer(c, AnswerKey(who, ns), now) == Some(r.value))
  }

  /** Every answer `c'` would give is justified by what `c` held and what the apiserver says now. */
  ghost predicate Explained(c: Caches, c': Caches, who: string, now: int, reviews: string -> Result<bool, string>) {
    forall ns | Free(ns, ONE) && CachedAnswer(c', AnswerKey(who, ns), now).Some? ::
      Justified(c, who, ns, now, reviews, Success(CachedAnswer(c', AnswerKey(who, ns), now).value))
  }

  lemma {:induction false} RepliesStayExplained(c: Caches, c': Caches, who: string, ns: string, now: int, ttl: int,
                                                reviews: string -> Result<bool, string>)
    requires Explained(c, c', who, now, reviews) && Free(ns, ONE)
    ensures reviews(ns).Success? ==>
              Explained(c, WithAnswer(c', AnswerKey(who, ns), Verdict(reviews(ns).value, now + ttl)), who, now, reviews)
  {
    if reviews(ns).Success? {
      var c'' := WithAnswer(c', AnswerKey(who, ns), Verdict(reviews(ns).value, now + ttl));
      forall ns' | Free(ns', ONE) && CachedAnswer(c'', AnswerKey(who, ns'), now).Some?
        ensures Justified(c, who, ns', now, reviews, Success(CachedAnswer(c'', AnswerKey(who, ns'), now).value))
      {
        if AnswerKey(who, ns') == AnswerKey(who, ns) {
          AnswerKeyInjective(who, ns, who, ns');
        } else {
          assert CachedAnswer(c', AnswerKey(who, ns'), now) == CachedAnswer(c'', AnswerKey(who, ns'), now);
        }
      }
    }
  }

  predicate AllAnswered(each: seq<Result<bool, string>>) {
    forall r | r in each :: r.Success?
  }

  function Values(each: seq<Result<bool, string>>): (bs: seq<bool>)
    requires AllAnswered(each)
    ensures |bs| == |each| && forall i | 0 <= i < |each| :: bs[i] == each[i].value
  {
    seq(|each|, i requires 0 <= i < |each| => assert each[i] in each; each[i].value)
  }

  class View {
    const ttl: int
    var answers: map<string, Verdict>
    var viewsOf: string
    var views: map<string, Query>

    constructor (ttl: int)
      ensures this.ttl == ttl && Model() == EMPTY
    {
      this.ttl := ttl;
      answers, viewsOf, views := map[], "", map[];
    }

    function Model(): Caches
      reads this
    {
      Caches(answers, viewsOf, views)
    }

    method KeepReview(who: string, ns: string, allowed: bool, now: int)
      modifies this`answers
      ensures Model() == WithAnswer(old(Model()), AnswerKey(who, ns), Verdict(allowed, now + ttl))
    {
      if |answers| >= MAX_ANSWERS {
        answers := map[];
      }
      answers := answers[AnswerKey(who, ns) := Verdict(allowed, now + ttl)];
    }

    /** One review, from the cache while it lasts; `reviewed` is what the apiserver would say now. */
    method Ask(who: string, ns: string, now: int, reviewed: Result<bool, string>) returns (r: Result<bool, string>)
      modifies this`answers
      ensures var key := AnswerKey(who, ns);
              match CachedAnswer(old(Model()), key, now)
              case Some(b) => r == Success(b) && Model() == old(Model())
              case None =>
                && r == reviewed
                && Model() == (if reviewed.Success? then WithAnswer(old(Model()), key, Verdict(reviewed.value, now + ttl)) else old(Model()))
    {
      var key := AnswerKey(who, ns);
      if key in answers && now < answers[key].until {
        return Success(answers[key].allowed);
      }
      if reviewed.Failure? {
        return reviewed;
      }
      KeepReview(who, ns, reviewed.value, now);
      return reviewed;
    }

    /**
     `q` as the person sees it. `reviews` is what the apiserver says now of each namespace, and of
     every namespace at once for "". The ghost results are the answers the request went by.
     */
    method Show(p: Person, q: Snapshot, now: int, reviews: string -> Result<bool, string>)
      returns (r: Result<Query, string>, ghost all: Result<bool, string>, ghost each: seq<Result<bool, string>>)
      requires Ascending(q.namespaces) && AllFree(q.namespaces) && forall ns | ns in q.namespaces :: Free(ns, ONE)
      requires ViewsAreOf(q)
      modifies this
      ensures Justified(old(Model()), WhoKey(p), "", now, reviews, all)
      ensures |each| <= |q.namespaces| &&
              forall i | 0 <= i < |each| :: Justified(old(Model()), WhoKey(p), q.namespaces[i], now, reviews, each[i])
      ensures all.Failure? ==> r.Failure?
      ensures all == Success(true) ==> r == Success(Whole(q.id))
      ensures all == Success(false) ==> (r.Success? <==> |each| == |q.namespaces| && AllAnswered(each))
      ensures all == Success(false) && r.Success? ==> ShowsAllowed(q, Values(each), r.value)
      ensures ViewsAreOf(q)
    {
      var who := WhoKey(p);
      each := [];
      var whole := Ask(who, "", now, reviews(""));
      all := whole;
      RepliesStayExplained(old(Model()), old(Model()), who, "", now, ttl, reviews);
      if whole.Failure? {
        return Failure(whole.error), all, each;
      }
      if whole.value {
        return Success(Whole(q.id)), all, each;
      }
      ghost var asked := Model();
      var visible;
      visible, each := Visible(who, q.namespaces, now, reviews);
      assert forall i | 0 <= i < |each| :: Justified(asked, who, q.namespaces[i], now, reviews, each[i]);
      if visible.Failure? {
        return Failure(visible.error), all, each;
      }
      AllowedMembers(q.namespaces, Values(each));
      r := Narrow(q, visible.value);
      RestrictShowsAllowed(q, Values(each));
    }

    /** The namespaces of `nss` the person may read, in order: one review that fails fails them all. */
    method Visible(who: string, nss: seq<string>, now: int, reviews: string -> Result<bool, string>)
      returns (r: Result<seq<string>, string>, ghost each: seq<Result<bool, string>>)
      requires forall ns | ns in nss :: Free(ns, ONE)
      modifies this`answers
      ensures |each| <= |nss| && forall i | 0 <= i < |each| :: Justified(old(Model()), who, nss[i], now, reviews, each[i])
      ensures r.Success? <==> |each| == |nss| && AllAnswered(each)
      ensures r.Success? ==> r.value == Allowed(nss, Values(each))
    {
      var visible := [];
      each := [];
      for i := 0 to |nss|
        invariant |each| == i && AllAnswered(each) && visible == Allowed(nss[..i], Values(each))
        invariant forall k | 0 <= k < i :: Justified(old(Model()), who, nss[k], now, reviews, each[k])
        invariant Explained(old(Model()), Model(), who, now, reviews)
      {
        var ns := nss[i];
        RepliesStayExplained(old(Model()), Model(), who, ns, now, ttl, reviews);
        var one := Ask(who, ns, now, reviews(ns));
        ghost var soFar := each;
        each := each + [one];
        if one.Failure? {
          assert each[i] in each;
          return Failure(one.error), each;
        }
        assert nss[..i + 1][..i] == nss[..i];
        assert Values(each)[..i] == Values(soFar);
        if one.value {
          visible := visible + [ns];
        }
      }
      assert nss[..|nss|] == nss;
      r := Success(visible);
    }

    /** The views kept for `q`'s snapshot are restrictions of it. */
    ghost predicate ViewsAreOf(q: Snapshot)
      reads this
    {
      viewsOf == q.id ==>
        forall k | k in views :: exists v :: AllFree(v) && Join(v) == k && views[k] == RestrictTo(q, v)
    }

    method Narrow(q: Snapshot, visible: seq<string>) returns (r: Result<Query, string>)
      requires Ascending(visible) && AllFree(visible) && ViewsAreOf(q)
      modifies this
      ensures ViewsAreOf(q)
      ensures r == Success(RestrictTo(q, visible))
      ensures Model() == old(Model()) || Model() == WithView(old(Model()), Join(visible), q.id, r.value)
    {
      var key := Join(visible);
      if key in views && viewsOf == q.id {
        ghost var v :| AllFree(v) && Join(v) == key && views[key] == RestrictTo(q, v);
        SameKeySameView(q, v, visible);
        return Success(views[key]);
      }
      var view := Restrict(q, visible);
      if viewsOf != q.id || |views| >= MAX_VIEWS {
        viewsOf, views := q.id, map[];
      }
      views := views[key := view];
      return Success(view);
    }
  }
}
