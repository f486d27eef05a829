/** Every interleaving of people's queries over the caches they share (internal/authn/viewer.go:170-246). */
module ViewerRuns {
  import opened Basics
  import opened Text
  import opened Viewer

  /** A review the apiserver made, asked for at `at`. */
  datatype Review = Review(person: Person, ns: string, allowed: bool, at: int)

  /** What a query was told of one namespace, at `now`. */
  datatype Reply = Reply(allowed: bool, now: int)

  /** A query under way: its replies by place in the snapshot's namespaces, -1 for all at once, and the list it builds a view for. */
  datatype Request = Request(person: Person, snapshot: Snapshot, replies: map<int, Reply>, building: Option<seq<string>>)

  datatype Returned = Returned(person: Person, snapshot: Snapshot, replies: map<int, Reply>, view: Query)

  datatype System = System(caches: Caches, requests: map<nat, Request>, reviews: set<Review>,
                           builtFor: map<string, seq<string>>, returned: seq<Returned>)

  const START := System(EMPTY, map[], {}, map[], [])

  datatype Event =
    | Begin(id: nat, person: Person, snapshot: Snapshot)
    | FromCache(id: nat, i: int, now: int)
    | FromReview(id: nat, i: int, now: int, allowed: bool)
    | Fail(id: nat)
    | Look(id: nat)
    | Build(id: nat)

  /** No names hold the separators of keys, and a snapshot's namespaces are sorted. */
  predicate PlainPerson(p: Person) {
    Free(p.user, NUL) && AllFree(p.groups)
  }

  predicate PlainSnapshot(q: Snapshot) {
    Ascending(q.namespaces) && AllFree(q.namespaces) && forall ns | ns in q.namespaces :: Free(ns, ONE)
  }

  /** The namespace asked about in place `i`. */
  function NsAt(q: Snapshot, i: int): string
    requires -1 <= i < |q.namespaces|
  {
    if i == -1 then "" else q.namespaces[i]
  }

  /** The review of all namespaces comes first, the others only if it says no. */
  predicate Asks(r: Request, i: int) {
    r.building.None? && -1 <= i < |r.snapshot.namespaces| && i !in r.replies && (i >= 0 ==> -1 in r.replies && !r.replies[-1].allowed)
  }

  predicate AllIn(n: nat, replies: map<int, Reply>) {
    -1 in replies && (!replies[-1].allowed ==> forall i | 0 <= i < n :: i in replies)
  }

  function Key(r: Request, i: int): string
    requires -1 <= i < |r.snapshot.namespaces|
  {
    AnswerKey(WhoKey(r.person), NsAt(r.snapshot, i))
  }

  /** Snapshots of one id are one snapshot. */
  ghost predicate Published(snapshots: map<string, Snapshot>, q: Snapshot) {
    q.id in snapshots && snapshots[q.id] == q && PlainSnapshot(q)
  }

  ghost predicate Enabled(snapshots: map<string, Snapshot>, s: System, e: Event) {
    match e
    case Begin(id, p, q) => id !in s.requests && PlainPerson(p) && Published(snapshots, q)
    case FromCache(id, i, now) => id in s.requests && Asks(s.requests[id], i) && CachedAnswer(s.caches, Key(s.requests[id], i), now).Some?
    case FromReview(id, i, _, _) => id in s.requests && Asks(s.requests[id], i)
    case Fail(id) => id in s.requests
    case Look(id) => id in s.requests && s.requests[id].building.None? && AllIn(|s.requests[id].snapshot.namespaces|, s.requests[id].replies)
    case Build(id) => id in s.requests && s.requests[id].building.Some?
  }

  /** The namespaces the replies allow, in order. */
  function Seen(nss: seq<string>, replies: map<int, Reply>): (out: seq<string>)
    requires forall i | 0 <= i < |nss| :: i in replies
    ensures forall ns | ns in out :: ns in nss
  {
    Allowed(nss, Said(replies, |nss|))
  }

  /** What the replies say of each namespace, by its place. */
  function Said(replies: map<int, Reply>, n: nat): (bs: seq<bool>)
    requires forall i | 0 <= i < n :: i in replies
    ensures |bs| == n && forall i | 0 <= i < n :: bs[i] == replies[i].allowed
  {
    seq(n, i requires 0 <= i < n => replies[i].allowed)
  }

  function Hear(s: System, id: nat, i: int, reply: Reply): System
    requires id in s.requests
  {
    s.(requests := s.requests[id := s.requests[id].(replies := s.requests[id].replies[i := reply])])
  }

  function Return(s: System, id: nat, view: Query): System
    requires id in s.requests
  {
    var r := s.requests[id];
    s.(requests := s.requests - {id}, returned := s.returned + [Returned(r.person, r.snapshot, r.replies, view)])
  }

  ghost function Step(ttl: int, snapshots: map<string, Snapshot>, s: System, e: Event): System
    requires Enabled(snapshots, s, e)
  {
    match e
    case Begin(id, p, q) => s.(requests := s.requests[id := Request(p, q, map[], None)])
    case FromCache(id, i, now) => Hear(s, id, i, Reply(CachedAnswer(s.caches, Key(s.requests[id], i), now).value, now))
    case FromReview(id, i, now, allowed) =>
      var r := s.requests[id];
      Hear(s, id, i, Reply(allowed, now))
      .(caches := WithAnswer(s.caches, Key(r, i), Verdict(allowed, now + ttl)),
        reviews := s.reviews + {Review(r.person, NsAt(r.snapshot, i), allowed, now)})
    case Fail(id) => s.(requests := s.requests - {id})
    case Look(id) =>
      var r := s.requests[id];
      if r.replies[-1].allowed then Return(s, id, Whole(r.snapshot.id))
      else
        var visible := Seen(r.snapshot.namespaces, r.replies);
        var cached := CachedView(s.caches, Join(visible), r.snapshot.id);
        if cached.Some? then Return(s, id, cached.value)
        else s.(requests := s.requests[id := r.(building := Some(visible))])
    case Build(id) =>
      var r := s.requests[id];
      var visible := r.building.value;
      Return(s, id, RestrictTo(r.snapshot, visible))
      .(caches := WithView(s.caches, Join(visible), r.snapshot.id, RestrictTo(r.snapshot, visible)),
        builtFor := s.builtFor[Join(visible) := visible])
  }

  ghost predicate Run(ttl: int, snapshots: map<string, Snapshot>, s: System, es: seq<Event>, s': System)
    decreases |es|
  {
    if es == [] then s' == s
    else Enabled(snapshots, s, es[0]) && Run(ttl, snapshots, Step(ttl, snapshots, s, es[0]), es[1..], s')
  }

  // ---- what every step keeps ---------------------------------------------------------------------

  /** One user in the same groups; no groups and only the empty one are not told apart. */
  predicate SamePerson(p: Person, q: Person) {
    p.user == q.user && (multiset(p.groups) == multiset(q.groups) || (Blank(p.groups) && Blank(q.groups)))
  }

  predicate Lasts(ttl: int, at: int, now: int) {
    at == now || now < at + ttl
  }

  /** The apiserver said so, of that person and that namespace, and not too long ago. */
  ghost predicate Backed(ttl: int, reviews: set<Review>, p: Person, ns: string, reply: Reply) {
    exists r :: r in reviews && SamePerson(r.person, p) && r.ns == ns && r.allowed == reply.allowed && Lasts(ttl, r.at, reply.now)
  }

  ghost predicate RepliesBacked(ttl: int, reviews: set<Review>, p: Person, q: Snapshot, replies: map<int, Reply>) {
    forall i | i in replies :: -1 <= i < |q.namespaces| && Backed(ttl, reviews, p, NsAt(q, i), replies[i])
  }

  /** The view these replies entitle to. */
  predicate Entitled(q: Snapshot, replies: map<int, Reply>, view: Query) {
    && AllIn(|q.namespaces|, replies)
    && view == if replies[-1].allowed then Whole(q.id) else RestrictTo(q, Seen(q.namespaces, replies))
  }

  ghost predicate RequestOk(ttl: int, snapshots: map<string, Snapshot>, reviews: set<Review>, r: Request) {
    && PlainPerson(r.person) && Published(snapshots, r.snapshot)
    && RepliesBacked(ttl, reviews, r.person, r.snapshot, r.replies)
    && (r.building.Some? ==> && AllIn(|r.snapshot.namespaces|, r.replies) && !r.replies[-1].allowed
                             && r.building.value == Seen(r.snapshot.namespaces, r.replies))
  }

  ghost predicate ReturnedOk(ttl: int, reviews: set<Review>, x: Returned) {
    Ascending(x.snapshot.namespaces) && RepliesBacked(ttl, reviews, x.person, x.snapshot, x.replies) && Entitled(x.snapshot, x.replies, x.view)
  }

  /** A kept view is the restriction of the snapshot `viewsOf` to the list its key stands for. */
  ghost predicate ViewOk(snapshots: map<string, Snapshot>, c: Caches, builtFor: map<string, seq<string>>, k: string)
    requires k in c.views
  {
    && c.viewsOf in snapshots && k in builtFor && AllFree(builtFor[k]) && Join(builtFor[k]) == k
    && c.views[k] == RestrictTo(snapshots[c.viewsOf], builtFor[k])
  }

  /** A kept answer is some person's review. */
  ghost predicate AnswerOk(ttl: int, c: Caches, reviews: set<Review>, k: string)
    requires k in c.answers
  {
    exists r :: && r in reviews && PlainPerson(r.person) && Free(r.ns, ONE) && AnswerKey(WhoKey(r.person), r.ns) == k
                && c.answers[k] == Verdict(r.allowed, r.at + ttl)
  }

  ghost predicate CachesOk(ttl: int, snapshots: map<string, Snapshot>, s: System) {
    && (forall k {:trigger ViewOk(snapshots, s.caches, s.builtFor, k)} | k in s.caches.views :: ViewOk(snapshots, s.caches, s.builtFor, k))
    && (forall k {:trigger AnswerOk(ttl, s.caches, s.reviews, k)} | k in s.caches.answers :: AnswerOk(ttl, s.caches, s.reviews, k))
  }

  ghost predicate Inv(ttl: int, snapshots: map<string, Snapshot>, s: System) {
    && CachesOk(ttl, snapshots, s)
    && (forall id {:trigger RequestOk(ttl, snapshots, s.reviews, s.requests[id])} | id in s.requests ::
          RequestOk(ttl, snapshots, s.reviews, s.requests[id]))
    && (forall i {:trigger ReturnedOk(ttl, s.reviews, s.returned[i])} | 0 <= i < |s.returned| :: ReturnedOk(ttl, s.reviews, s.returned[i]))
  }

  /** A cached answer is what the apiserver said of this very person. */
  lemma {:induction false} CachedIsBacked(ttl: int, snapshots: map<string, Snapshot>, s: System, p: Person, ns: string, now: int)
    requires CachesOk(ttl, snapshots, s) && PlainPerson(p) && Free(ns, ONE)
    requires CachedAnswer(s.caches, AnswerKey(WhoKey(p), ns), now).Some?
    ensures Backed(ttl, s.reviews, p, ns, Reply(CachedAnswer(s.caches, AnswerKey(WhoKey(p), ns), now).value, now))
  {
    var k := AnswerKey(WhoKey(p), ns);
    assert AnswerOk(ttl, s.caches, s.reviews, k);
    var r :| && r in s.reviews && PlainPerson(r.person) && Free(r.ns, ONE) && AnswerKey(WhoKey(r.person), r.ns) == k
             && s.caches.answers[k] == Verdict(r.allowed, r.at + ttl);
    AnswerKeyInjective(WhoKey(p), ns, WhoKey(r.person), r.ns);
    WhoKeyNamesThePerson(r.person, p);
  }

  lemma {:induction false} MoreReviews(ttl: int, reviews: set<Review>, reviews': set<Review>, p: Person, q: Snapshot, replies: map<int, Reply>)
    requires reviews <= reviews' && RepliesBacked(ttl, reviews, p, q, replies)
    ensures RepliesBacked(ttl, reviews', p, q, replies)
  {
    forall i | i in replies ensures Backed(ttl, reviews', p, NsAt(q, i), replies[i]) {
      assert Backed(ttl, reviews, p, NsAt(q, i), replies[i]);
    }
  }

  /** What others know stays so when reviews are added. */
  lemma {:induction false} KeepsOthers(ttl: int, snapshots: map<string, Snapshot>, s: System, s': System)
    requires Inv(ttl, snapshots, s) && s.reviews <= s'.reviews
    ensures forall id | id in s.requests :: RequestOk(ttl, snapshots, s'.reviews, s.requests[id])
    ensures forall i | 0 <= i < |s.returned| :: ReturnedOk(ttl, s'.reviews, s.returned[i])
  {
    forall id | id in s.requests ensures RequestOk(ttl, snapshots, s'.reviews, s.requests[id]) {
      var r := s.requests[id];
      assert RequestOk(ttl, snapshots, s.reviews, r);
      MoreReviews(ttl, s.reviews, s'.reviews, r.person, r.snapshot, r.replies);
    }
    forall i | 0 <= i < |s.returned| ensures ReturnedOk(ttl, s'.reviews, s.returned[i]) {
      var x := s.returned[i];
      assert ReturnedOk(ttl, s.reviews, x);
      MoreReviews(ttl, s.reviews, s'.reviews, x.person, x.snapshot, x.replies);
    }
  }

  /** Hearing one more reply, backed by a review. */
  lemma {:induction false} HearOk(ttl: int, snapshots: map<string, Snapshot>, reviews: set<Review>, r: Request, i: int, reply: Reply)
    requires RequestOk(ttl, snapshots, reviews, r) && Asks(r, i) && Backed(ttl, reviews, r.person, NsAt(r.snapshot, i), reply)
    ensures RequestOk(ttl, snapshots, reviews, r.(replies := r.replies[i := reply]))
  {
  }

  lemma {:induction false} AnswerKept(ttl: int, snapshots: map<string, Snapshot>, s: System, r: Request, i: int, now: int, allowed: bool)
    requires CachesOk(ttl, snapshots, s) && RequestOk(ttl, snapshots, s.reviews, r) && Asks(r, i)
    ensures var c' := WithAnswer(s.caches, Key(r, i), Verdict(allowed, now + ttl));
            var reviews' := s.reviews + {Review(r.person, NsAt(r.snapshot, i), allowed, now)};
            && (forall k | k in c'.answers :: AnswerOk(ttl, c', reviews', k))
            && c'.views == s.caches.views && c'.viewsOf == s.caches.viewsOf
  {
    var c' := WithAnswer(s.caches, Key(r, i), Verdict(allowed, now + ttl));
    var mine := Review(r.person, NsAt(r.snapshot, i), allowed, now);
    var reviews' := s.reviews + {mine};
    forall k | k in c'.answers ensures AnswerOk(ttl, c', reviews', k) {
      if k == Key(r, i) {
        assert mine in reviews' && Free(mine.ns, ONE);
      } else {
        assert k in s.caches.answers && AnswerOk(ttl, s.caches, s.reviews, k);
      }
    }
  }

  lemma {:induction false} ReviewInv(ttl: int, snapshots: map<string, Snapshot>, s: System, e: Event)
    requires Inv(ttl, snapshots, s) && Enabled(snapshots, s, e) && e.FromReview?
    ensures Inv(ttl, snapshots, Step(ttl, snapshots, s, e))
  {
    var r := s.requests[e.id];
    var s' := Step(ttl, snapshots, s, e);
    assert RequestOk(ttl, snapshots, s.reviews, r);
    AnswerKept(ttl, snapshots, s, r, e.i, e.now, e.allowed);
    KeepsOthers(ttl, snapshots, s, s');
    assert RequestOk(ttl, snapshots, s'.reviews, r);
    assert Review(r.person, NsAt(r.snapshot, e.i), e.allowed, e.now) in s'.reviews;
    HearOk(ttl, snapshots, s'.reviews, r, e.i, Reply(e.allowed, e.now));
    forall k | k in s'.caches.views ensures ViewOk(snapshots, s'.caches, s'.builtFor, k) {
      assert ViewOk(snapshots, s.caches, s.builtFor, k);
    }
    forall id | id in s'.requests ensures RequestOk(ttl, snapshots, s'.reviews, s'.requests[id]) {
      assert id != e.id ==> s'.requests[id] == s.requests[id];
    }
  }

  /** Only requests changed, each still in order. */
  lemma {:induction false} RequestsInv(ttl: int, snapshots: map<string, Snapshot>, s: System, s': System)
    requires Inv(ttl, snapshots, s) && s' == s.(requests := s'.requests)
    requires forall id | id in s'.requests :: RequestOk(ttl, snapshots, s.reviews, s'.requests[id])
    ensures Inv(ttl, snapshots, s')
  {
    forall k | k in s'.caches.views ensures ViewOk(snapshots, s'.caches, s'.builtFor, k) {
      assert ViewOk(snapshots, s.caches, s.builtFor, k);
    }
    forall k | k in s'.caches.answers ensures AnswerOk(ttl, s'.caches, s'.reviews, k) {
      assert AnswerOk(ttl, s.caches, s.reviews, k);
    }
    forall i | 0 <= i < |s'.returned| ensures ReturnedOk(ttl, s'.reviews, s'.returned[i]) {
      assert ReturnedOk(ttl, s.reviews, s.returned[i]);
    }
  }

  lemma {:induction false} OneRequestInv(ttl: int, snapshots: map<string, Snapshot>, s: System, id: nat, r: Request)
    requires Inv(ttl, snapshots, s) && RequestOk(ttl, snapshots, s.reviews, r)
    ensures Inv(ttl, snapshots, s.(requests := s.requests[id := r]))
  {
    var s' := s.(requests := s.requests[id := r]);
    forall x | x in s'.requests ensures RequestOk(ttl, snapshots, s.reviews, s'.requests[x]) {
      assert x != id ==> RequestOk(ttl, snapshots, s.reviews, s.requests[x]);
    }
    RequestsInv(ttl, snapshots, s, s');
  }

  lemma {:induction false} GoneInv(ttl: int, snapshots: map<string, Snapshot>, s: System, id: nat)
    requires Inv(ttl, snapshots, s)
    ensures Inv(ttl, snapshots, s.(requests := s.requests - {id}))
  {
    var s' := s.(requests := s.requests - {id});
    forall x | x in s'.requests ensures RequestOk(ttl, snapshots, s.reviews, s'.requests[x]) {
      assert RequestOk(ttl, snapshots, s.reviews, s.requests[x]);
    }
    RequestsInv(ttl, snapshots, s, s');
  }

  lemma {:induction false} ReturnInv(ttl: int, snapshots: map<string, Snapshot>, s: System, id: nat, view: Query)
    requires Inv(ttl, snapshots, s) && id in s.requests && Entitled(s.requests[id].snapshot, s.requests[id].replies, view)
    ensures Inv(ttl, snapshots, Return(s, id, view))
  {
    var r := s.requests[id];
    assert RequestOk(ttl, snapshots, s.reviews, r);
    GoneInv(ttl, snapshots, s, id);
    var s1 := s.(requests := s.requests - {id});
    var s' := Return(s, id, view);
    forall i | 0 <= i < |s'.returned| ensures ReturnedOk(ttl, s'.reviews, s'.returned[i]) {
      assert i < |s.returned| ==> ReturnedOk(ttl, s1.reviews, s1.returned[i]);
    }
    forall x | x in s'.requests ensures RequestOk(ttl, snapshots, s'.reviews, s'.requests[x]) {
      assert RequestOk(ttl, snapshots, s1.reviews, s1.requests[x]);
    }
    forall k | k in s'.caches.views ensures ViewOk(snapshots, s'.caches, s'.builtFor, k) {
      assert ViewOk(snapshots, s1.caches, s1.builtFor, k);
    }
    forall k | k in s'.caches.answers ensures AnswerOk(ttl, s'.caches, s'.reviews, k) {
      assert AnswerOk(ttl, s1.caches, s1.reviews, k);
    }
  }

  /** A view found for a snapshot and a list is that snapshot restricted to that list, whoever built it. */
  lemma {:induction false} CachedIsRestriction(ttl: int, snapshots: map<string, Snapshot>, s: System, q: Snapshot, visible: seq<string>)
    requires CachesOk(ttl, snapshots, s) && Published(snapshots, q) && AllFree(visible) && CachedView(s.caches, Join(visible), q.id).Some?
    ensures CachedView(s.caches, Join(visible), q.id) == Some(RestrictTo(q, visible))
  {
    assert ViewOk(snapshots, s.caches, s.builtFor, Join(visible));
    SameKeySameView(q, s.builtFor[Join(visible)], visible);
  }

  lemma {:induction false} LookInv(ttl: int, snapshots: map<string, Snapshot>, s: System, e: Event)
    requires Inv(ttl, snapshots, s) && Enabled(snapshots, s, e) && e.Look?
    ensures Inv(ttl, snapshots, Step(ttl, snapshots, s, e))
  {
    var r := s.requests[e.id];
    assert RequestOk(ttl, snapshots, s.reviews, r);
    if r.replies[-1].allowed {
      ReturnInv(ttl, snapshots, s, e.id, Whole(r.snapshot.id));
    } else {
      var visible := Seen(r.snapshot.namespaces, r.replies);
      if CachedView(s.caches, Join(visible), r.snapshot.id).Some? {
        CachedIsRestriction(ttl, snapshots, s, r.snapshot, visible);
        ReturnInv(ttl, snapshots, s, e.id, RestrictTo(r.snapshot, visible));
      } else {
        OneRequestInv(ttl, snapshots, s, e.id, r.(building := Some(visible)));
      }
    }
  }

  lemma {:induction false} ViewKept(ttl: int, snapshots: map<string, Snapshot>, s: System, q: Snapshot, visible: seq<string>)
    requires CachesOk(ttl, snapshots, s) && Published(snapshots, q) && AllFree(visible)
    ensures var c' := WithView(s.caches, Join(visible), q.id, RestrictTo(q, visible));
            var builtFor' := s.builtFor[Join(visible) := visible];
            (forall k | k in c'.views :: ViewOk(snapshots, c', builtFor', k)) && c'.answers == s.caches.answers
  {
    var c' := WithView(s.caches, Join(visible), q.id, RestrictTo(q, visible));
    var builtFor' := s.builtFor[Join(visible) := visible];
    forall k | k in c'.views ensures ViewOk(snapshots, c', builtFor', k) {
      if k != Join(visible) {
        assert k in s.caches.views && ViewOk(snapshots, s.caches, s.builtFor, k);
      }
    }
  }

  lemma {:induction false} BuildInv(ttl: int, snapshots: map<string, Snapshot>, s: System, e: Event)
    requires Inv(ttl, snapshots, s) && Enabled(snapshots, s, e) && e.Build?
    ensures Inv(ttl, snapshots, Step(ttl, snapshots, s, e))
  {
    var r := s.requests[e.id];
    assert RequestOk(ttl, snapshots, s.reviews, r);
    var visible := r.building.value;
    var s1 := Return(s, e.id, RestrictTo(r.snapshot, visible));
    ReturnInv(ttl, snapshots, s, e.id, RestrictTo(r.snapshot, visible));
    ViewKept(ttl, snapshots, s1, r.snapshot, visible);
    KeptInv(ttl, snapshots, s1, Step(ttl, snapshots, s, e));
  }

  /** Only views changed, each still in order. */
  lemma {:induction false} KeptInv(ttl: int, snapshots: map<string, Snapshot>, s: System, s': System)
    requires Inv(ttl, snapshots, s) && s' == s.(caches := s'.caches, builtFor := s'.builtFor) && s'.caches.answers == s.caches.answers
    requires forall k | k in s'.caches.views :: ViewOk(snapshots, s'.caches, s'.builtFor, k)
    ensures Inv(ttl, snapshots, s')
  {
    forall k | k in s'.caches.answers ensures AnswerOk(ttl, s'.caches, s'.reviews, k) {
      assert AnswerOk(ttl, s.caches, s.reviews, k);
    }
    forall x | x in s'.requests ensures RequestOk(ttl, snapshots, s'.reviews, s'.requests[x]) {
      assert RequestOk(ttl, snapshots, s.reviews, s.requests[x]);
    }
    forall i | 0 <= i < |s'.returned| ensures ReturnedOk(ttl, s'.reviews, s'.returned[i]) {
      assert ReturnedOk(ttl, s.reviews, s.returned[i]);
    }
  }

  lemma {:induction false} CacheInv(ttl: int, snapshots: map<string, Snapshot>, s: System, e: Event)
    requires Inv(ttl, snapshots, s) && Enabled(snapshots, s, e) && e.FromCache?
    ensures Inv(ttl, snapshots, Step(ttl, snapshots, s, e))
  {
    var r := s.requests[e.id];
    assert RequestOk(ttl, snapshots, s.reviews, r);
    var ns := NsAt(r.snapshot, e.i);
    assert Free(ns, ONE);
    CachedIsBacked(ttl, snapshots, s, r.person, ns, e.now);
    var reply := Reply(CachedAnswer(s.caches, Key(r, e.i), e.now).value, e.now);
    HearOk(ttl, snapshots, s.reviews, r, e.i, reply);
    OneRequestInv(ttl, snapshots, s, e.id, r.(replies := r.replies[e.i := reply]));
  }

  lemma {:induction false} StepInv(ttl: int, snapshots: map<string, Snapshot>, s: System, e: Event)
    requires Inv(ttl, snapshots, s) && Enabled(snapshots, s, e)
    ensures Inv(ttl, snapshots, Step(ttl, snapshots, s, e))
  {
    match e
    case Begin(id, p, q) => OneRequestInv(ttl, snapshots, s, id, Request(p, q, map[], None));
    case FromCache(_, _, _) => CacheInv(ttl, snapshots, s, e);
    case FromReview(_, _, _, _) => ReviewInv(ttl, snapshots, s, e);
    case Fail(id) => GoneInv(ttl, snapshots, s, id);
    case Look(_) => LookInv(ttl, snapshots, s, e);
    case Build(_) => BuildInv(ttl, snapshots, s, e);
  }

  lemma {:induction false} RunInv(ttl: int, snapshots: map<string, Snapshot>, s: System, es: seq<Event>, s': System)
    requires Inv(ttl, snapshots, s) && Run(ttl, snapshots, s, es, s')
    ensures Inv(ttl, snapshots, s')
    decreases |es|
  {
    if es != [] {
      StepInv(ttl, snapshots, s, es[0]);
      RunInv(ttl, snapshots, Step(ttl, snapshots, s, es[0]), es[1..], s');
    }
  }

  // ---- the promises ---------------------------------------------------------------------------------

  /**
   Whoever asks in between and whatever the caches hold, a query returns the whole snapshot if the
   apiserver said this person reads every namespace, and otherwise exactly the snapshot restricted to
   the namespaces it said this person may read, each said less than ttl before it was heard.
   */
  lemma {:induction false} QueryIsOwnView(ttl: int, snapshots: map<string, Snapshot>, es: seq<Event>, s: System, i: nat)
    requires Run(ttl, snapshots, START, es, s) && i < |s.returned|
    ensures var x := s.returned[i];
            && RepliesBacked(ttl, s.reviews, x.person, x.snapshot, x.replies) && AllIn(|x.snapshot.namespaces|, x.replies)
            && if x.replies[-1].allowed then x.view == Whole(x.snapshot.id)
               else ShowsAllowed(x.snapshot, Said(x.replies, |x.snapshot.namespaces|), x.view)
  {
    RunInv(ttl, snapshots, START, es, s);
    var x := s.returned[i];
    assert ReturnedOk(ttl, s.reviews, x);
    if !x.replies[-1].allowed {
      RestrictShowsAllowed(x.snapshot, Said(x.replies, |x.snapshot.namespaces|));
    }
  }

  /** Whoever filled the cache and in whatever order, a view found for a snapshot and a list is that snapshot restricted to that list. */
  lemma {:induction false} SharedViewIsOwnView(ttl: int, snapshots: map<string, Snapshot>, es: seq<Event>, s: System,
                                               q: Snapshot, visible: seq<string>)
    requires Run(ttl, snapshots, START, es, s) && Published(snapshots, q) && AllFree(visible)
    requires CachedView(s.caches, Join(visible), q.id).Some?
    ensures CachedView(s.caches, Join(visible), q.id) == Some(RestrictTo(q, visible))
  {
    RunInv(ttl, snapshots, START, es, s);
    CachedIsRestriction(ttl, snapshots, s, q, visible);
  }

  /** A kept answer is the apiserver's, of the same person and namespace, less than ttl ago. */
  lemma {:induction false} AnswerIsRecentReview(ttl: int, snapshots: map<string, Snapshot>, es: seq<Event>, s: System,
                                                p: Person, ns: string, now: int)
    requires Run(ttl, snapshots, START, es, s) && PlainPerson(p) && Free(ns, ONE)
    requires CachedAnswer(s.caches, AnswerKey(WhoKey(p), ns), now).Some?
    ensures Backed(ttl, s.reviews, p, ns, Reply(CachedAnswer(s.caches, AnswerKey(WhoKey(p), ns), now).value, now))
  {
    RunInv(ttl, snapshots, START, es, s);
    CachedIsBacked(ttl, snapshots, s, p, ns, now);
  }
}
