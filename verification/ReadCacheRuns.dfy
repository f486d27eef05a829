/**
 Every interleaving of reads and writes through the read cache: requests begin, the apiserver
 answers or fails, writes pass through the cache first and land at the apiserver later.
 */
module ReadCacheRuns {
  import opened Basics
  import opened Text
  import opened ReadCache

  /**
   A read on its way: `seen` is the apiserver's version when it began, `quiet` says that no write
   of the same credentials was on its way then, and `overtaken` that one went out since at the
   very clock reading the read began with.
   */
  datatype Fetch = Fetch(w: string, url: string, started: int, seen: nat, quiet: bool, overtaken: bool)

  /** What a read brought back: the apiserver's state at `version`. */
  datatype Answer = Answer(fetch: Fetch, version: nat, status: int, body: string)

  /**
   The cache and its surroundings. `origin` is the answer behind each stored entry, `written` the
   full history of writes through the cache, `own` the version each credentials' last landed write
   produced, and `pending` counts the writes sent and not landed.
   */
  datatype System = System(now: int, cache: Cache, flying: map<nat, Fetch>, origin: map<string, Answer>,
                           written: map<string, int>, version: nat, own: map<string, nat>, pending: map<string, nat>)

  const IDLE := System(0, EMPTY, map[], map[], map[], 0, map[], map[])

  datatype Event =
    | Begin(id: nat, w: string, url: string, t: int)
    | Fail(id: nat)
    | End(id: nat, version: nat, status: int, body: string)
    | Write(w: string, t: int)
    | Land(w: string)

  function Pending(s: System, w: string): nat {
    if w in s.pending then s.pending[w] else 0
  }

  function Own(s: System, w: string): nat {
    if w in s.own then s.own[w] else 0
  }

  /** A URL never holds a raw NUL, the clock never goes back, and an answer is no older than its request. */
  predicate Enabled(s: System, e: Event) {
    match e
    case Begin(id, w, url, t) => id !in s.flying && Free(url, NUL) && t >= s.now
    case Fail(id) => id in s.flying
    case End(id, version, _, _) => id in s.flying && s.flying[id].seen <= version <= s.version
    case Write(_, t) => t >= s.now
    case Land(w) => Pending(s, w) > 0
  }

  function Kept<T>(m: map<string, T>, keys: set<string>): map<string, T> {
    map k | k in m && k in keys :: m[k]
  }

  predicate Cacheable(l: Limits, status: int, body: string) {
    (status == OK || status == FORBIDDEN) && |body| <= l.maxRead
  }

  /** A write at the clock reading `t` meets a read on its way. */
  function Meets(f: Fetch, w: string, t: int): Fetch {
    if f.w == w && f.started == t then f.(overtaken := true) else f
  }

  ghost function Step(l: Limits, s: System, e: Event): System
    requires Enabled(s, e)
  {
    match e
    case Begin(id, w, url, t) =>
      s.(now := t, flying := s.flying[id := Fetch(w, url, t, s.version, Pending(s, w) == 0, false)])
    case Fail(id) => s.(flying := s.flying - {id})
    case End(id, version, status, body) =>
      var f := s.flying[id];
      var s' := s.(flying := s.flying - {id});
      if !Cacheable(l, status, body) then s' else Store(l, s', Answer(f, version, status, body))
    case Write(w, t) =>
      var c := WithWrite(l, s.cache, w, t);
      s.(now := t, cache := c, origin := Kept(s.origin, c.entries.Keys), written := s.written[w := t],
         pending := s.pending[w := Pending(s, w) + 1], flying := map i | i in s.flying :: Meets(s.flying[i], w, t))
    case Land(w) =>
      s.(version := s.version + 1, own := s.own[w := s.version + 1], pending := s.pending[w := Pending(s, w) - 1])
  }

  function Store(l: Limits, s: System, a: Answer): System {
    var key := CacheKey(a.fetch.w, a.fetch.url);
    var c := WithRead(l, s.cache, key, Read(a.fetch.started, a.fetch.w, a.status, a.body));
    if a.fetch.started < s.cache.last then s
    else s.(cache := c, origin := Kept(s.origin, c.entries.Keys)[key := a])
  }

  ghost predicate Run(l: Limits, s: System, es: seq<Event>, s': System)
    decreases |es|
  {
    if es == [] then s' == s
    else Enabled(s, es[0]) && Run(l, Step(l, s, es[0]), es[1..], s')
  }

  // ---- what every step keeps --------------------------------------------------------------

  /** The entry under `k` is the answer to a request for the URL and the credentials in `k`. */
  predicate Traced(c: Cache, origin: map<string, Answer>, k: string) {
    && k in c.entries && k in origin
    && var a, e := origin[k], c.entries[k];
       && k == CacheKey(a.fetch.w, a.fetch.url) && Free(a.fetch.url, NUL)
       && e == Read(a.fetch.started, a.fetch.w, a.status, a.body)
  }

  ghost predicate AllTraced(c: Cache, origin: map<string, Answer>) {
    forall k | k in c.entries :: Traced(c, origin, k)
  }

  /** Every stored answer was asked for no earlier than its credentials' latest write. */
  ghost predicate AfterWrites(c: Cache, written: map<string, int>) {
    forall k | k in c.entries && c.entries[k].who in written :: c.entries[k].at >= written[c.entries[k].who]
  }

  ghost predicate Clocked(s: System) {
    && s.cache.last <= s.now
    && (forall w | w in s.written :: s.written[w] <= s.cache.last)
    && (forall id | id in s.flying :: s.flying[id].started <= s.now && Free(s.flying[id].url, NUL))
  }

  /** `writers` is the write history without the writes that no longer matter. */
  ghost predicate Pruned(l: Limits, c: Cache, written: map<string, int>) {
    && (forall w | w in c.writers :: w in written && c.writers[w] == written[w])
    && (forall w | w in written && w !in c.writers :: c.last - written[w] >= l.ttl)
  }

  ghost predicate Sized(l: Limits, c: Cache) {
    c.size == Total(c.entries) && c.size <= l.maxBytes
  }

  ghost predicate Inv(l: Limits, s: System) {
    && Clocked(s)
    && AllTraced(s.cache, s.origin)
    && AfterWrites(s.cache, s.written)
    && Pruned(l, s.cache, s.written)
    && Sized(l, s.cache)
  }

  lemma {:induction false} StoreSized(l: Limits, c: Cache, key: string, e: Read)
    requires l.maxRead <= l.maxBytes && Sized(l, c) && |e.body| <= l.maxRead
    ensures Sized(l, WithRead(l, c, key, e))
  {
    if e.at >= c.last {
      if c.size + |e.body| > l.maxBytes {
        TotalWith(map[], key, e);
      } else {
        TotalWith(c.entries, key, e);
      }
    }
  }

  lemma {:induction false} StoreTraced(l: Limits, s: System, a: Answer)
    requires AllTraced(s.cache, s.origin) && Free(a.fetch.url, NUL)
    ensures var s' := Store(l, s, a); AllTraced(s'.cache, s'.origin)
  {
  }

  lemma {:induction false} StorePruned(l: Limits, s: System, a: Answer)
    requires Pruned(l, s.cache, s.written)
    ensures var s' := Store(l, s, a); Pruned(l, s'.cache, s'.written)
  {
  }

  lemma {:induction false} StoreInv(l: Limits, s: System, a: Answer)
    requires l.maxRead <= l.maxBytes && Inv(l, s)
    requires a.fetch.started <= s.now && Free(a.fetch.url, NUL) && |a.body| <= l.maxRead
    ensures Inv(l, Store(l, s, a))
  {
    var key := CacheKey(a.fetch.w, a.fetch.url);
    StoreSized(l, s.cache, key, Read(a.fetch.started, a.fetch.w, a.status, a.body));
    StoreTraced(l, s, a);
    StorePruned(l, s, a);
  }

  lemma {:induction false} WriteSized(l: Limits, c: Cache, w: string, t: int)
    requires Sized(l, c)
    ensures Sized(l, WithWrite(l, c, w, t))
  {
    TotalShrinks(c.entries, ReadsOf(c.entries, w));
  }

  lemma {:induction false} WriteInv(l: Limits, s: System, w: string, t: int)
    requires Inv(l, s) && t >= s.now
    ensures Inv(l, Step(l, s, Write(w, t)))
  {
    WriteSized(l, s.cache, w, t);
    var s' := Step(l, s, Write(w, t));
    assert forall k | k in s'.cache.entries :: k in s.cache.entries && s.cache.entries[k].who != w;
    assert AllTraced(s'.cache, s'.origin) by {
      forall k | k in s'.cache.entries
        ensures Traced(s'.cache, s'.origin, k)
      {
        assert Traced(s.cache, s.origin, k);
      }
    }
  }

  lemma {:induction false} StepInv(l: Limits, s: System, e: Event)
    requires l.maxRead <= l.maxBytes && Inv(l, s) && Enabled(s, e)
    ensures Inv(l, Step(l, s, e))
  {
    match e
    case Begin(_, _, _, _) =>
    case Fail(_) =>
    case Land(_) =>
    case Write(w, t) => WriteInv(l, s, w, t);
    case End(id, version, status, body) =>
      var s' := s.(flying := s.flying - {id});
      assert Inv(l, s');
      if Cacheable(l, status, body) {
        StoreInv(l, s', Answer(s.flying[id], version, status, body));
      }
  }

  lemma {:induction false} RunInv(l: Limits, s: System, es: seq<Event>, s': System)
    requires l.maxRead <= l.maxBytes && Inv(l, s) && Run(l, s, es, s')
    ensures Inv(l, s')
    decreases |es|
  {
    if es != [] {
      StepInv(l, s, es[0]);
      RunInv(l, Step(l, s, es[0]), es[1..], s');
    }
  }

  lemma {:induction false} IdleInv(l: Limits)
    ensures Inv(l, IDLE)
  {
  }

  // ---- what every run promises -----------------------------------------------------------------

  /**
   An answer served from the cache is the apiserver's answer to the same URL and the same
   credentials, asked for less than ttl ago and no earlier than their latest write.
   */
  lemma {:induction false} ServesOwnRecentReads(l: Limits, es: seq<Event>, s: System, w: string, url: string, t: int)
    requires l.maxRead <= l.maxBytes && Run(l, IDLE, es, s)
    requires Free(url, NUL) && t >= s.now
    requires FreshRead(l, s.cache, CacheKey(w, url), t).Some?
    ensures var e := FreshRead(l, s.cache, CacheKey(w, url), t).value;
            && CacheKey(w, url) in s.origin
            && var a := s.origin[CacheKey(w, url)];
               && a.fetch.w == w && a.fetch.url == url
               && a.status == e.status && a.body == e.body
               && t - a.fetch.started < l.ttl
               && (w in s.written ==> a.fetch.started >= s.written[w])
  {
    IdleInv(l);
    RunInv(l, IDLE, es, s);
    assert Traced(s.cache, s.origin, CacheKey(w, url));
    var a := s.origin[CacheKey(w, url)];
    CacheKeyInjective(w, url, a.fetch.w, a.fetch.url);
  }

  lemma {:induction false} SizeIsBounded(l: Limits, es: seq<Event>, s: System)
    requires l.maxRead <= l.maxBytes && Run(l, IDLE, es, s)
    ensures s.cache.size == Total(s.cache.entries) <= l.maxBytes
  {
    IdleInv(l);
    RunInv(l, IDLE, es, s);
  }

  /** Forgetting old writers is invisible: the answer is the one the full history gives. */
  lemma {:induction false} PruningIsInvisible(l: Limits, es: seq<Event>, s: System, w: string, t: int)
    requires l.maxRead <= l.maxBytes && Run(l, IDLE, es, s) && t >= s.now
    ensures WroteRecently(l, s.cache, w, t) <==> w in s.written && t - s.written[w] < l.ttl
  {
    IdleInv(l);
    RunInv(l, IDLE, es, s);
  }

  // ---- seeing one's own change ----------------------------------------------------------------

  predicate Clear(f: Fetch) {
    f.quiet && !f.overtaken
  }

  /** A clear read shows every own write or is too old to be kept; any other has one it may have missed. */
  predicate FetchShows(s: System, f: Fetch) {
    && f.seen <= s.version
    && if Clear(f) then (f.w in s.written && s.written[f.w] > f.started) || (Pending(s, f.w) == 0 && f.seen >= Own(s, f.w))
       else Pending(s, f.w) > 0 || Own(s, f.w) > f.seen
  }

  predicate AnswerShows(s: System, a: Answer) {
    Clear(a.fetch) ==> Pending(s, a.fetch.w) == 0 && a.version >= Own(s, a.fetch.w)
  }

  ghost predicate Shows(s: System) {
    && (forall w | w in s.own :: s.own[w] <= s.version)
    && (forall id | id in s.flying :: FetchShows(s, s.flying[id]))
    && (forall k | k in s.cache.entries && k in s.origin :: AnswerShows(s, s.origin[k]))
  }

  lemma {:induction false} StoreShows(l: Limits, s: System, a: Answer)
    requires Inv(l, s) && Shows(s)
    requires FetchShows(s, a.fetch) && a.version >= a.fetch.seen
    ensures Shows(Store(l, s, a))
  {
    var s' := Store(l, s, a);
    if a.fetch.started >= s.cache.last {
      var key := CacheKey(a.fetch.w, a.fetch.url);
      assert s' == s.(cache := s'.cache, origin := s'.origin);
      forall k | k in s'.cache.entries && k in s'.origin
        ensures AnswerShows(s', s'.origin[k])
      {
        if k == key {
          assert s'.origin[k] == a && FetchShows(s, a.fetch);
        } else {
          assert s'.origin[k] == s.origin[k] && AnswerShows(s, s.origin[k]);
        }
      }
      forall i | i in s'.flying ensures FetchShows(s', s'.flying[i]) {
        assert FetchShows(s, s.flying[i]);
      }
    }
  }

  lemma {:induction false} LeaveShows(l: Limits, s: System, id: nat)
    requires Inv(l, s) && Shows(s)
    ensures var s' := s.(flying := s.flying - {id});
            Inv(l, s') && Shows(s') && (id in s.flying ==> FetchShows(s', s.flying[id]))
  {
  }

  lemma {:induction false} EndShows(l: Limits, s: System, id: nat, version: nat, status: int, body: string)
    requires Inv(l, s) && Shows(s) && Enabled(s, End(id, version, status, body))
    ensures Shows(Step(l, s, End(id, version, status, body)))
  {
    LeaveShows(l, s, id);
    if Cacheable(l, status, body) {
      StoreShows(l, s.(flying := s.flying - {id}), Answer(s.flying[id], version, status, body));
    }
  }

  lemma {:induction false} WriteShows(l: Limits, s: System, w: string, t: int)
    requires Inv(l, s) && Shows(s) && t >= s.now
    ensures Shows(Step(l, s, Write(w, t)))
  {
    var s' := Step(l, s, Write(w, t));
    forall id | id in s'.flying
      ensures FetchShows(s', s'.flying[id])
    {
      assert FetchShows(s, s.flying[id]);
    }
    forall k | k in s'.cache.entries && k in s'.origin
      ensures AnswerShows(s', s'.origin[k])
    {
      assert AnswerShows(s, s.origin[k]) && Traced(s.cache, s.origin, k);
      assert s.cache.entries[k].who != w;
    }
  }

  lemma {:induction false} LandShows(l: Limits, s: System, w: string)
    requires Inv(l, s) && Shows(s) && Enabled(s, Land(w))
    ensures Shows(Step(l, s, Land(w)))
  {
    var s' := Step(l, s, Land(w));
    forall id | id in s'.flying ensures FetchShows(s', s'.flying[id]) {
      assert FetchShows(s, s.flying[id]);
    }
    forall k | k in s'.cache.entries && k in s'.origin ensures AnswerShows(s', s'.origin[k]) {
      assert AnswerShows(s, s.origin[k]);
    }
  }

  lemma {:induction false} BeginShows(l: Limits, s: System, e: Event)
    requires Inv(l, s) && Shows(s) && Enabled(s, e) && e.Begin?
    ensures Shows(Step(l, s, e))
  {
    var s' := Step(l, s, e);
    forall i | i in s'.flying ensures FetchShows(s', s'.flying[i]) {
      assert i in s.flying ==> FetchShows(s, s.flying[i]);
    }
    assert forall k | k in s.cache.entries && k in s.origin :: AnswerShows(s, s.origin[k]) && AnswerShows(s', s.origin[k]);
  }

  lemma {:induction false} StepShows(l: Limits, s: System, e: Event)
    requires Inv(l, s) && Shows(s) && Enabled(s, e)
    ensures Shows(Step(l, s, e))
  {
    match e
    case Begin(_, _, _, _) => BeginShows(l, s, e);
    case Fail(id) => LeaveShows(l, s, id);
    case Land(w) => LandShows(l, s, w);
    case Write(w, t) => WriteShows(l, s, w, t);
    case End(id, version, status, body) => EndShows(l, s, id, version, status, body);
  }

  lemma {:induction false} RunShows(l: Limits, s: System, es: seq<Event>, s': System)
    requires l.maxRead <= l.maxBytes && Inv(l, s) && Shows(s) && Run(l, s, es, s')
    ensures Inv(l, s') && Shows(s')
    decreases |es|
  {
    if es != [] {
      StepInv(l, s, es[0]);
      StepShows(l, s, es[0]);
      RunShows(l, Step(l, s, es[0]), es[1..], s');
    }
  }

  /** The answer kept under `k` shows every own write that lands, for as long as it is kept. */
  ghost predicate AlwaysShows(l: Limits, s: System, k: string) {
    && k in s.origin
    && forall es, s' | Run(l, s, es, s') && k in s'.cache.entries && k in s'.origin && s'.origin[k] == s.origin[k] ::
         s.origin[k].version >= Own(s', s.origin[k].fetch.w)
  }

  /** However the apiserver answers this read now, what is kept of it always shows its credentials' own writes. */
  ghost predicate ReadsOwnWrites(l: Limits, s: System, id: nat)
    requires id in s.flying
  {
    forall version, status, body | Enabled(s, End(id, version, status, body)) && Cacheable(l, status, body) ::
      AlwaysShows(l, Step(l, s, End(id, version, status, body)), CacheKey(s.flying[id].w, s.flying[id].url))
  }

  /**
   In every run, a read that is kept shows its credentials' own writes from then on if and only if
   none was on its way when it began and none has met it since at the same clock reading.
   */
  lemma {:induction false} ReadsOwnWritesIff(l: Limits, es: seq<Event>, s: System, id: nat)
    requires l.maxRead <= l.maxBytes && Run(l, IDLE, es, s)
    requires id in s.flying && s.flying[id].started >= s.cache.last
    ensures ReadsOwnWrites(l, s, id) <==> Clear(s.flying[id])
  {
    IdleInv(l);
    RunShows(l, IDLE, es, s);
    if Clear(s.flying[id]) {
      forall version, status, body | Enabled(s, End(id, version, status, body)) && Cacheable(l, status, body)
        ensures AlwaysShows(l, Step(l, s, End(id, version, status, body)), CacheKey(s.flying[id].w, s.flying[id].url))
      {
        ClearShows(l, s, id, version, status, body);
      }
    } else {
      UnclearMisses(l, s, id);
    }
  }

  lemma {:induction false} ClearShows(l: Limits, s: System, id: nat, version: nat, status: int, body: string)
    requires l.maxRead <= l.maxBytes && Inv(l, s) && Shows(s) && Enabled(s, End(id, version, status, body))
    requires Cacheable(l, status, body) && s.flying[id].started >= s.cache.last && Clear(s.flying[id])
    ensures AlwaysShows(l, Step(l, s, End(id, version, status, body)), CacheKey(s.flying[id].w, s.flying[id].url))
  {
    var e := End(id, version, status, body);
    var s1, k := Step(l, s, e), CacheKey(s.flying[id].w, s.flying[id].url);
    StepInv(l, s, e);
    StepShows(l, s, e);
    assert s1.origin[k] == Answer(s.flying[id], version, status, body);
    forall es, s' | Run(l, s1, es, s') && k in s'.cache.entries && k in s'.origin && s'.origin[k] == s1.origin[k]
      ensures s1.origin[k].version >= Own(s', s1.origin[k].fetch.w)
    {
      RunShows(l, s1, es, s');
      assert AnswerShows(s', s'.origin[k]);
    }
  }

  /** The apiserver answered before the own write landed: kept, the answer misses it. */
  lemma {:induction false} UnclearMisses(l: Limits, s: System, id: nat)
    requires Inv(l, s) && Shows(s) && id in s.flying && s.flying[id].started >= s.cache.last && !Clear(s.flying[id])
    ensures !ReadsOwnWrites(l, s, id)
  {
    var f := s.flying[id];
    var e := End(id, f.seen, OK, "");
    var s1, k := Step(l, s, e), CacheKey(f.w, f.url);
    assert Enabled(s, e) && Cacheable(l, OK, "") && FetchShows(s, f);
    assert k in s1.cache.entries && s1.origin[k] == Answer(f, f.seen, OK, "");
    if Own(s, f.w) > f.seen {
      assert Run(l, s1, [], s1);
    } else {
      OneLanding(l, s1, f.w, k);
    }
  }

  lemma {:induction false} OneLanding(l: Limits, s: System, w: string, k: string)
    requires Pending(s, w) > 0 && k in s.cache.entries && k in s.origin
    requires s.origin[k].fetch.w == w && s.origin[k].version <= s.version
    ensures !AlwaysShows(l, s, k)
  {
    var s' := Step(l, s, Land(w));
    assert [Land(w)][1..] == [];
    assert Run(l, s', [], s') && Run(l, s, [Land(w)], s');
  }

  /** Every answer kept in any run shows the own writes that landed, if its read was clear of them. */
  lemma {:induction false} ClearReadsShowOwnWrites(l: Limits, es: seq<Event>, s: System, w: string, url: string)
    requires l.maxRead <= l.maxBytes && Run(l, IDLE, es, s)
    requires Free(url, NUL) && CacheKey(w, url) in s.cache.entries
    ensures CacheKey(w, url) in s.origin
    ensures var a := s.origin[CacheKey(w, url)];
            Clear(a.fetch) ==> a.version >= Own(s, w)
  {
    IdleInv(l);
    RunShows(l, IDLE, es, s);
    assert Traced(s.cache, s.origin, CacheKey(w, url));
    var a := s.origin[CacheKey(w, url)];
    CacheKeyInjective(w, url, a.fetch.w, a.fetch.url);
    assert AnswerShows(s, a);
  }

  // ---- the two ways an own write is missed -------------------------------------------------------

  /** `w`'s own answer is served at `t`, and misses `w`'s last write. */
  predicate Missed(l: Limits, s: System, w: string, url: string, t: int) {
    && FreshRead(l, s.cache, CacheKey(w, url), t).Some?
    && CacheKey(w, url) in s.origin && s.origin[CacheKey(w, url)].version < Own(s, w)
  }

  /** From every reachable state: while a write of `w` is on its way, a read of `w` can be answered first, be kept, and be served after it. */
  lemma {:induction false} ReadDuringOwnWriteMissesIt(l: Limits, es: seq<Event>, s: System, id: nat, w: string, url: string, t: int, body: string)
    requires l.maxRead <= l.maxBytes && Run(l, IDLE, es, s)
    requires Pending(s, w) > 0 && id !in s.flying && Free(url, NUL) && t >= s.now && |body| <= l.maxRead && l.ttl > 0
    ensures var s1 := Step(l, s, Begin(id, w, url, t));
            Enabled(s, Begin(id, w, url, t)) && Enabled(s1, End(id, s.version, OK, body)) &&
            var s2 := Step(l, s1, End(id, s.version, OK, body));
            Enabled(s2, Land(w)) && Missed(l, Step(l, s2, Land(w)), w, url, t)
  {
    IdleInv(l);
    RunInv(l, IDLE, es, s);
    OvertakingRead(l, s, id, w, url, t, body);
  }

  lemma {:induction false} OvertakingRead(l: Limits, s: System, id: nat, w: string, url: string, t: int, body: string)
    requires Pending(s, w) > 0 && id !in s.flying && Free(url, NUL) && t >= s.now >= s.cache.last && |body| <= l.maxRead && l.ttl > 0
    ensures var s1 := Step(l, s, Begin(id, w, url, t));
            Enabled(s, Begin(id, w, url, t)) && Enabled(s1, End(id, s.version, OK, body)) &&
            var s2 := Step(l, s1, End(id, s.version, OK, body));
            Enabled(s2, Land(w)) && Missed(l, Step(l, s2, Land(w)), w, url, t)
  {
    var s1 := Step(l, s, Begin(id, w, url, t));
    var s2 := Step(l, s1, End(id, s.version, OK, body));
    assert s2 == Store(l, s1.(flying := s1.flying - {id}), Answer(s1.flying[id], s.version, OK, body));
  }

  /** The first write a person ever makes, and a poll that overtakes it. */
  lemma {:induction false} OwnWriteMissed(l: Limits)
    requires 0 < l.ttl && l.maxRead <= l.maxBytes
    ensures exists s :: Run(l, IDLE, [Write("w", 1), Begin(0, "w", "u", 2), End(0, 0, OK, ""), Land("w")], s) && Missed(l, s, "w", "u", 2)
  {
    var s0 := Step(l, IDLE, Write("w", 1));
    assert [Write("w", 1)][1..] == [];
    assert Run(l, s0, [], s0) && Run(l, IDLE, [Write("w", 1)], s0);
    ReadDuringOwnWriteMissesIt(l, [Write("w", 1)], s0, 0, "w", "u", 2, "");
    FourSteps(l, IDLE, Write("w", 1), Begin(0, "w", "u", 2), End(0, 0, OK, ""), Land("w"));
  }

  /** A poll begun with no write under way, and a write at the same clock reading: the poll is kept all the same. */
  lemma {:induction false} TiedWriteMissed(l: Limits)
    requires 0 < l.ttl && l.maxRead <= l.maxBytes
    ensures exists s :: Run(l, IDLE, [Begin(0, "w", "u", 2), Write("w", 2), End(0, 0, OK, ""), Land("w")], s)
                        && Missed(l, s, "w", "u", 2) && s.origin[CacheKey("w", "u")].fetch.quiet
  {
    var s1 := Step(l, IDLE, Begin(0, "w", "u", 2));
    var s2 := Step(l, s1, Write("w", 2));
    assert s2.flying[0] == Fetch("w", "u", 2, 0, true, true) && s2.cache.last == 2;
    var s3 := Step(l, s2, End(0, 0, OK, ""));
    assert s3.origin[CacheKey("w", "u")] == Answer(s2.flying[0], 0, OK, "");
    FourSteps(l, IDLE, Begin(0, "w", "u", 2), Write("w", 2), End(0, 0, OK, ""), Land("w"));
  }

  lemma {:induction false} FourSteps(l: Limits, s: System, a: Event, b: Event, c: Event, d: Event)
    requires Enabled(s, a)
    requires Enabled(Step(l, s, a), b)
    requires Enabled(Step(l, Step(l, s, a), b), c)
    requires Enabled(Step(l, Step(l, Step(l, s, a), b), c), d)
    ensures Run(l, s, [a, b, c, d], Step(l, Step(l, Step(l, Step(l, s, a), b), c), d))
  {
    var s1 := Step(l, s, a);
    var s2 := Step(l, s1, b);
    var s3 := Step(l, s2, c);
    var s4 := Step(l, s3, d);
    assert Run(l, s4, [], s4);
    assert [d][1..] == [] && [c, d][1..] == [d] && [b, c, d][1..] == [c, d] && [a, b, c, d][1..] == [b, c, d];
    assert Run(l, s3, [d], s4);
    assert Run(l, s2, [c, d], s4);
    assert Run(l, s1, [b, c, d], s4);
  }

  // ---- what is kept --------------------------------------------------------------------------------

  /** In every state of every run, an answer is kept if and only if it is a success or a refusal, not too long, and was asked for no earlier than the last write of anyone. */
  lemma {:induction false} AnswerKeptIff(l: Limits, es: seq<Event>, s: System, id: nat, version: nat, status: int, body: string, now: int)
    requires Run(l, IDLE, es, s) && Enabled(s, End(id, version, status, body))
    ensures var f := s.flying[id]; var s' := Step(l, s, End(id, version, status, body));
            if (status == 200 || status == 403) && |body| <= l.maxRead && f.started >= s.cache.last
            then FreshRead(l, s'.cache, CacheKey(f.w, f.url), now) == if now < f.started + l.ttl then Some(Read(f.started, f.w, status, body)) else None
            else s'.cache == s.cache
  {
  }
}
