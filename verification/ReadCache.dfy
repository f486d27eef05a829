/**
 The dashboard's read cache (internal/cli/dashboard_readcache.go): answers kept for a moment
 per credentials and URL, forgotten when those credentials write.
 */
module ReadCache {
  import opened Basics
  import opened Text

  datatype Read = Read(at: int, who: string, status: int, body: string)

  datatype Limits = Limits(ttl: int, maxBytes: nat, maxRead: nat)

  /** `last` is when the last write went through, `writers` when each set of credentials last wrote. */
  datatype Cache = Cache(entries: map<string, Read>, size: int, last: int, writers: map<string, int>)

  const EMPTY := Cache(map[], 0, 0, map[])

  const OK := 200
  const FORBIDDEN := 403

  function CacheKey(w: string, url: string): string {
    w + [NUL] + url
  }

  lemma {:induction false} CacheKeyInjective(w: string, url: string, w': string, url': string)
    requires Free(url, NUL) && Free(url', NUL)
    requires CacheKey(w, url) == CacheKey(w', url')
    ensures w == w' && url == url'
  {
    TailSplits(w, w', url, url', NUL);
  }

  // ---- the credentials a request carries ------------------------------------------------

  /** An impersonation header. */
  datatype Header = Header(name: string, value: string)

  function Render(h: Header): string {
    [NUL] + (h.name + ['='] + h.value)
  }

  function Rendered(hs: seq<Header>): string {
    if hs == [] then "" else Render(hs[0]) + Rendered(hs[1..])
  }

  /** The name of the credentials, over the headers in the order a map happens to yield them. */
  function Who(authorization: string, hs: seq<Header>): string {
    authorization + Rendered(hs)
  }

  /** A header map: one value per name, no NUL, no `=` in a name. */
  ghost predicate HeaderMap(hs: seq<Header>) {
    && (forall i, j | 0 <= i < j < |hs| :: hs[i].name != hs[j].name)
    && (forall h | h in hs :: Free(h.name, NUL) && Free(h.name, '=') && Free(h.value, NUL))
  }

  predicate SameHeaders(a: seq<Header>, b: seq<Header>) {
    multiset(a) == multiset(b)
  }

  ghost predicate OrderFree(authorization: string, hs: seq<Header>) {
    forall b | SameHeaders(hs, b) :: Who(authorization, b) == Who(authorization, hs)
  }

  /** Swapping two headers changes the name. */
  lemma {:induction false} SwapChangesWho(a: Header, b: Header, rest: string)
    requires a.name != b.name
    requires Free(a.name, NUL) && Free(a.name, '=') && Free(a.value, NUL)
    requires Free(b.name, NUL) && Free(b.name, '=') && Free(b.value, NUL)
    ensures Render(a) + (Render(b) + rest) != Render(b) + (Render(a) + rest)
  {
    var x, y := a.name + ['='] + a.value, b.name + ['='] + b.value;
    var l, r := Render(a) + (Render(b) + rest), Render(b) + (Render(a) + rest);
    if l == r {
      assert l[1..] == x + [NUL] + (y + rest) && r[1..] == y + [NUL] + (x + rest);
      HeadSplits(x, y, y + rest, x + rest, NUL);
      HeadSplits(a.name, b.name, a.value, b.value, '=');
    }
  }

  lemma {:induction false} OneHeaderIsStable(authorization: string, hs: seq<Header>)
    requires |hs| <= 1
    ensures OrderFree(authorization, hs)
  {
    forall b | SameHeaders(hs, b)
      ensures b == hs
    {
      assert |multiset(hs)| == |hs| && |multiset(b)| == |b|;
      if |hs| == 1 {
        assert b[0] in multiset(hs);
      }
    }
  }

  lemma {:induction false} RenderedTwo(a: Header, b: Header, rest: seq<Header>)
    ensures Rendered([a, b] + rest) == Render(a) + (Render(b) + Rendered(rest))
  {
  }

  lemma {:induction false} SwapFirstTwo(hs: seq<Header>) returns (swapped: seq<Header>)
    requires HeaderMap(hs) && |hs| > 1
    ensures SameHeaders(hs, swapped) && Rendered(swapped) != Rendered(hs)
  {
    var a, b, rest := hs[0], hs[1], hs[2..];
    swapped := [b, a] + rest;
    assert hs == [a, b] + rest;
    assert SameHeaders(hs, swapped);
    assert a in hs && b in hs;
    SwapChangesWho(a, b, Rendered(rest));
    RenderedTwo(a, b, rest);
    RenderedTwo(b, a, rest);
  }

  lemma {:induction false} TwoHeadersAreNot(authorization: string, hs: seq<Header>)
    requires HeaderMap(hs) && |hs| > 1
    ensures !OrderFree(authorization, hs)
  {
    var swapped := SwapFirstTwo(hs);
    WhoDiffers(authorization, swapped, hs);
  }

  lemma {:induction false} WhoDiffers(authorization: string, a: seq<Header>, b: seq<Header>)
    requires Rendered(a) != Rendered(b)
    ensures Who(authorization, a) != Who(authorization, b)
  {
    assert Who(authorization, a)[|authorization|..] == Rendered(a);
    assert Who(authorization, b)[|authorization|..] == Rendered(b);
  }

  /**
   The same request names the same credentials every time if and only if it carries at most one
   impersonation header: the program walks a map, whose order varies.
   */
  lemma {:induction false} WhoIsStableIff(authorization: string, hs: seq<Header>)
    requires HeaderMap(hs)
    ensures OrderFree(authorization, hs) <==> |hs| <= 1
  {
    if |hs| <= 1 {
      OneHeaderIsStable(authorization, hs);
    } else {
      TwoHeadersAreNot(authorization, hs);
    }
  }

  // ---- the lock regions, as functions of the state ----------------------------------

  /** The bytes stored in `m`. */
  ghost function Total(m: map<string, Read>): nat
    decreases m.Keys
  {
    if m == map[] then 0
    else
      var k :| k in m;
      |m[k].body| + Total(m - {k})
  }

  function Held(m: map<string, Read>, key: string): nat {
    if key in m then |m[key].body| else 0
  }

  function FreshRead(l: Limits, c: Cache, key: string, now: int): Option<Read> {
    if key in c.entries && now - c.entries[key].at < l.ttl then Some(c.entries[key]) else None
  }

  function WithRead(l: Limits, c: Cache, key: string, e: Read): Cache {
    if e.at < c.last then c
    else
      var c' := if c.size + |e.body| > l.maxBytes then c.(entries := map[], size := 0) else c;
      c'.(size := c'.size + |e.body| - Held(c'.entries, key), entries := c'.entries[key := e])
  }

  function ReadsOf(m: map<string, Read>, w: string): set<string> {
    set k | k in m && m[k].who == w
  }

  function Recent(l: Limits, writers: map<string, int>, now: int): map<string, int> {
    map k | k in writers && now - writers[k] < l.ttl :: writers[k]
  }

  ghost function WithWrite(l: Limits, c: Cache, w: string, now: int): Cache {
    Cache(c.entries - ReadsOf(c.entries, w),
          c.size - (Total(c.entries) - Total(c.entries - ReadsOf(c.entries, w))),
          now,
          Recent(l, c.writers, now)[w := now])
  }

  function WroteRecently(l: Limits, c: Cache, w: string, now: int): bool {
    w in c.writers && now - c.writers[w] < l.ttl
  }

  /** Whatever order its headers come in, a write drops these credentials' reads if and only if there is at most one header. */
  lemma {:induction false} WriteForgetsIff(l: Limits, authorization: string, hs: seq<Header>, now: int)
    requires HeaderMap(hs)
    ensures (forall b, c: Cache, key | SameHeaders(hs, b) && key in c.entries && c.entries[key].who == Who(authorization, hs) ::
               key !in WithWrite(l, c, Who(authorization, b), now).entries) <==> |hs| <= 1
  {
    WhoIsStableIff(authorization, hs);
    if |hs| > 1 {
      var b :| SameHeaders(hs, b) && Who(authorization, b) != Who(authorization, hs);
      var c := EMPTY.(entries := map["" := Read(0, Who(authorization, hs), OK, "")]);
      assert "" in WithWrite(l, c, Who(authorization, b), now).entries;
    }
  }

  lemma {:induction false} TotalWithout(m: map<string, Read>, k: string)
    requires k in m
    ensures Total(m) == |m[k].body| + Total(m - {k})
    decreases m.Keys
  {
    var j :| j in m && Total(m) == |m[j].body| + Total(m - {j});
    if j != k {
      TotalWithout(m - {j}, k);
      TotalWithout(m - {k}, j);
      assert m - {j} - {k} == m - {k} - {j};
    }
  }

  lemma {:induction false} TotalWith(m: map<string, Read>, k: string, e: Read)
    ensures Total(m[k := e]) == Total(m) - Held(m, k) + |e.body|
  {
    TotalWithout(m[k := e], k);
    assert m[k := e] - {k} == m - {k};
    if k in m {
      TotalWithout(m, k);
    } else {
      assert m - {k} == m;
    }
  }

  lemma {:induction false} TotalShrinks(m: map<string, Read>, ks: set<string>)
    ensures Total(m - ks) <= Total(m)
    decreases ks
  {
    if k :| k in ks {
      TotalShrinks(m, ks - {k});
      var rest := m - (ks - {k});
      assert m - ks == rest - {k};
      if k in rest {
        TotalWithout(rest, k);
      } else {
        assert rest - {k} == rest;
      }
    } else {
      assert m - ks == m;
    }
  }

  // ---- the cache object ------------------------------------------------------------------

  class Reads {
    const limits: Limits
    var entries: map<string, Read>
    var size: int
    var last: int
    var writers: map<string, int>

    constructor (limits: Limits)
      ensures this.limits == limits && Model() == EMPTY
    {
      this.limits := limits;
      entries, size, last, writers := map[], 0, 0, map[];
    }

    function Model(): Cache
      reads this
    {
      Cache(entries, size, last, writers)
    }

    method Fresh(key: string, now: int) returns (e: Option<Read>)
      ensures e == FreshRead(limits, Model(), key, now)
    {
      if key in entries && now - entries[key].at < limits.ttl {
        return Some(entries[key]);
      }
      return None;
    }

    method Put(key: string, e: Read)
      modifies this
      ensures Model() == WithRead(limits, old(Model()), key, e)
    {
      if e.at < last {
        return;
      }
      if size + |e.body| > limits.maxBytes {
        entries, size := map[], 0;
      }
      size := size + |e.body| - if key in entries then |entries[key].body| else 0;
      entries := entries[key := e];
    }

    /** Drops every answer read with credentials `w`, and the writers whose moment passed. */
    method Forget(w: string, now: int)
      modifies this
      ensures Model() == WithWrite(limits, old(Model()), w, now)
    {
      last := now;
      PruneWriters(now);
      writers := writers[w := now];
      DropReads(w);
    }

    method PruneWriters(now: int)
      modifies this`writers
      ensures writers == Recent(limits, old(writers), now)
    {
      var todo := writers.Keys;
      while todo != {}
        invariant todo <= writers.Keys <= old(writers).Keys
        invariant forall k | k in writers :: writers[k] == old(writers)[k]
        invariant forall k | k in old(writers) && k !in todo ::
                    k in writers <==> now - old(writers)[k] < limits.ttl
        decreases todo
      {
        var k :| k in todo;
        if now - writers[k] >= limits.ttl {
          writers := writers - {k};
        }
        todo := todo - {k};
      }
    }

    method DropReads(w: string)
      modifies this`entries, this`size
      ensures entries == old(entries) - ReadsOf(old(entries), w)
      ensures size == old(size) - (Total(old(entries)) - Total(entries))
    {
      var todo := entries.Keys;
      while todo != {}
        invariant todo <= entries.Keys <= old(entries).Keys
        invariant forall k | k in entries :: entries[k] == old(entries)[k]
        invariant forall k | k in old(entries) && k !in todo :: k in entries <==> old(entries)[k].who != w
        invariant size == old(size) - (Total(old(entries)) - Total(entries))
        decreases todo
      {
        var k :| k in todo;
        if entries[k].who == w {
          TotalWithout(entries, k);
          size := size - |entries[k].body|;
          entries := entries - {k};
        }
        todo := todo - {k};
      }
      assert entries == old(entries) - ReadsOf(old(entries), w);
    }

    method Wrote(w: string, now: int) returns (b: bool)
      ensures b == WroteRecently(limits, Model(), w, now)
    {
      b := w in writers && now - writers[w] < limits.ttl;
    }
  }

  // ---- what is kept ------------------------------------------------------------------------------

  /** A read not older than the last write is served until it is too old; the others stay unless it would not fit, and then all go. */
  lemma {:induction false} ReadsKept(l: Limits, c: Cache, key: string, e: Read, k: string, now: int)
    ensures var c' := WithRead(l, c, key, e);
            if e.at < c.last then c' == c
            else && FreshRead(l, c', key, now) == (if now < e.at + l.ttl then Some(e) else None)
                 && (k != key ==> FreshRead(l, c', k, now) == if c.size + |e.body| <= l.maxBytes then FreshRead(l, c, k, now) else None)
                 && c'.last == c.last && c'.writers == c.writers
  {
  }

  /** A write takes that writer's reads and no others, and is remembered for a moment; so is every other writer's that is not too old. */
  lemma {:induction false} WritesKept(l: Limits, c: Cache, w: string, t: int, k: string, v: string, now: int)
    ensures var c' := WithWrite(l, c, w, t);
            && FreshRead(l, c', k, now) == (if k in c.entries && c.entries[k].who == w then None else FreshRead(l, c, k, now))
            && c'.last == t && (WroteRecently(l, c', w, now) <==> now < t + l.ttl)
            && (v != w && t <= now ==> (WroteRecently(l, c', v, now) <==> WroteRecently(l, c, v, now)))
  {
  }
}
