/** A request with nobody in between gets what the table's own method gives it (internal/authn/oidc.go:426-484). */
module SessionAlone {
  import opened Basics
  import opened Sessions
  import opened SessionRuns

  /** What the method promises, of the machine's states. */
  predicate AsServed(l: Lifetime, s: System, s': System, id: string, r: Ref, now: int, reply: Option<Tokens>)
    requires r in s.objects
  {
    var d := s.objects[r];
    match Served(l, d, now, reply)
    case Some(x) =>
      && s'.returned == s.returned + [Returned(r, d, x, now)]
      && s'.objects == s.objects[r := Kept(d, now, reply)] && s'.table == s.table && s'.revoked == s.revoked
    case None => s'.returned == s.returned && s'.objects == s.objects && s'.table == s.table - {id} && s'.revoked == s.revoked + Revoking(s, id)
  }

  predicate Alone(s: System, req: Request, id: string, r: Ref) {
    id in s.table && s.table[id] == r && r in s.objects && s.objects[r].id == id && r !in s.holders && req !in s.requests
  }

  /** A step of the request itself, after its first. */
  predicate Own(e: Event, req: Request) {
    Acts(e) && e.req == req
  }

  ghost predicate AllOwn(es: seq<Event>, req: Request) {
    forall i | 0 <= i < |es| :: Own(es[i], req)
  }

  /** Some run of the request's own steps ends with it gone, served as the method promises. */
  ghost predicate CanFinish(l: Lifetime, s: System, req: Request, id: string, r: Ref, now: int, reply: Option<Tokens>)
    requires r in s.objects
  {
    exists es, s' :: Finishes(l, s, req, id, r, now, reply, es, s')
  }

  ghost predicate Finishes(l: Lifetime, s: System, req: Request, id: string, r: Ref, now: int, reply: Option<Tokens>, es: seq<Event>, s': System)
    requires r in s.objects
  {
    Run(l, s, [Read(req, id, now)] + es, s') && AllOwn(es, req) && req !in s'.requests && AsServed(l, s, s', id, r, now, reply)
  }

  lemma {:induction false} OneMore(l: Lifetime, s: System, e: Event, es: seq<Event>, s': System)
    requires Enabled(s, e) && Run(l, Step(l, s, e), es, s')
    ensures Run(l, s, [e] + es, s')
  {
    assert ([e] + es)[1..] == es;
  }

  lemma {:induction false} ExpiredAlone(l: Lifetime, s: System, req: Request, id: string, r: Ref, now: int, reply: Option<Tokens>)
    requires Alone(s, req, id, r) && l.Expired(s.objects[r].created, s.objects[r].seen, now)
    ensures CanFinish(l, s, req, id, r, now, reply)
  {
    var s' := Step(l, s, Read(req, id, now));
    OneMore(l, s, Read(req, id, now), [], s');
    assert Finishes(l, s, req, id, r, now, reply, [], s');
  }

  lemma {:induction false} CurrentAlone(l: Lifetime, s: System, req: Request, id: string, r: Ref, now: int, reply: Option<Tokens>)
    requires Alone(s, req, id, r) && !l.Expired(s.objects[r].created, s.objects[r].seen, now) && !Stale(s.objects[r], now)
    ensures CanFinish(l, s, req, id, r, now, reply)
  {
    var s1 := Step(l, s, Read(req, id, now));
    var s' := Step(l, s1, Touch(req));
    OneMore(l, s1, Touch(req), [], s');
    OneMore(l, s, Read(req, id, now), [Touch(req)], s');
    assert Finishes(l, s, req, id, r, now, reply, [Touch(req)], s');
  }

  /** The request has the session's lock and found it stale. */
  lemma {:induction false} Acquired(l: Lifetime, s: System, req: Request, id: string, r: Ref, now: int) returns (s2: System)
    requires Alone(s, req, id, r) && !l.Expired(s.objects[r].created, s.objects[r].seen, now) && Stale(s.objects[r], now)
    ensures Enabled(s, Read(req, id, now)) && Enabled(Step(l, s, Read(req, id, now)), Acquire(req))
    ensures s2 == Step(l, Step(l, s, Read(req, id, now)), Acquire(req))
    ensures s2 == s.(requests := s.requests[req := Holding(r, now, s.objects[r])], holders := s.holders[r := req])
  {
    var s1 := Step(l, s, Read(req, id, now));
    assert s1 == s.(requests := s.requests[req := Waiting(r, now, s.objects[r])]);
    s2 := Step(l, s1, Acquire(req));
    assert s2.requests == s.requests[req := Holding(r, now, s.objects[r])];
  }

  lemma {:induction false} ThenRuns(l: Lifetime, s: System, req: Request, id: string, now: int, es: seq<Event>, s': System)
    requires Enabled(s, Read(req, id, now)) && Enabled(Step(l, s, Read(req, id, now)), Acquire(req))
    requires Run(l, Step(l, Step(l, s, Read(req, id, now)), Acquire(req)), es, s')
    ensures Run(l, s, [Read(req, id, now)] + ([Acquire(req)] + es), s')
  {
    OneMore(l, Step(l, s, Read(req, id, now)), Acquire(req), es, s');
    OneMore(l, s, Read(req, id, now), [Acquire(req)] + es, s');
  }

  lemma {:induction false} UnrenewedAlone(l: Lifetime, s: System, req: Request, id: string, r: Ref, now: int, reply: Option<Tokens>)
    requires Alone(s, req, id, r) && !l.Expired(s.objects[r].created, s.objects[r].seen, now) && Stale(s.objects[r], now)
    requires !Renews(s.objects[r], now, reply)
    ensures CanFinish(l, s, req, id, r, now, reply)
  {
    var s2 := Acquired(l, s, req, id, r, now);
    var e := Recheck(req, false);
    var s3 := Step(l, s2, e);
    if now > s.objects[r].expiry {
      OneMore(l, s2, e, [], s3);
      ThenRuns(l, s, req, id, now, [e], s3);
      assert AsServed(l, s, s3, id, r, now, reply);
      assert Finishes(l, s, req, id, r, now, reply, [Acquire(req)] + [e], s3);
    } else {
      var s4 := Step(l, s3, Touch(req));
      OneMore(l, s3, Touch(req), [], s4);
      OneMore(l, s2, e, [Touch(req)], s4);
      ThenRuns(l, s, req, id, now, [e] + [Touch(req)], s4);
      assert AsServed(l, s, s4, id, r, now, reply);
      assert Finishes(l, s, req, id, r, now, reply, [Acquire(req)] + ([e] + [Touch(req)]), s4);
    }
  }

  lemma {:induction false} RenewedAlone(l: Lifetime, s: System, req: Request, id: string, r: Ref, now: int, t: Tokens)
    requires Alone(s, req, id, r) && !l.Expired(s.objects[r].created, s.objects[r].seen, now)
    requires Renews(s.objects[r], now, Some(t)) && t.expiry >= now
    ensures CanFinish(l, s, req, id, r, now, Some(t))
  {
    var s2 := Acquired(l, s, req, id, r, now);
    var s3 := PresentedAlone(l, s, s2, req, id, r, now);
    var s6 := AnsweredAlone(l, s, s3, req, id, r, now, t);
    OneMore(l, s2, Recheck(req, true), [Answer(req, t)] + ([WriteBack(req)] + [Touch(req)]), s6);
    var es := [Recheck(req, true)] + ([Answer(req, t)] + ([WriteBack(req)] + [Touch(req)]));
    ThenRuns(l, s, req, id, now, es, s6);
    assert Finishes(l, s, req, id, r, now, Some(t), [Acquire(req)] + es, s6);
  }

  /** Up to where the token is shown. */
  lemma {:induction false} PresentedAlone(l: Lifetime, s: System, s2: System, req: Request, id: string, r: Ref, now: int) returns (s3: System)
    requires Alone(s, req, id, r) && Stale(s.objects[r], now) && s.objects[r].refresh != ""
    requires s2 == s.(requests := s.requests[req := Holding(r, now, s.objects[r])], holders := s.holders[r := req])
    ensures Enabled(s2, Recheck(req, true)) && s3 == Step(l, s2, Recheck(req, true))
    ensures s3.objects == s.objects && s3.table == s.table && s3.returned == s.returned && s3.revoked == s.revoked && |s3.log| == |s.log| + 1
    ensures req in s3.requests && s3.requests[req] == Presenting(r, now, s.objects[r], s.objects[r], |s.log|)
  {
    s3 := Step(l, s2, Recheck(req, true));
  }

  /** From where the token is shown. */
  lemma {:induction false} AnsweredAlone(l: Lifetime, s: System, s3: System, req: Request, id: string, r: Ref, now: int, t: Tokens) returns (s6: System)
    requires Alone(s, req, id, r) && !l.Expired(s.objects[r].created, s.objects[r].seen, now)
    requires Renews(s.objects[r], now, Some(t)) && t.expiry >= now
    requires s3.objects == s.objects && s3.table == s.table && s3.returned == s.returned && s3.revoked == s.revoked && |s3.log| == |s.log| + 1
    requires req in s3.requests && s3.requests[req] == Presenting(r, now, s.objects[r], s.objects[r], |s.log|)
    ensures Run(l, s3, [Answer(req, t)] + ([WriteBack(req)] + [Touch(req)]), s6)
    ensures AsServed(l, s, s6, id, r, now, Some(t)) && req !in s6.requests
  {
    var d := s.objects[r];
    var s4 := Step(l, s3, Answer(req, t));
    assert s4.requests[req] == Renewed(r, now, d, Refreshed(d, t)) && s4.objects == s.objects && s4.table == s.table;
    var s5 := Step(l, s4, WriteBack(req));
    assert s5.requests[req] == Touching(r, now, d, Refreshed(d, t)) && s5.table == s.table && s5.returned == s.returned && s5.revoked == s.revoked;
    assert s5.objects == s.objects[r := WrittenBack(d, Refreshed(d, t))];
    s6 := Step(l, s5, Touch(req));
    assert AsServed(l, s, s6, id, r, now, Some(t));
    OneMore(l, s5, Touch(req), [], s6);
    OneMore(l, s4, WriteBack(req), [Touch(req)], s6);
    OneMore(l, s3, Answer(req, t), [WriteBack(req)] + [Touch(req)], s6);
  }

  /** From every state of every run such a request can finish. */
  lemma {:induction false} AloneFinishes(l: Lifetime, past: seq<Event>, s: System, req: Request, id: string, now: int, reply: Option<Tokens>)
    requires Run(l, NOBODY, past, s) && id in s.table && s.table[id] !in s.holders && req !in s.requests
    requires reply.Some? ==> reply.value.expiry >= now
    ensures s.table[id] in s.objects
    ensures CanFinish(l, s, req, id, s.table[id], now, reply)
  {
    RunInv(l, NOBODY, past, s);
    var r := s.table[id];
    if l.Expired(s.objects[r].created, s.objects[r].seen, now) {
      ExpiredAlone(l, s, req, id, r, now, reply);
    } else if !Stale(s.objects[r], now) {
      CurrentAlone(l, s, req, id, r, now, reply);
    } else if Renews(s.objects[r], now, reply) {
      RenewedAlone(l, s, req, id, r, now, reply.value);
    } else {
      UnrenewedAlone(l, s, req, id, r, now, reply);
    }
  }

  // ---- however such a request goes ------------------------------------------------------------

  /** What the identity provider answered, if it did. */
  function ReplyIn(es: seq<Event>): Option<Tokens> {
    if es == [] then None else if es[0].Answer? then Some(es[0].tokens) else ReplyIn(es[1..])
  }

  lemma {:induction false} GoneStays(l: Lifetime, s: System, req: Request, es: seq<Event>, s': System)
    requires req !in s.requests && AllOwn(es, req) && Run(l, s, es, s')
    ensures es == []
  {
  }

  /** The next step of an unfinished request, and the ones after it. */
  lemma {:induction false} NextOwn(l: Lifetime, s: System, req: Request, es: seq<Event>, s': System)
    requires req in s.requests && req !in s'.requests && AllOwn(es, req) && Run(l, s, es, s')
    ensures es != [] && Own(es[0], req) && AllOwn(es[1..], req) && Enabled(s, es[0]) && Run(l, Step(l, s, es[0]), es[1..], s')
  {
    assert Own(es[0], req);
    forall i | 0 <= i < |es[1..]| ensures Own(es[1..][i], req) {
      assert es[1..][i] == es[i + 1];
    }
  }

  lemma {:induction false} FromTouching(l: Lifetime, s: System, req: Request, es: seq<Event>, s': System, r: Ref, now: int, first: Data, cp: Data)
    requires r in s.objects && req in s.requests && s.requests[req] == Touching(r, now, first, cp)
    requires AllOwn(es, req) && Run(l, s, es, s') && req !in s'.requests
    ensures s'.returned == s.returned + [Returned(r, first, cp.(seen := now), now)]
    ensures s'.objects == s.objects[r := s.objects[r].(seen := now)] && s'.table == s.table && s'.revoked == s.revoked && ReplyIn(es) == None
  {
    NextOwn(l, s, req, es, s');
    GoneStays(l, Step(l, s, es[0]), req, es[1..], s');
    assert ReplyIn(es[1..]) == None;
  }

  lemma {:induction false} FromRenewed(l: Lifetime, s: System, req: Request, es: seq<Event>, s': System, r: Ref, now: int, first: Data, cp: Data)
    requires r in s.objects && req in s.requests && s.requests[req] == Renewed(r, now, first, cp)
    requires AllOwn(es, req) && Run(l, s, es, s') && req !in s'.requests
    ensures s'.returned == s.returned + [Returned(r, first, cp.(seen := now), now)]
    ensures s'.objects == s.objects[r := WrittenBack(s.objects[r], cp).(seen := now)] && s'.table == s.table && s'.revoked == s.revoked && ReplyIn(es) == None
  {
    NextOwn(l, s, req, es, s');
    FromTouching(l, Step(l, s, es[0]), req, es[1..], s', r, now, first, cp);
  }

  /** A failed refresh, from where it is found failed. */
  lemma {:induction false} FromUnrefreshed(l: Lifetime, s: System, log: seq<Presented>, req: Request, es: seq<Event>, s': System,
                                           id: string, r: Ref, now: int, first: Data, cp: Data)
    requires r in s.objects && cp.id == id
    requires Run(l, Unrefreshed(s, req, Holding(r, now, first), cp, log), es, s') && AllOwn(es, req) && req !in s'.requests
    ensures ReplyIn(es) == None
    ensures if now > cp.expiry then s'.returned == s.returned && s'.objects == s.objects && s'.table == s.table - {id} && s'.revoked == s.revoked + Revoking(s, id)
            else && s'.returned == s.returned + [Returned(r, first, cp.(seen := now), now)]
                 && s'.objects == s.objects[r := s.objects[r].(seen := now)] && s'.table == s.table && s'.revoked == s.revoked
  {
    var s1 := Unrefreshed(s, req, Holding(r, now, first), cp, log);
    if now > cp.expiry {
      GoneStays(l, s1, req, es, s');
    } else {
      FromTouching(l, s1, req, es, s', r, now, first, cp);
    }
  }

  /** What `AsServed` says when it is not renewed. */
  lemma {:induction false} ServedUnrenewed(l: Lifetime, s: System, s': System, id: string, r: Ref, now: int)
    requires r in s.objects && !l.Expired(s.objects[r].created, s.objects[r].seen, now)
    requires var d := s.objects[r];
             if Stale(d, now) && now > d.expiry then s'.returned == s.returned && s'.objects == s.objects && s'.table == s.table - {id} && s'.revoked == s.revoked + Revoking(s, id)
             else && s'.returned == s.returned + [Returned(r, d, d.(seen := now), now)]
                  && s'.objects == s.objects[r := d.(seen := now)] && s'.table == s.table && s'.revoked == s.revoked
    ensures AsServed(l, s, s', id, r, now, None)
  {
  }

  lemma {:induction false} FromPresenting(l: Lifetime, s0: System, s: System, req: Request, es: seq<Event>, s': System, id: string, r: Ref, now: int)
    requires r in s0.objects && s0.objects[r].id == id && !l.Expired(s0.objects[r].created, s0.objects[r].seen, now)
    requires Stale(s0.objects[r], now) && s0.objects[r].refresh != ""
    requires s.objects == s0.objects && s.table == s0.table && s.returned == s0.returned && s.revoked == s0.revoked
    requires req in s.requests && s.requests[req] == Presenting(r, now, s0.objects[r], s0.objects[r], |s0.log|)
    requires AllOwn(es, req) && Run(l, s, es, s') && req !in s'.requests
    ensures AsServed(l, s0, s', id, r, now, ReplyIn(es))
  {
    var d := s0.objects[r];
    NextOwn(l, s, req, es, s');
    if es[0].Answer? {
      FromRenewed(l, Step(l, s, es[0]), req, es[1..], s', r, now, d, Refreshed(d, es[0].tokens));
    } else {
      var log := Settle(s.log, |s0.log|, Failed);
      assert Step(l, s, es[0]) == Unrefreshed(s, req, Holding(r, now, d), d, log);
      FromUnrefreshed(l, s, log, req, es[1..], s', id, r, now, d, d);
      ServedUnrenewed(l, s0, s', id, r, now);
    }
  }

  lemma {:induction false} FromHolding(l: Lifetime, s0: System, s: System, req: Request, es: seq<Event>, s': System, id: string, r: Ref, now: int)
    requires Alone(s0, req, id, r) && !l.Expired(s0.objects[r].created, s0.objects[r].seen, now) && Stale(s0.objects[r], now)
    requires s == s0.(requests := s0.requests[req := Holding(r, now, s0.objects[r])], holders := s0.holders[r := req])
    requires AllOwn(es, req) && Run(l, s, es, s') && req !in s'.requests
    ensures AsServed(l, s0, s', id, r, now, ReplyIn(es))
  {
    var d := s0.objects[r];
    NextOwn(l, s, req, es, s');
    var s1 := Step(l, s, es[0]);
    if d.refresh == "" || !es[0].reachable {
      FromUnrefreshed(l, s, s.log, req, es[1..], s', id, r, now, d, d);
      ServedUnrenewed(l, s0, s', id, r, now);
    } else {
      FromPresenting(l, s0, s1, req, es[1..], s', id, r, now);
    }
  }

  lemma {:induction false} FromRead(l: Lifetime, s: System, req: Request, es: seq<Event>, s': System, id: string, r: Ref, now: int)
    requires Alone(s, req, id, r) && AllOwn(es, req) && Run(l, Step(l, s, Read(req, id, now)), es, s') && req !in s'.requests
    ensures AsServed(l, s, s', id, r, now, ReplyIn(es))
  {
    var d := s.objects[r];
    var s1 := Step(l, s, Read(req, id, now));
    if l.Expired(d.created, d.seen, now) {
      GoneStays(l, s1, req, es, s');
    } else if !Stale(d, now) {
      FromTouching(l, s1, req, es, s', r, now, d, d);
      ServedUnrenewed(l, s, s', id, r, now);
    } else {
      NextOwn(l, s1, req, es, s');
      var s2 := Acquired(l, s, req, id, r, now);
      FromHolding(l, s, s2, req, es[1..], s', id, r, now);
    }
  }

  /**
   In every state of every run, a request that meets nobody else gets and leaves exactly what
   `Table.Get` says, whatever the provider answers it and whenever it does.
   */
  lemma {:induction false} AloneIsServed(l: Lifetime, past: seq<Event>, s: System, req: Request, id: string, now: int,
                                         es: seq<Event>, s': System)
    requires Run(l, NOBODY, past, s) && id in s.table && s.table[id] !in s.holders && req !in s.requests
    requires Run(l, s, [Read(req, id, now)] + es, s') && AllOwn(es, req) && req !in s'.requests
    ensures s.table[id] in s.objects && AsServed(l, s, s', id, s.table[id], now, ReplyIn(es))
  {
    RunInv(l, NOBODY, past, s);
    assert ([Read(req, id, now)] + es)[1..] == es;
    FromRead(l, s, req, es, s', id, s.table[id], now);
  }
}
