/**
 Every interleaving of sign-ins, requests, renewals and endings of sessions
 (internal/authn/oidc.go:289-515). A step is one region under the table's lock, one turn of a
 session's refreshing lock, or one exchange with the identity provider. A session may also end at
 any moment, for a logout or a sweep.
 */
module SessionRuns {
  import opened Sessions

  type Ref = nat
  type Request = nat

  datatype Outcome = Awaited | Failed | Worked(expiry: int)

  /** A session's refresh token shown to the identity provider, by a request that began at `now`. */
  datatype Presented = Presented(token: string, ref: Ref, who: Request, now: int, outcome: Outcome)

  /** Where a request stands. `first` is the copy whose limits it checked at `now`. */
  datatype Phase =
    | Waiting(ref: Ref, now: int, first: Data)
    | Holding(ref: Ref, now: int, first: Data)
    | Presenting(ref: Ref, now: int, first: Data, cp: Data, at: nat)
    | Renewed(ref: Ref, now: int, first: Data, cp: Data)
    | Touching(ref: Ref, now: int, first: Data, cp: Data)

  /** A session handed to a request. */
  datatype Returned = Returned(ref: Ref, first: Data, data: Data, now: int)

  /**
   `objects` are the sessions ever made, `table` the live ones by id, `holders` who holds each
   session's refreshing lock, `issued` the refresh tokens the provider gave out and `revoked` those
   it was asked to revoke.
   */
  datatype System = System(objects: map<Ref, Data>, table: map<string, Ref>, holders: map<Ref, Request>,
                           requests: map<Request, Phase>, issued: set<string>, revoked: set<string>,
                           log: seq<Presented>, returned: seq<Returned>)

  const NOBODY := System(map[], map[], map[], map[], {}, {}, [], [])

  datatype Event =
    | SignIn(ref: Ref, data: Data)
    | Read(req: Request, id: string, now: int)
    | Acquire(req: Request)
    | Recheck(req: Request, reachable: bool)
    | Refuse(req: Request)
    | Answer(req: Request, tokens: Tokens)
    | WriteBack(req: Request)
    | Touch(req: Request)
    | End(id: string)

  predicate In(s: System, req: Request) {
    req in s.requests && s.requests[req].ref in s.objects
  }

  predicate AtLog(s: System, req: Request) {
    In(s, req) && s.requests[req].Presenting? && s.requests[req].at < |s.log|
  }

  /** Random ids do not repeat, and a verified ID token is not past its expiry. */
  predicate Enabled(s: System, e: Event) {
    match e
    case SignIn(ref, d) => ref !in s.objects && d.id !in s.table
    case Read(req, id, _) => req !in s.requests && (id in s.table ==> s.table[id] in s.objects)
    case Acquire(req) => In(s, req) && s.requests[req].Waiting? && s.requests[req].ref !in s.holders
    case Recheck(req, _) => In(s, req) && s.requests[req].Holding?
    case Refuse(req) => AtLog(s, req)
    case Answer(req, t) => AtLog(s, req) && t.expiry >= s.requests[req].now
    case WriteBack(req) => In(s, req) && s.requests[req].Renewed?
    case Touch(req) => In(s, req) && s.requests[req].Touching?
    case End(_) => true
  }

  /** What is asked to be revoked when `id` ends: the refresh token of the session there, if it has one. */
  function Revoking(s: System, id: string): set<string> {
    if id in s.table && s.table[id] in s.objects && s.objects[s.table[id]].refresh != "" then {s.objects[s.table[id]].refresh} else {}
  }

  /** A refresh that failed: past its expiry the session is ended, before it the old token still serves. */
  function Unrefreshed(s: System, req: Request, p: Phase, cp: Data, log: seq<Presented>): System {
    if p.now > cp.expiry
    then s.(holders := s.holders - {p.ref}, requests := s.requests - {req}, table := s.table - {cp.id},
            revoked := s.revoked + Revoking(s, cp.id), log := log)
    else s.(holders := s.holders - {p.ref}, requests := s.requests[req := Touching(p.ref, p.now, p.first, cp)], log := log)
  }

  function Settle(log: seq<Presented>, at: nat, outcome: Outcome): seq<Presented>
    requires at < |log|
  {
    log[at := log[at].(outcome := outcome)]
  }

  predicate Live(s: System, ref: Ref)
    requires ref in s.objects
  {
    s.objects[ref].id in s.table && s.table[s.objects[ref].id] == ref
  }

  function Step(l: Lifetime, s: System, e: Event): System
    requires Enabled(s, e)
  {
    match e
    case SignIn(ref, d) =>
      s.(objects := s.objects[ref := d], table := s.table[d.id := ref], issued := s.issued + {d.refresh})
    case Read(req, id, now) =>
      if id !in s.table then s
      else
        var ref := s.table[id];
        var cp := s.objects[ref];
        if l.Expired(cp.created, cp.seen, now) then s.(table := s.table - {id}, revoked := s.revoked + Revoking(s, id))
        else if Stale(cp, now) then s.(requests := s.requests[req := Waiting(ref, now, cp)])
        else s.(requests := s.requests[req := Touching(ref, now, cp, cp)])
    case Acquire(req) =>
      var p := s.requests[req];
      s.(requests := s.requests[req := Holding(p.ref, p.now, p.first)], holders := s.holders[p.ref := req])
    case Recheck(req, reachable) =>
      var p := s.requests[req];
      var cp := s.objects[p.ref];
      if !Live(s, p.ref) then s.(requests := s.requests - {req}, holders := s.holders - {p.ref})
      else if !Stale(cp, p.now) then
        s.(requests := s.requests[req := Touching(p.ref, p.now, p.first, cp)], holders := s.holders - {p.ref})
      else if cp.refresh == "" || !reachable then Unrefreshed(s, req, p, cp, s.log)
      else s.(requests := s.requests[req := Presenting(p.ref, p.now, p.first, cp, |s.log|)],
              log := s.log + [Presented(cp.refresh, p.ref, req, p.now, Awaited)])
    case Refuse(req) =>
      var p := s.requests[req];
      Unrefreshed(s, req, p, p.cp, Settle(s.log, p.at, Failed))
    case Answer(req, t) =>
      var p := s.requests[req];
      s.(requests := s.requests[req := Renewed(p.ref, p.now, p.first, Refreshed(p.cp, t))],
         log := Settle(s.log, p.at, Worked(t.expiry)), issued := s.issued + {t.refresh})
    case WriteBack(req) =>
      var p := s.requests[req];
      s.(requests := s.requests[req := Touching(p.ref, p.now, p.first, p.cp)], holders := s.holders - {p.ref},
         objects := s.objects[p.ref := WrittenBack(s.objects[p.ref], p.cp)])
    case Touch(req) =>
      var p := s.requests[req];
      s.(requests := s.requests - {req}, objects := s.objects[p.ref := s.objects[p.ref].(seen := p.now)],
         returned := s.returned + [Returned(p.ref, p.first, p.cp.(seen := p.now), p.now)])
    case End(id) => s.(table := s.table - {id}, revoked := s.revoked + Revoking(s, id))
  }

  ghost predicate Run(l: Lifetime, s: System, es: seq<Event>, s': System)
    decreases |es|
  {
    if es == [] then s' == s
    else Enabled(s, es[0]) && Run(l, Step(l, s, es[0]), es[1..], s')
  }

  // ---- what every step keeps -------------------------------------------------------------------

  predicate HoldsLock(p: Phase) {
    p.Holding? || p.Presenting? || p.Renewed?
  }

  predicate HeldBy(requests: map<Request, Phase>, r: Ref, q: Request) {
    q in requests && HoldsLock(requests[q]) && requests[q].ref == r
  }

  predicate Holds(holders: map<Ref, Request>, q: Request, p: Phase) {
    HoldsLock(p) ==> p.ref in holders && holders[p.ref] == q
  }

  /** A session's lock has at most one holder, and whoever is past waiting holds it. */
  ghost predicate Locked(holders: map<Ref, Request>, requests: map<Request, Phase>) {
    && (forall r | r in holders :: HeldBy(requests, r, holders[r]))
    && (forall q | q in requests :: Holds(holders, q, requests[q]))
  }

  ghost predicate Known(objects: map<Ref, Data>, table: map<string, Ref>, requests: map<Request, Phase>) {
    && (forall id | id in table :: table[id] in objects && objects[table[id]].id == id)
    && (forall q | q in requests :: requests[q].ref in objects)
  }

  /** A copy in a request's hands is of the session it asked for, read within its limits. */
  predicate Carries(l: Lifetime, d: Data, p: Phase) {
    && SameSignIn(d, p.first) && !l.Expired(p.first.created, p.first.seen, p.now)
    && (!p.Waiting? && !p.Holding? ==> SameSignIn(d, p.cp))
    && (p.Renewed? || p.Touching? ==> p.cp.expiry >= p.now)
  }

  ghost predicate Carried(l: Lifetime, objects: map<Ref, Data>, requests: map<Request, Phase>) {
    forall q | q in requests && requests[q].ref in objects :: Carries(l, objects[requests[q].ref], requests[q])
  }

  predicate Handed(l: Lifetime, d: Data, r: Returned) {
    && SameSignIn(d, r.data) && SameSignIn(d, r.first)
    && l.Within(r.first.created, r.first.seen, r.now) && r.data.expiry >= r.now
  }

  ghost predicate AllHanded(l: Lifetime, objects: map<Ref, Data>, returned: seq<Returned>) {
    forall i | 0 <= i < |returned| :: returned[i].ref in objects && Handed(l, objects[returned[i].ref], returned[i])
  }

  /** A request at the provider shows its session's token under a log entry of its own, and every awaited entry has its request. */
  predicate Shows(objects: map<Ref, Data>, log: seq<Presented>, q: Request, p: Phase) {
    p.Presenting? ==>
      && p.ref in objects && p.cp.refresh == objects[p.ref].refresh && p.cp.refresh != ""
      && p.at < |log| && log[p.at] == Presented(p.cp.refresh, p.ref, q, p.now, Awaited)
  }

  predicate Awaits(requests: map<Request, Phase>, i: nat, x: Presented) {
    x.outcome == Awaited ==> x.who in requests && requests[x.who].Presenting? && requests[x.who].at == i
  }

  ghost predicate AtProvider(objects: map<Ref, Data>, requests: map<Request, Phase>, log: seq<Presented>) {
    && (forall q | q in requests :: Shows(objects, log, q, requests[q]))
    && (forall i | 0 <= i < |log| :: log[i].ref in objects && Awaits(requests, i, log[i]))
  }

  /** A session as its last renewal left it, even if that is not written back yet. */
  function Current(objects: map<Ref, Data>, holders: map<Ref, Request>, requests: map<Request, Phase>, r: Ref): Data
    requires r in objects
  {
    if r in holders && holders[r] in requests && requests[holders[r]].Renewed? then requests[holders[r]].cp else objects[r]
  }

  function Now(s: System, r: Ref): Data
    requires r in s.objects
  {
    Current(s.objects, s.holders, s.requests, r)
  }

  /** Between two renewals of one session that worked, none that worked. */
  ghost predicate Next(log: seq<Presented>, i: int, j: int) {
    && 0 <= i < j <= |log| && log[i].outcome.Worked?
    && forall k | i < k < j && log[k].ref == log[i].ref :: !log[k].outcome.Worked?
  }

  ghost predicate Brought(s: System) {
    forall i | Next(s.log, i, |s.log|) && s.log[i].ref in s.objects :: Now(s, s.log[i].ref).expiry == s.log[i].outcome.expiry
  }

  /** A session is renewed again only once what its last renewal brought is about to expire. */
  ghost predicate RenewedWhenStale(log: seq<Presented>) {
    forall i, j | 0 <= i < j < |log| && Next(log, i, j) && log[j].ref == log[i].ref ::
      log[i].outcome.expiry - log[j].now < REFRESH_MARGIN
  }

  /** At most one renewal of a session is under way. */
  ghost predicate OneAtATime(log: seq<Presented>) {
    forall i, j | 0 <= i < j < |log| && log[i].ref == log[j].ref :: !log[i].outcome.Awaited?
  }

  ghost predicate Inv(l: Lifetime, s: System) {
    && Locked(s.holders, s.requests)
    && Known(s.objects, s.table, s.requests)
    && Carried(l, s.objects, s.requests)
    && AllHanded(l, s.objects, s.returned)
    && AtProvider(s.objects, s.requests, s.log)
    && Brought(s)
    && RenewedWhenStale(s.log)
    && OneAtATime(s.log)
  }

  lemma {:induction false} StepLocked(l: Lifetime, s: System, e: Event)
    requires Enabled(s, e) && Locked(s.holders, s.requests)
    ensures var s' := Step(l, s, e); Locked(s'.holders, s'.requests)
  {
    var s' := Step(l, s, e);
    forall r | r in s'.holders ensures HeldBy(s'.requests, r, s'.holders[r]) {
      StepHeld(l, s, e, r);
    }
    forall q | q in s'.requests ensures Holds(s'.holders, q, s'.requests[q]) {
      StepHolds(l, s, e, q);
    }
  }

  predicate Acts(e: Event) {
    !e.SignIn? && !e.Read? && !e.End?
  }

  predicate OwnLock(s: System, e: Event)
    requires Enabled(s, e)
  {
    Acts(e) ==> Holds(s.holders, e.req, s.requests[e.req])
  }

  predicate LockOf(s: System, r: Ref) {
    r in s.holders ==> HeldBy(s.requests, r, s.holders[r])
  }

  lemma {:induction false} StepHeld(l: Lifetime, s: System, e: Event, r: Ref)
    requires Enabled(s, e) && LockOf(s, r) && OwnLock(s, e) && r in Step(l, s, e).holders
    ensures var s' := Step(l, s, e); HeldBy(s'.requests, r, s'.holders[r])
  {
  }

  lemma {:induction false} StepHolds(l: Lifetime, s: System, e: Event, q: Request)
    requires Enabled(s, e) && (q in s.requests ==> Holds(s.holders, q, s.requests[q])) && OwnLock(s, e) && q in Step(l, s, e).requests
    ensures var s' := Step(l, s, e); Holds(s'.holders, q, s'.requests[q])
  {
  }

  lemma {:induction false} StepKnown(l: Lifetime, s: System, e: Event)
    requires Enabled(s, e) && Known(s.objects, s.table, s.requests)
    ensures var s' := Step(l, s, e); Known(s'.objects, s'.table, s'.requests)
  {
    var s' := Step(l, s, e);
    forall id | id in s'.table ensures s'.table[id] in s'.objects && s'.objects[s'.table[id]].id == id {
      StepTable(l, s, e, id);
    }
    forall q | q in s'.requests ensures s'.requests[q].ref in s'.objects {
      StepRequest(l, s, e, q);
    }
  }

  /** Only a sign-in adds to the table. */
  lemma {:induction false} StepTable(l: Lifetime, s: System, e: Event, id: string)
    requires Enabled(s, e) && Known(s.objects, s.table, s.requests) && id in Step(l, s, e).table
    ensures var s' := Step(l, s, e); s'.table[id] in s'.objects && s'.objects[s'.table[id]].id == id
    ensures if id in s.table then Step(l, s, e).table[id] == s.table[id] else e.SignIn? && e.data.id == id && Step(l, s, e).table[id] == e.ref
  {
  }

  lemma {:induction false} StepRequest(l: Lifetime, s: System, e: Event, q: Request)
    requires Enabled(s, e) && Known(s.objects, s.table, s.requests) && q in Step(l, s, e).requests
    ensures var s' := Step(l, s, e); s'.requests[q].ref in s'.objects
    ensures q in s.requests ==> Step(l, s, e).requests[q].ref == s.requests[q].ref
  {
  }

  /** No step changes what a sign-in fixed. */
  lemma {:induction false} StepKeepsSignIns(l: Lifetime, s: System, e: Event, r: Ref)
    requires Enabled(s, e) && OwnCarried(l, s, e) && r in s.objects
    ensures r in Step(l, s, e).objects && SameSignIn(s.objects[r], Step(l, s, e).objects[r])
  {
  }

  lemma {:induction false} StepCarried(l: Lifetime, s: System, e: Event)
    requires Enabled(s, e) && Known(s.objects, s.table, s.requests) && Carried(l, s.objects, s.requests)
    ensures var s' := Step(l, s, e); Carried(l, s'.objects, s'.requests)
  {
    var s' := Step(l, s, e);
    forall q | q in s'.requests && s'.requests[q].ref in s'.objects ensures Carries(l, s'.objects[s'.requests[q].ref], s'.requests[q]) {
      StepCarries(l, s, e, q);
    }
  }

  lemma {:induction false} StepCarries(l: Lifetime, s: System, e: Event, q: Request)
    requires Enabled(s, e) && OwnCarried(l, s, e) && (q in s.requests ==> In(s, q) && Carries(l, s.objects[s.requests[q].ref], s.requests[q]))
    requires In(Step(l, s, e), q)
    ensures var s' := Step(l, s, e); Carries(l, s'.objects[s'.requests[q].ref], s'.requests[q])
  {
    if q in s.requests {
      StepKeepsSignIns(l, s, e, s.requests[q].ref);
      if Acts(e) && q == e.req {
        StepOwnCarries(l, s, e);
      }
    }
  }

  lemma {:induction false} StepOwnCarries(l: Lifetime, s: System, e: Event)
    requires Enabled(s, e) && Acts(e) && OwnCarried(l, s, e) && In(Step(l, s, e), e.req)
    ensures var s' := Step(l, s, e); Carries(l, s'.objects[s'.requests[e.req].ref], s'.requests[e.req])
  {
  }

  predicate OwnCarried(l: Lifetime, s: System, e: Event)
    requires Enabled(s, e)
  {
    Acts(e) ==> Carries(l, s.objects[s.requests[e.req].ref], s.requests[e.req])
  }

  lemma {:induction false} StepHanded(l: Lifetime, s: System, e: Event)
    requires Enabled(s, e) && Carried(l, s.objects, s.requests) && AllHanded(l, s.objects, s.returned)
    ensures var s' := Step(l, s, e); AllHanded(l, s'.objects, s'.returned)
  {
  }

  lemma {:induction false} StepAtProvider(l: Lifetime, s: System, e: Event)
    requires Enabled(s, e) && Locked(s.holders, s.requests) && AtProvider(s.objects, s.requests, s.log)
    ensures var s' := Step(l, s, e); AtProvider(s'.objects, s'.requests, s'.log)
  {
    var s' := Step(l, s, e);
    forall q | q in s'.requests ensures Shows(s'.objects, s'.log, q, s'.requests[q]) {
      StepShows(l, s, e, q);
    }
    forall i | 0 <= i < |s'.log| ensures s'.log[i].ref in s'.objects && Awaits(s'.requests, i, s'.log[i]) {
      StepAwaits(l, s, e, i);
    }
  }

  lemma {:induction false} StepShows(l: Lifetime, s: System, e: Event, q: Request)
    requires Enabled(s, e) && OwnLock(s, e) && (Acts(e) ==> Shows(s.objects, s.log, e.req, s.requests[e.req]))
    requires q in Step(l, s, e).requests && (q in s.requests ==> Holds(s.holders, q, s.requests[q]) && Shows(s.objects, s.log, q, s.requests[q]))
    ensures var s' := Step(l, s, e); Shows(s'.objects, s'.log, q, s'.requests[q])
  {
  }

  lemma {:induction false} StepAwaits(l: Lifetime, s: System, e: Event, i: nat)
    requires Enabled(s, e) && (Acts(e) ==> Shows(s.objects, s.log, e.req, s.requests[e.req])) && i < |Step(l, s, e).log|
    requires i < |s.log| ==> s.log[i].ref in s.objects && Awaits(s.requests, i, s.log[i])
    ensures var s' := Step(l, s, e); s'.log[i].ref in s'.objects && Awaits(s'.requests, i, s'.log[i])
  {
  }

  /** Only an answer changes a session's tokens, expiry or person. */
  lemma {:induction false} StepNow(l: Lifetime, s: System, e: Event, r: Ref)
    requires Enabled(s, e) && LockOf(s, r) && OwnLock(s, e) && r in s.objects
    ensures r in Step(l, s, e).objects
    ensures var d' := Now(Step(l, s, e), r);
            if e.Answer? && s.requests[e.req].ref == r then d' == Refreshed(s.requests[e.req].cp, e.tokens)
            else KeepsTokens(Now(s, r), d')
  {
    if e.Answer? || e.Refuse? || e.Recheck? {
      AskedNow(l, s, e, r);
    } else if e.SignIn? || e.Read? || e.End? || e.Acquire? {
      CameNow(l, s, e, r);
    }
  }

  lemma {:induction false} AskedNow(l: Lifetime, s: System, e: Event, r: Ref)
    requires (e.Answer? || e.Refuse? || e.Recheck?) && Enabled(s, e) && LockOf(s, r) && OwnLock(s, e) && r in s.objects
    ensures r in Step(l, s, e).objects
    ensures var d' := Now(Step(l, s, e), r);
            if e.Answer? && s.requests[e.req].ref == r then d' == Refreshed(s.requests[e.req].cp, e.tokens) else d' == Now(s, r)
  {
  }

  lemma {:induction false} CameNow(l: Lifetime, s: System, e: Event, r: Ref)
    requires (e.SignIn? || e.Read? || e.End? || e.Acquire?) && Enabled(s, e) && LockOf(s, r) && r in s.objects
    ensures r in Step(l, s, e).objects && Now(Step(l, s, e), r) == Now(s, r)
  {
  }

  lemma {:induction false} StepOneAtATime(l: Lifetime, s: System, e: Event)
    requires Enabled(s, e) && Locked(s.holders, s.requests) && AtProvider(s.objects, s.requests, s.log) && OneAtATime(s.log)
    ensures OneAtATime(Step(l, s, e).log)
  {
  }

  /** A renewal that worked and is still the last was the last before, unless this step is its answer. */
  lemma {:induction false} StepBrought(l: Lifetime, s: System, e: Event)
    requires Enabled(s, e) && Locked(s.holders, s.requests) && AtProvider(s.objects, s.requests, s.log)
    requires Brought(s) && OneAtATime(s.log)
    ensures Brought(Step(l, s, e))
  {
    var s' := Step(l, s, e);
    forall i | Next(s'.log, i, |s'.log|) && s'.log[i].ref in s'.objects ensures Now(s', s'.log[i].ref).expiry == s'.log[i].outcome.expiry {
      StepBroughtAt(l, s, e, i);
    }
  }

  lemma {:induction false} StepBroughtAt(l: Lifetime, s: System, e: Event, i: nat)
    requires Enabled(s, e) && Locked(s.holders, s.requests) && AtProvider(s.objects, s.requests, s.log)
    requires Brought(s) && OneAtATime(s.log)
    requires var s' := Step(l, s, e); Next(s'.log, i, |s'.log|) && s'.log[i].ref in s'.objects
    ensures var s' := Step(l, s, e); Now(s', s'.log[i].ref).expiry == s'.log[i].outcome.expiry
  {
    StepAwaits(l, s, e, i);
    var s' := Step(l, s, e);
    var r := s'.log[i].ref;
    if e.Answer? && s.requests[e.req].at == i {
      StepNow(l, s, e, r);
    } else {
      assert i < |s.log| && s.log[i] == s'.log[i];
      WasLast(l, s, e, i);
      StepNow(l, s, e, r);
    }
  }

  /** An entry stays as it is until its outcome is known. */
  lemma {:induction false} StepEntry(l: Lifetime, s: System, e: Event, i: nat)
    requires Enabled(s, e) && (Acts(e) ==> Shows(s.objects, s.log, e.req, s.requests[e.req])) && i < |s.log|
    ensures var log' := Step(l, s, e).log; i < |log'| && log'[i] == s.log[i].(outcome := log'[i].outcome)
    ensures s.log[i].outcome.Awaited? || Step(l, s, e).log[i] == s.log[i]
  {
  }

  lemma {:induction false} WasLast(l: Lifetime, s: System, e: Event, i: nat)
    requires Enabled(s, e) && AtProvider(s.objects, s.requests, s.log)
    requires var s' := Step(l, s, e); Next(s'.log, i, |s'.log|) && i < |s.log| && s.log[i] == s'.log[i]
    ensures Next(s.log, i, |s.log|)
    ensures e.Answer? ==> s.requests[e.req].ref != s.log[i].ref || s.requests[e.req].at <= i
  {
    var s' := Step(l, s, e);
    if e.Answer? && s.requests[e.req].at > i {
      assert s'.log[s.requests[e.req].at].outcome.Worked?;
    }
    forall j | i < j < |s.log| && s.log[j].ref == s.log[i].ref ensures !s.log[j].outcome.Worked? {
      StepEntry(l, s, e, j);
    }
  }

  lemma {:induction false} StepRenewedWhenStale(l: Lifetime, s: System, e: Event)
    requires Enabled(s, e) && Inv(l, s)
    ensures RenewedWhenStale(Step(l, s, e).log)
  {
    var log, log' := s.log, Step(l, s, e).log;
    forall i, j | 0 <= i < j < |log'| && Next(log', i, j) && log'[j].ref == log'[i].ref
      ensures log'[i].outcome.expiry - log'[j].now < REFRESH_MARGIN
    {
      if j < |log| {
        StepStaleBefore(l, s, e, i, j);
      } else {
        StepStaleNew(l, s, e, i);
      }
    }
  }

  lemma {:induction false} StepStaleBefore(l: Lifetime, s: System, e: Event, i: nat, j: nat)
    requires Enabled(s, e) && AtProvider(s.objects, s.requests, s.log) && OneAtATime(s.log) && RenewedWhenStale(s.log)
    requires j < |s.log| <= |Step(l, s, e).log| && i < j
    requires var log' := Step(l, s, e).log; Next(log', i, j) && log'[j].ref == log'[i].ref
    ensures var log' := Step(l, s, e).log; log'[i].outcome.expiry - log'[j].now < REFRESH_MARGIN
  {
    StepEntry(l, s, e, i);
    StepEntry(l, s, e, j);
    forall k | i < k < j && s.log[k].ref == s.log[i].ref ensures !s.log[k].outcome.Worked? {
      StepEntry(l, s, e, k);
    }
    assert Next(s.log, i, j);
  }

  lemma {:induction false} StepStaleNew(l: Lifetime, s: System, e: Event, i: nat)
    requires Enabled(s, e) && Locked(s.holders, s.requests) && AtProvider(s.objects, s.requests, s.log) && Brought(s)
    requires i < |s.log| < |Step(l, s, e).log|
    requires var log' := Step(l, s, e).log; Next(log', i, |s.log|) && log'[|s.log|].ref == log'[i].ref
    ensures var log' := Step(l, s, e).log; log'[i].outcome.expiry - log'[|s.log|].now < REFRESH_MARGIN
  {
    var log, log' := s.log, Step(l, s, e).log;
    StepEntry(l, s, e, i);
    forall k | i < k < |log| && log[k].ref == log[i].ref ensures !log[k].outcome.Worked? {
      StepEntry(l, s, e, k);
    }
    assert Next(log, i, |log|);
    var p := s.requests[e.req];
    assert Now(s, p.ref) == s.objects[p.ref];
  }

  lemma {:induction false} StepInv(l: Lifetime, s: System, e: Event)
    requires Enabled(s, e) && Inv(l, s)
    ensures Inv(l, Step(l, s, e))
  {
    StepLocked(l, s, e);
    StepKnown(l, s, e);
    StepCarried(l, s, e);
    StepHanded(l, s, e);
    StepAtProvider(l, s, e);
    StepBrought(l, s, e);
    StepRenewedWhenStale(l, s, e);
    StepOneAtATime(l, s, e);
  }

  lemma {:induction false} RunInv(l: Lifetime, s: System, es: seq<Event>, s': System)
    requires Inv(l, s) && Run(l, s, es, s')
    ensures Inv(l, s')
    decreases |es|
  {
    if es != [] {
      StepInv(l, s, es[0]);
      RunInv(l, Step(l, s, es[0]), es[1..], s');
    }
  }

  // ---- a provider that rotates refresh tokens -----------------------------------------------------

  /** Whatever it issues was never issued before; a sign-in may come without a refresh token. */
  predicate Rotates(s: System, e: Event) {
    match e
    case SignIn(_, d) => d.refresh == "" || d.refresh !in s.issued
    case Answer(_, t) => t.refresh != "" && t.refresh !in s.issued
    case _ => true
  }

  ghost predicate RotatingRun(l: Lifetime, s: System, es: seq<Event>, s': System)
    decreases |es|
  {
    if es == [] then s' == s
    else Enabled(s, es[0]) && Rotates(s, es[0]) && RotatingRun(l, Step(l, s, es[0]), es[1..], s')
  }

  predicate Issued(issued: set<string>, token: string) {
    token == "" || token in issued
  }

  ghost predicate AllIssued(s: System) {
    && (forall r | r in s.objects :: Issued(s.issued, Now(s, r).refresh))
    && (forall i | 0 <= i < |s.log| :: s.log[i].token != "" && s.log[i].token in s.issued)
  }

  /** No two sessions share a refresh token. */
  ghost predicate OwnTokens(s: System) {
    forall a, b | a in s.objects && b in s.objects && a != b && Now(s, a).refresh != "" :: Now(s, a).refresh != Now(s, b).refresh
  }

  /** A token that worked is no session's any more. */
  ghost predicate Spent(s: System) {
    forall i, r | 0 <= i < |s.log| && s.log[i].outcome.Worked? && r in s.objects :: Now(s, r).refresh != s.log[i].token
  }

  /** No token is shown again, by any request of any session, unless showing it failed before. */
  ghost predicate ShownOnce(log: seq<Presented>) {
    forall i, j | 0 <= i < j < |log| && log[i].token == log[j].token :: log[i].outcome.Failed?
  }

  ghost predicate RotatingInv(s: System) {
    AllIssued(s) && OwnTokens(s) && Spent(s) && ShownOnce(s.log)
  }

  /** The part of the invariant that tokens rest on. */
  ghost predicate Held(s: System) {
    Locked(s.holders, s.requests) && Known(s.objects, s.table, s.requests) && AtProvider(s.objects, s.requests, s.log)
  }

  lemma {:induction false} StepAllIssued(l: Lifetime, s: System, e: Event)
    requires Enabled(s, e) && Held(s) && AllIssued(s)
    ensures AllIssued(Step(l, s, e))
  {
    var s' := Step(l, s, e);
    forall r | r in s'.objects ensures Issued(s'.issued, Now(s', r).refresh) {
      StepIssued(l, s, e, r);
    }
    forall i | 0 <= i < |s'.log| ensures s'.log[i].token != "" && s'.log[i].token in s'.issued {
      StepLogged(l, s, e, i);
    }
  }

  lemma {:induction false} StepLogged(l: Lifetime, s: System, e: Event, i: nat)
    requires Enabled(s, e) && Held(s) && AllIssued(s) && i < |Step(l, s, e).log|
    ensures var s' := Step(l, s, e); s'.log[i].token != "" && s'.log[i].token in s'.issued
  {
    StepIssues(l, s, e);
    if i < |s.log| {
      StepEntry(l, s, e, i);
    } else {
      StepPresents(l, s, e);
    }
  }

  lemma {:induction false} StepIssues(l: Lifetime, s: System, e: Event)
    requires Enabled(s, e)
    ensures s.issued <= Step(l, s, e).issued
  {
  }

  /** The token a session shows is its own. */
  lemma {:induction false} StepPresents(l: Lifetime, s: System, e: Event)
    requires Enabled(s, e) && OwnLock(s, e) && |s.log| < |Step(l, s, e).log|
    ensures Acts(e) && s.requests[e.req].ref in s.objects && Step(l, s, e).issued == s.issued && |Step(l, s, e).log| == |s.log| + 1
    ensures Step(l, s, e).log[|s.log|].token == Now(s, s.requests[e.req].ref).refresh != ""
  {
  }

  /** How a step moves a session's token. */
  lemma {:induction false} StepToken(l: Lifetime, s: System, e: Event, r: Ref)
    requires Enabled(s, e) && Held(s) && r in Step(l, s, e).objects
    ensures var s' := Step(l, s, e);
            if r !in s.objects then e.SignIn? && e.ref == r && Now(s', r).refresh == e.data.refresh
            else if e.Answer? && s.requests[e.req].ref == r && e.tokens.refresh != "" then Now(s', r).refresh == e.tokens.refresh
            else Now(s', r).refresh == Now(s, r).refresh
  {
    if r in s.objects {
      StepNow(l, s, e, r);
    }
  }

  lemma {:induction false} StepIssued(l: Lifetime, s: System, e: Event, r: Ref)
    requires Enabled(s, e) && Held(s) && AllIssued(s) && r in Step(l, s, e).objects
    ensures var s' := Step(l, s, e); Issued(s'.issued, Now(s', r).refresh)
  {
    StepToken(l, s, e, r);
  }

  lemma {:induction false} StepOwnTokens(l: Lifetime, s: System, e: Event)
    requires Enabled(s, e) && Rotates(s, e) && Inv(l, s) && RotatingInv(s)
    ensures OwnTokens(Step(l, s, e))
  {
    var s' := Step(l, s, e);
    forall a, b | a in s'.objects && b in s'.objects && a != b && Now(s', a).refresh != "" ensures Now(s', a).refresh != Now(s', b).refresh {
      StepToken(l, s, e, a);
      StepToken(l, s, e, b);
    }
  }

  lemma {:induction false} StepSpent(l: Lifetime, s: System, e: Event)
    requires Enabled(s, e) && Rotates(s, e) && Inv(l, s) && RotatingInv(s)
    ensures Spent(Step(l, s, e))
  {
    var s' := Step(l, s, e);
    forall i, r | 0 <= i < |s'.log| && s'.log[i].outcome.Worked? && r in s'.objects ensures Now(s', r).refresh != s'.log[i].token {
      StepSpentAt(l, s, e, i, r);
    }
  }

  lemma {:induction false} StepSpentAt(l: Lifetime, s: System, e: Event, i: nat, r: Ref)
    requires Enabled(s, e) && Rotates(s, e) && Held(s) && AllIssued(s) && OwnTokens(s) && Spent(s)
    requires var s' := Step(l, s, e); i < |s'.log| && s'.log[i].outcome.Worked? && r in s'.objects
    ensures var s' := Step(l, s, e); Now(s', r).refresh != s'.log[i].token
  {
    StepToken(l, s, e, r);
    StepWorked(l, s, e, i);
  }

  /** A renewal that worked did before, or this step is its answer and it showed its session's token. */
  lemma {:induction false} StepWorked(l: Lifetime, s: System, e: Event, i: nat)
    requires Enabled(s, e) && OwnLock(s, e) && (Acts(e) ==> Shows(s.objects, s.log, e.req, s.requests[e.req]))
    requires i < |Step(l, s, e).log| && Step(l, s, e).log[i].outcome.Worked?
    ensures i < |s.log| && Step(l, s, e).log[i].token == s.log[i].token
    ensures s.log[i].outcome.Worked? ||
            (e.Answer? && s.requests[e.req].at == i && s.log[i].token == Now(s, s.requests[e.req].ref).refresh)
  {
  }

  lemma {:induction false} StepShownOnce(l: Lifetime, s: System, e: Event)
    requires Enabled(s, e) && Held(s) && OwnTokens(s) && Spent(s) && ShownOnce(s.log)
    ensures ShownOnce(Step(l, s, e).log)
  {
    var log, log' := s.log, Step(l, s, e).log;
    StepGrows(l, s, e);
    forall i, j | 0 <= i < j < |log'| && log'[i].token == log'[j].token ensures log'[i].outcome.Failed? {
      if j < |log| {
        StepShownOld(l, s, e, i, j);
      } else {
        StepShownNew(l, s, e, i);
      }
    }
  }

  lemma {:induction false} StepShownOld(l: Lifetime, s: System, e: Event, i: nat, j: nat)
    requires Enabled(s, e) && (Acts(e) ==> Shows(s.objects, s.log, e.req, s.requests[e.req])) && i < j < |s.log| <= |Step(l, s, e).log|
    requires Step(l, s, e).log[i].token == Step(l, s, e).log[j].token && ShownOnce(s.log)
    ensures Step(l, s, e).log[i].outcome.Failed?
  {
    StepEntry(l, s, e, i);
    StepEntry(l, s, e, j);
  }

  lemma {:induction false} StepGrows(l: Lifetime, s: System, e: Event)
    requires Enabled(s, e)
    ensures |s.log| <= |Step(l, s, e).log| <= |s.log| + 1
  {
  }

  lemma {:induction false} ShownByAnother(s: System, req: Request, i: nat)
    requires Held(s) && OwnTokens(s) && Spent(s) && i < |s.log|
    requires In(s, req) && s.requests[req].Holding? && s.objects[s.requests[req].ref].refresh == s.log[i].token != ""
    ensures s.log[i].outcome.Failed?
  {
  }

  /** A token shown before that a session still has was refused. */
  lemma {:induction false} StepShownNew(l: Lifetime, s: System, e: Event, i: nat)
    requires Enabled(s, e) && Held(s) && OwnTokens(s) && Spent(s)
    requires i < |s.log| < |Step(l, s, e).log| && Step(l, s, e).log[i].token == Step(l, s, e).log[|s.log|].token
    ensures Step(l, s, e).log[i].outcome.Failed?
  {
    ShownByAnother(s, e.req, i);
  }

  lemma {:induction false} RotatingRunInv(l: Lifetime, s: System, es: seq<Event>, s': System)
    requires Inv(l, s) && RotatingInv(s) && RotatingRun(l, s, es, s')
    ensures RotatingInv(s')
    decreases |es|
  {
    if es != [] {
      var e := es[0];
      StepInv(l, s, e);
      StepAllIssued(l, s, e);
      StepOwnTokens(l, s, e);
      StepSpent(l, s, e);
      StepShownOnce(l, s, e);
      RotatingRunInv(l, Step(l, s, e), es[1..], s');
    }
  }

  // ---- the promises ----------------------------------------------------------------------------------

  /** However many requests ask, a session has one renewal under way, and the next starts only when the last is about to expire. */
  lemma {:induction false} RenewsOnce(l: Lifetime, es: seq<Event>, s: System)
    requires Run(l, NOBODY, es, s)
    ensures OneAtATime(s.log) && RenewedWhenStale(s.log)
  {
    RunInv(l, NOBODY, es, s);
  }

  /** A rotating provider never sees a refresh token twice, unless it refused it. */
  lemma {:induction false} TokenShownOnce(l: Lifetime, es: seq<Event>, s: System)
    requires RotatingRun(l, NOBODY, es, s)
    ensures ShownOnce(s.log)
  {
    RotatingRunInv(l, NOBODY, es, s);
  }

  /** Every session handed out was signed in, was within its limits when read, and has an ID token not past its expiry. */
  lemma {:induction false} ServedIsSignedIn(l: Lifetime, es: seq<Event>, s: System, i: nat)
    requires Run(l, NOBODY, es, s) && i < |s.returned|
    ensures s.returned[i].ref in s.objects && Handed(l, s.objects[s.returned[i].ref], s.returned[i])
  {
    RunInv(l, NOBODY, es, s);
  }

  lemma {:induction false} RunKeepsSignIn(l: Lifetime, s: System, es: seq<Event>, s': System, r: Ref)
    requires Inv(l, s) && Run(l, s, es, s') && r in s.objects
    ensures r in s'.objects && SameSignIn(s.objects[r], s'.objects[r])
    ensures Live(s', r) ==> Live(s, r)
    decreases |es|
  {
    if es != [] {
      var m := Step(l, s, es[0]);
      StepInv(l, s, es[0]);
      StepKeepsSignIns(l, s, es[0], r);
      if Live(m, r) {
        StepTable(l, s, es[0], m.objects[r].id);
      }
      RunKeepsSignIn(l, m, es[1..], s', r);
    }
  }

  /** Nothing that follows changes a session's id, creation, login time or CSRF token, and an ended session never comes back. */
  lemma {:induction false} SignInIsFinal(l: Lifetime, past: seq<Event>, s: System, es: seq<Event>, s': System, r: Ref)
    requires Run(l, NOBODY, past, s) && Run(l, s, es, s') && r in s.objects
    ensures r in s'.objects && SameSignIn(s.objects[r], s'.objects[r])
    ensures Live(s', r) ==> Live(s, r)
  {
    RunInv(l, NOBODY, past, s);
    RunKeepsSignIn(l, s, es, s', r);
  }
}
