/**
 Which tokens a session has, in every interleaving: those of its sign-in and of the answers its
 renewals got since (internal/authn/oidc.go:457-515).
 */
module SessionTokens {
  import opened Sessions
  import opened SessionRuns

  // ---- what the answers make of a sign-in -----------------------------------------------------

  /** The last refresh token that came. */
  function RefreshOf(d: Data, ts: seq<Tokens>): string {
    if ts == [] then d.refresh
    else if ts[|ts| - 1].refresh != "" then ts[|ts| - 1].refresh
    else RefreshOf(d, ts[..|ts| - 1])
  }

  /** The last person the cluster named, or that came with another subject than the one who signed in. */
  function PersonOf(d: Data, ts: seq<Tokens>): string {
    if ts == [] then d.person
    else if ts[|ts| - 1].named || ts[|ts| - 1].subject != d.subject then ts[|ts| - 1].person
    else PersonOf(d, ts[..|ts| - 1])
  }

  /** `x` has the last answer's ID token and expiry, and the refresh token and person that go with the answers. */
  predicate Has(x: Data, d: Data, ts: seq<Tokens>) {
    && x.idToken == (if ts == [] then d.idToken else ts[|ts| - 1].idToken)
    && x.expiry == (if ts == [] then d.expiry else ts[|ts| - 1].expiry)
    && x.refresh == RefreshOf(d, ts) && x.person == PersonOf(d, ts)
  }

  predicate HasUpTo(x: Data, d: Data, ts: seq<Tokens>, n: nat) {
    n <= |ts| && Has(x, d, ts[..n])
  }

  ghost predicate HasSome(x: Data, d: Data, ts: seq<Tokens>) {
    exists n: nat :: HasUpTo(x, d, ts, n)
  }

  lemma {:induction false} HasAll(x: Data, d: Data, ts: seq<Tokens>)
    requires Has(x, d, ts)
    ensures HasSome(x, d, ts)
  {
    assert ts[..|ts|] == ts;
    assert HasUpTo(x, d, ts, |ts|);
  }

  lemma {:induction false} HasGrows(x: Data, d: Data, ts: seq<Tokens>, t: Tokens)
    requires HasSome(x, d, ts)
    ensures HasSome(x, d, ts + [t])
  {
    var n: nat :| HasUpTo(x, d, ts, n);
    assert (ts + [t])[..n] == ts[..n];
    assert HasUpTo(x, d, ts + [t], n);
  }

  /** An answer applied to a copy that has what came before. */
  lemma {:induction false} RefreshedHas(x: Data, d: Data, ts: seq<Tokens>, t: Tokens)
    requires Has(x, d, ts) && x.subject == d.subject
    ensures Has(Refreshed(x, t), d, ts + [t])
  {
    assert (ts + [t])[..|ts|] == ts;
  }

  // ---- runs, with what came ----------------------------------------------------------------------

  /** A state with each session's sign-in and the answers to its renewals, in order. */
  datatype Told = Told(s: System, signed: map<Ref, Data>, answers: map<Ref, seq<Tokens>>)

  const NOTHING := Told(NOBODY, map[], map[])

  function Tell(l: Lifetime, h: Told, e: Event): Told
    requires Enabled(h.s, e)
  {
    var s' := Step(l, h.s, e);
    match e
    case SignIn(r, d) => Told(s', h.signed[r := d], h.answers[r := []])
    case Answer(req, t) =>
      var r := h.s.requests[req].ref;
      Told(s', h.signed, if r in h.answers then h.answers[r := h.answers[r] + [t]] else h.answers)
    case _ => h.(s := s')
  }

  ghost predicate ToldRun(l: Lifetime, h: Told, es: seq<Event>, h': Told)
    decreases |es|
  {
    if es == [] then h' == h
    else Enabled(h.s, es[0]) && ToldRun(l, Tell(l, h, es[0]), es[1..], h')
  }

  /** Every run can be so told. */
  lemma {:induction false} RunIsTold(l: Lifetime, h: Told, es: seq<Event>, s': System) returns (h': Told)
    requires Run(l, h.s, es, s')
    ensures ToldRun(l, h, es, h') && h'.s == s'
    decreases |es|
  {
    if es == [] {
      h' := h;
    } else {
      h' := RunIsTold(l, Tell(l, h, es[0]), es[1..], s');
    }
  }

  // ---- what every step keeps ------------------------------------------------------------------------

  predicate Knows(h: Told, r: Ref) {
    r in h.s.objects && r in h.signed && r in h.answers
  }

  /** What a session is now, what its object holds, and whose it is. */
  ghost predicate SessionOk(h: Told, r: Ref)
    requires r in h.s.objects
  {
    && Knows(h, r) && h.s.objects[r].subject == h.signed[r].subject
    && Has(Now(h.s, r), h.signed[r], h.answers[r]) && HasSome(h.s.objects[r], h.signed[r], h.answers[r])
  }

  /** What a request carries. */
  ghost predicate RequestOk(h: Told, p: Phase) {
    && Knows(h, p.ref)
    && (p.Presenting? ==> p.cp.subject == h.signed[p.ref].subject && Has(p.cp, h.signed[p.ref], h.answers[p.ref]))
    && (p.Touching? || p.Renewed? ==> HasSome(p.cp, h.signed[p.ref], h.answers[p.ref]))
  }

  ghost predicate HandedOk(h: Told, x: Returned) {
    Knows(h, x.ref) && HasSome(x.data, h.signed[x.ref], h.answers[x.ref])
  }

  ghost predicate ToldInv(l: Lifetime, h: Told) {
    && Inv(l, h.s)
    && (forall r {:trigger SessionOk(h, r)} | r in h.s.objects :: SessionOk(h, r))
    && (forall q {:trigger RequestOk(h, h.s.requests[q])} | q in h.s.requests :: RequestOk(h, h.s.requests[q]))
    && (forall i {:trigger HandedOk(h, h.s.returned[i])} | 0 <= i < |h.s.returned| :: HandedOk(h, h.s.returned[i]))
  }

  lemma {:induction false} StepObject(l: Lifetime, s: System, e: Event, r: Ref)
    requires Enabled(s, e) && OwnLock(s, e) && r in s.objects
    ensures r in Step(l, s, e).objects && Step(l, s, e).objects[r].subject == s.objects[r].subject
    ensures KeepsTokens(s.objects[r], Step(l, s, e).objects[r]) || KeepsTokens(Now(s, r), Step(l, s, e).objects[r])
  {
  }

  predicate Answers(h: Told, e: Event, r: Ref)
    requires Enabled(h.s, e)
  {
    e.Answer? && h.s.requests[e.req].ref == r
  }

  /** What is told of a session changes by its own sign-in and answers only. */
  lemma {:induction false} ToldOf(l: Lifetime, h: Told, e: Event, r: Ref)
    requires Enabled(h.s, e) && Knows(h, r)
    ensures var h' := Tell(l, h, e);
            && r in h'.signed && r in h'.answers && h'.signed[r] == h.signed[r]
            && h'.answers[r] == if Answers(h, e, r) then h.answers[r] + [e.tokens] else h.answers[r]
  {
  }

  lemma {:induction false} SomeStays(l: Lifetime, h: Told, e: Event, r: Ref, x: Data)
    requires Enabled(h.s, e) && Knows(h, r) && HasSome(x, h.signed[r], h.answers[r])
    ensures var h' := Tell(l, h, e); r in h'.signed && r in h'.answers && HasSome(x, h'.signed[r], h'.answers[r])
  {
    ToldOf(l, h, e, r);
    if Answers(h, e, r) {
      HasGrows(x, h.signed[r], h.answers[r], e.tokens);
    }
  }

  lemma {:induction false} SameHas(x: Data, y: Data, d: Data, ts: seq<Tokens>)
    requires KeepsTokens(x, y)
    ensures Has(x, d, ts) <==> Has(y, d, ts)
    ensures HasSome(x, d, ts) ==> HasSome(y, d, ts)
  {
    if HasSome(x, d, ts) {
      var n: nat :| HasUpTo(x, d, ts, n);
      assert HasUpTo(y, d, ts, n);
    }
  }

  lemma {:induction false} SignedInOk(l: Lifetime, h: Told, e: Event, r: Ref)
    requires Enabled(h.s, e) && Inv(l, h.s) && r !in h.s.objects && r in Tell(l, h, e).s.objects
    ensures SessionOk(Tell(l, h, e), r)
  {
    var h' := Tell(l, h, e);
    assert Now(h'.s, r) == h'.s.objects[r] == h'.signed[r];
    HasAll(h'.s.objects[r], h'.signed[r], h'.answers[r]);
  }

  lemma {:induction false} StepSessionOk(l: Lifetime, h: Told, e: Event, r: Ref)
    requires Enabled(h.s, e) && Inv(l, h.s) && r in h.s.objects && SessionOk(h, r)
    requires Acts(e) ==> RequestOk(h, h.s.requests[e.req])
    ensures r in Tell(l, h, e).s.objects && SessionOk(Tell(l, h, e), r)
  {
    var h' := Tell(l, h, e);
    StepNow(l, h.s, e, r);
    StepObject(l, h.s, e, r);
    ToldOf(l, h, e, r);
    HasAll(Now(h.s, r), h.signed[r], h.answers[r]);
    SomeStays(l, h, e, r, h.s.objects[r]);
    SomeStays(l, h, e, r, Now(h.s, r));
    if Answers(h, e, r) {
      RefreshedHas(h.s.requests[e.req].cp, h.signed[r], h.answers[r], e.tokens);
    } else {
      SameHas(Now(h.s, r), Now(h'.s, r), h.signed[r], h.answers[r]);
    }
    if KeepsTokens(h.s.objects[r], h'.s.objects[r]) {
      SameHas(h.s.objects[r], h'.s.objects[r], h'.signed[r], h'.answers[r]);
    } else {
      SameHas(Now(h.s, r), h'.s.objects[r], h'.signed[r], h'.answers[r]);
    }
  }

  /** What a request comes to carry in a step of its own. */
  lemma {:induction false} StepOwn(l: Lifetime, s: System, e: Event)
    requires Enabled(s, e) && Acts(e) && OwnLock(s, e) && e.req in Step(l, s, e).requests
    ensures var p, p' := s.requests[e.req], Step(l, s, e).requests[e.req];
            && p'.ref == p.ref
            && (p'.Presenting? ==> p'.cp == s.objects[p.ref] == Now(s, p.ref))
            && (p'.Renewed? ==> e.Answer? && p'.cp == Refreshed(p.cp, e.tokens))
            && (p'.Touching? ==> p'.cp == s.objects[p.ref] || ((p.Presenting? || p.Renewed?) && p'.cp == p.cp))
  {
  }

  lemma {:induction false} OwnRequestOk(l: Lifetime, h: Told, e: Event)
    requires Enabled(h.s, e) && Acts(e) && Inv(l, h.s) && e.req in Tell(l, h, e).s.requests
    requires RequestOk(h, h.s.requests[e.req]) && SessionOk(h, h.s.requests[e.req].ref)
    ensures RequestOk(Tell(l, h, e), Tell(l, h, e).s.requests[e.req])
  {
    var h', p := Tell(l, h, e), h.s.requests[e.req];
    var p', r := h'.s.requests[e.req], p.ref;
    StepOwn(l, h.s, e);
    ToldOf(l, h, e, r);
    SomeStays(l, h, e, r, h.s.objects[r]);
    if e.Answer? {
      RefreshedHas(p.cp, h.signed[r], h.answers[r], e.tokens);
      HasAll(p'.cp, h'.signed[r], h'.answers[r]);
    } else if p.Presenting? {
      HasAll(p.cp, h.signed[r], h.answers[r]);
    }
    StepObject(l, h.s, e, r);
  }

  lemma {:induction false} OneAtProvider(s: System, q: Request, q': Request)
    requires Locked(s.holders, s.requests) && q in s.requests && q' in s.requests && s.requests[q].Presenting? && s.requests[q'].Presenting?
    requires q != q'
    ensures s.requests[q].ref != s.requests[q'].ref
  {
  }

  lemma {:induction false} OtherRequestOk(l: Lifetime, h: Told, e: Event, q: Request)
    requires Enabled(h.s, e) && Inv(l, h.s) && q in h.s.requests && (Acts(e) ==> e.req != q) && RequestOk(h, h.s.requests[q])
    ensures q in Tell(l, h, e).s.requests && Tell(l, h, e).s.requests[q] == h.s.requests[q] && RequestOk(Tell(l, h, e), h.s.requests[q])
  {
    var p := h.s.requests[q];
    ToldOf(l, h, e, p.ref);
    StepObject(l, h.s, e, p.ref);
    if p.Touching? || p.Renewed? {
      SomeStays(l, h, e, p.ref, p.cp);
    } else if p.Presenting? && e.Answer? {
      OneAtProvider(h.s, q, e.req);
    }
  }

  /** A request begins with a copy of the object it read. */
  lemma {:induction false} StepBegins(l: Lifetime, s: System, e: Event, q: Request)
    requires Enabled(s, e) && q !in s.requests && q in Step(l, s, e).requests
    ensures e.Read? && e.id in s.table
    ensures var p, r := Step(l, s, e).requests[q], s.table[e.id];
            p.ref == r && !p.Presenting? && !p.Renewed? && (p.Touching? ==> p.cp == s.objects[r])
  {
  }

  lemma {:induction false} NewRequestOk(l: Lifetime, h: Told, e: Event, q: Request)
    requires Enabled(h.s, e) && Inv(l, h.s) && q !in h.s.requests && q in Tell(l, h, e).s.requests
    requires e.Read? && e.id in h.s.table ==> SessionOk(h, h.s.table[e.id])
    ensures RequestOk(Tell(l, h, e), Tell(l, h, e).s.requests[q])
  {
    StepBegins(l, h.s, e, q);
    StepObject(l, h.s, e, h.s.table[e.id]);
  }

  lemma {:induction false} StepReturned(l: Lifetime, s: System, e: Event)
    requires Enabled(s, e)
    ensures Step(l, s, e).returned == s.returned ||
            (e.Touch? && Step(l, s, e).returned == s.returned + [Returned(s.requests[e.req].ref, s.requests[e.req].first,
                                                                          s.requests[e.req].cp.(seen := s.requests[e.req].now), s.requests[e.req].now)])
  {
  }

  lemma {:induction false} StepHandedOk(l: Lifetime, h: Told, e: Event, i: nat)
    requires Enabled(h.s, e) && Inv(l, h.s) && i < |Tell(l, h, e).s.returned|
    requires (i < |h.s.returned| ==> HandedOk(h, h.s.returned[i])) && (Acts(e) ==> RequestOk(h, h.s.requests[e.req]))
    ensures HandedOk(Tell(l, h, e), Tell(l, h, e).s.returned[i])
  {
    var h' := Tell(l, h, e);
    var x := h'.s.returned[i];
    StepReturned(l, h.s, e);
    if i == |h.s.returned| {
      SameHas(h.s.requests[e.req].cp, x.data, h.signed[x.ref], h.answers[x.ref]);
    }
    StepObject(l, h.s, e, x.ref);
    SomeStays(l, h, e, x.ref, x.data);
  }

  lemma {:induction false} StepToldInv(l: Lifetime, h: Told, e: Event)
    requires Enabled(h.s, e) && ToldInv(l, h)
    ensures ToldInv(l, Tell(l, h, e))
  {
    var h' := Tell(l, h, e);
    StepInv(l, h.s, e);
    assert Acts(e) ==> RequestOk(h, h.s.requests[e.req]);
    forall r | r in h'.s.objects ensures SessionOk(h', r) {
      if r in h.s.objects {
        assert SessionOk(h, r);
        StepSessionOk(l, h, e, r);
      } else {
        SignedInOk(l, h, e, r);
      }
    }
    forall q | q in h'.s.requests ensures RequestOk(h', h'.s.requests[q]) {
      StepRequestOk(l, h, e, q);
    }
    forall i | 0 <= i < |h'.s.returned| ensures HandedOk(h', h'.s.returned[i]) {
      assert i < |h.s.returned| ==> HandedOk(h, h.s.returned[i]);
      StepHandedOk(l, h, e, i);
    }
  }

  lemma {:induction false} StepRequestOk(l: Lifetime, h: Told, e: Event, q: Request)
    requires Enabled(h.s, e) && ToldInv(l, h) && q in Tell(l, h, e).s.requests
    ensures RequestOk(Tell(l, h, e), Tell(l, h, e).s.requests[q])
  {
    if q !in h.s.requests {
      assert e.Read? && e.id in h.s.table ==> SessionOk(h, h.s.table[e.id]);
      NewRequestOk(l, h, e, q);
    } else {
      assert RequestOk(h, h.s.requests[q]);
      if Acts(e) && e.req == q {
        assert SessionOk(h, h.s.requests[q].ref);
        OwnRequestOk(l, h, e);
      } else {
        OtherRequestOk(l, h, e, q);
      }
    }
  }

  lemma {:induction false} RunToldInv(l: Lifetime, h: Told, es: seq<Event>, h': Told)
    requires ToldInv(l, h) && ToldRun(l, h, es, h')
    ensures ToldInv(l, h')
    decreases |es|
  {
    if es != [] {
      StepToldInv(l, h, es[0]);
      RunToldInv(l, Tell(l, h, es[0]), es[1..], h');
    }
  }

  // ---- the promises ----------------------------------------------------------------------------------

  /** In every run a session has what its sign-in and the answers to its renewals brought, and no more. */
  lemma {:induction false} TokensAreTheAnswers(l: Lifetime, es: seq<Event>, h: Told, r: Ref)
    requires ToldRun(l, NOTHING, es, h) && r in h.s.objects
    ensures Knows(h, r) && Has(Now(h.s, r), h.signed[r], h.answers[r])
  {
    RunToldInv(l, NOTHING, es, h);
    assert SessionOk(h, r);
  }

  /** And every session handed to a request has what its sign-in and the first so many answers brought. */
  lemma {:induction false} HandedTheAnswers(l: Lifetime, es: seq<Event>, h: Told, i: nat)
    requires ToldRun(l, NOTHING, es, h) && i < |h.s.returned|
    ensures var x := h.s.returned[i]; Knows(h, x.ref) && HasSome(x.data, h.signed[x.ref], h.answers[x.ref])
  {
    RunToldInv(l, NOTHING, es, h);
    assert HandedOk(h, h.s.returned[i]);
  }
}
