/** Whether ending a session leaves a refresh token that still works (internal/authn/oidc.go:378-392, 457-484). */
module SessionEnds {
  import opened Sessions
  import opened SessionRuns

  // ---- which tokens are whose -------------------------------------------------------------------

  /** No session holds another's token, not even one it is about to replace. */
  predicate ApartAt(s: System, a: Ref, b: Ref) {
    a in s.objects && b in s.objects && a != b && s.objects[a].refresh != "" ==> s.objects[a].refresh != Now(s, b).refresh
  }

  ghost predicate Apart(s: System) {
    forall a, b :: ApartAt(s, a, b)
  }

  ghost predicate HeldIssued(s: System) {
    s.revoked <= s.issued && forall r | r in s.objects :: Issued(s.issued, s.objects[r].refresh)
  }

  /** A renewal was answered and not written back yet. */
  predicate Unwritten(s: System, r: Ref) {
    r in s.holders && s.holders[r] in s.requests && s.requests[s.holders[r]].Renewed?
  }

  /** What it was answered is a token of its own. */
  ghost predicate NewTokens(s: System) {
    forall r | r in s.objects && Unwritten(s, r) :: Now(s, r).refresh != "" && Now(s, r).refresh != s.objects[r].refresh
  }

  /** No live session's token is revoked. */
  ghost predicate LiveTokens(s: System) {
    forall r | r in s.objects && Live(s, r) && Now(s, r).refresh != "" :: Now(s, r).refresh !in s.revoked
  }

  ghost predicate EndInv(l: Lifetime, s: System) {
    Inv(l, s) && RotatingInv(s) && Apart(s) && HeldIssued(s) && NewTokens(s) && LiveTokens(s)
  }

  // ---- what every step keeps -----------------------------------------------------------------------

  /** How a step moves the token a session's object holds. */
  lemma {:induction false} StepHolds(l: Lifetime, s: System, e: Event, r: Ref)
    requires Enabled(s, e) && Held(s) && r in Step(l, s, e).objects
    ensures var t := Step(l, s, e).objects[r].refresh;
            if r !in s.objects then e.SignIn? && e.ref == r && t == e.data.refresh
            else t == s.objects[r].refresh || (e.WriteBack? && s.requests[e.req].ref == r && t == Now(s, r).refresh)
  {
  }

  lemma {:induction false} StepGrowsSets(l: Lifetime, s: System, e: Event)
    requires Enabled(s, e)
    ensures s.revoked <= Step(l, s, e).revoked && s.issued <= Step(l, s, e).issued
  {
  }

  /** The id a step may take out of the table. */
  function Dropped(s: System, e: Event): string
    requires Enabled(s, e)
  {
    match e
    case End(id) => id
    case Read(_, id, _) => id
    case Recheck(req, _) => s.objects[s.requests[req].ref].id
    case Refuse(req) => s.requests[req].cp.id
    case _ => ""
  }

  lemma {:induction false} StepDrops(l: Lifetime, s: System, e: Event)
    requires Enabled(s, e)
    ensures var s' := Step(l, s, e); var id := Dropped(s, e);
            s'.revoked == s.revoked || (s'.revoked == s.revoked + Revoking(s, id) && s'.table == s.table - {id})
    ensures var s' := Step(l, s, e); var id := Dropped(s, e);
            forall x | x in s.table && x !in s'.table :: x == id && s'.revoked == s.revoked + Revoking(s, id)
  {
  }

  /** A token newly revoked is one a session held that this step ends. */
  lemma {:induction false} StepRevokes(l: Lifetime, s: System, e: Event, t: string) returns (a: Ref)
    requires Enabled(s, e) && Held(s) && t in Step(l, s, e).revoked && t !in s.revoked
    ensures a in s.objects && Live(s, a) && s.objects[a].refresh == t != ""
    ensures s.objects[a].id !in Step(l, s, e).table
  {
    StepDrops(l, s, e);
    a := s.table[Dropped(s, e)];
  }

  lemma {:induction false} StepApart(l: Lifetime, s: System, e: Event, a: Ref, b: Ref)
    requires Enabled(s, e) && Rotates(s, e) && Held(s) && AllIssued(s) && OwnTokens(s) && HeldIssued(s) && ApartAt(s, a, b)
    ensures ApartAt(Step(l, s, e), a, b)
  {
    var s' := Step(l, s, e);
    if a in s'.objects && b in s'.objects && a != b {
      StepHolds(l, s, e, a);
      StepToken(l, s, e, b);
    }
  }

  lemma {:induction false} StepHeldIssued(l: Lifetime, s: System, e: Event)
    requires Enabled(s, e) && Held(s) && AllIssued(s) && HeldIssued(s)
    ensures HeldIssued(Step(l, s, e))
  {
    var s' := Step(l, s, e);
    StepGrowsSets(l, s, e);
    forall r | r in s'.objects ensures Issued(s'.issued, s'.objects[r].refresh) {
      StepHeldIssuedAt(l, s, e, r);
    }
    forall t | t in s'.revoked ensures t in s'.issued {
      if t !in s.revoked {
        var a := StepRevokes(l, s, e, t);
      }
    }
  }

  lemma {:induction false} StepHeldIssuedAt(l: Lifetime, s: System, e: Event, r: Ref)
    requires Enabled(s, e) && Held(s) && AllIssued(s) && HeldIssued(s) && r in Step(l, s, e).objects
    ensures Issued(Step(l, s, e).issued, Step(l, s, e).objects[r].refresh)
  {
    StepGrowsSets(l, s, e);
    StepHolds(l, s, e, r);
  }

  lemma {:induction false} StepUnwritten(l: Lifetime, s: System, e: Event, r: Ref)
    requires Enabled(s, e) && Held(s) && r in Step(l, s, e).objects && Unwritten(Step(l, s, e), r)
    ensures r in s.objects && Step(l, s, e).objects[r].refresh == s.objects[r].refresh
    ensures Unwritten(s, r) || (e.Answer? && s.requests[e.req].ref == r)
  {
  }

  lemma {:induction false} StepNewToken(l: Lifetime, s: System, e: Event, r: Ref)
    requires Enabled(s, e) && Rotates(s, e) && Held(s) && HeldIssued(s) && NewTokens(s)
    requires r in Step(l, s, e).objects && Unwritten(Step(l, s, e), r)
    ensures var s' := Step(l, s, e); Now(s', r).refresh != "" && Now(s', r).refresh != s'.objects[r].refresh
  {
    StepUnwritten(l, s, e, r);
    StepToken(l, s, e, r);
  }

  lemma {:induction false} AnswerRevokesNothing(l: Lifetime, s: System, e: Event)
    requires Enabled(s, e) && e.Answer?
    ensures Step(l, s, e).revoked == s.revoked
  {
  }

  /** This step brings the session a token. */
  predicate Brings(s: System, e: Event, r: Ref)
    requires Enabled(s, e)
  {
    e.Answer? && s.requests[e.req].ref == r
  }

  /** A token brought by a rotating provider was never revoked. */
  lemma {:induction false} BroughtIsNew(l: Lifetime, s: System, e: Event, r: Ref)
    requires Enabled(s, e) && Rotates(s, e) && Held(s) && HeldIssued(s) && r in s.objects && Brings(s, e, r)
    ensures r in Step(l, s, e).objects && Now(Step(l, s, e), r).refresh != "" && Now(Step(l, s, e), r).refresh !in Step(l, s, e).revoked
  {
    StepNow(l, s, e, r);
    AnswerRevokesNothing(l, s, e);
  }

  lemma {:induction false} OneHolder(s: System, a: Ref, r: Ref)
    requires Apart(s) && a in s.objects && r in s.objects && s.objects[a].refresh == Now(s, r).refresh != ""
    ensures a == r
  {
    assert ApartAt(s, a, r);
  }

  /** A session's token is revoked by a step only if the step ends that session. */
  lemma {:induction false} StepSpares(l: Lifetime, s: System, e: Event, r: Ref)
    requires Enabled(s, e) && Held(s) && Apart(s) && r in s.objects && !Brings(s, e, r)
    requires Now(s, r).refresh !in s.revoked && (Live(s, r) ==> s.objects[r].id in Step(l, s, e).table)
    ensures r in Step(l, s, e).objects && Now(Step(l, s, e), r).refresh == Now(s, r).refresh
    ensures Now(s, r).refresh !in Step(l, s, e).revoked
  {
    StepNow(l, s, e, r);
    if Now(s, r).refresh in Step(l, s, e).revoked {
      var a := StepRevokes(l, s, e, Now(s, r).refresh);
      OneHolder(s, a, r);
    }
  }

  lemma {:induction false} StepLive(l: Lifetime, s: System, e: Event, r: Ref)
    requires Enabled(s, e) && Inv(l, s) && r in s.objects
    ensures r in Step(l, s, e).objects && Step(l, s, e).objects[r].id == s.objects[r].id
    ensures Live(Step(l, s, e), r) ==> Live(s, r)
  {
    StepKeepsSignIns(l, s, e, r);
    if Live(Step(l, s, e), r) {
      StepTable(l, s, e, s.objects[r].id);
    }
  }

  lemma {:induction false} StepLiveToken(l: Lifetime, s: System, e: Event, r: Ref)
    requires Enabled(s, e) && Rotates(s, e) && EndInv(l, s) && r in Step(l, s, e).objects && Live(Step(l, s, e), r) && Now(Step(l, s, e), r).refresh != ""
    ensures Now(Step(l, s, e), r).refresh !in Step(l, s, e).revoked
  {
    if r !in s.objects {
      SignInIsNew(l, s, e, r);
    } else if Brings(s, e, r) {
      BroughtIsNew(l, s, e, r);
    } else {
      StepLive(l, s, e, r);
      StepNow(l, s, e, r);
      StepSpares(l, s, e, r);
    }
  }

  lemma {:induction false} SignInIsNew(l: Lifetime, s: System, e: Event, r: Ref)
    requires Enabled(s, e) && Rotates(s, e) && Held(s) && HeldIssued(s) && r !in s.objects && r in Step(l, s, e).objects
    ensures Now(Step(l, s, e), r).refresh == "" || Now(Step(l, s, e), r).refresh !in Step(l, s, e).revoked
  {
    StepToken(l, s, e, r);
  }

  lemma {:induction false} StepEndInv(l: Lifetime, s: System, e: Event)
    requires Enabled(s, e) && Rotates(s, e) && EndInv(l, s)
    ensures EndInv(l, Step(l, s, e))
  {
    var s' := Step(l, s, e);
    StepInv(l, s, e);
    StepAllIssued(l, s, e);
    StepOwnTokens(l, s, e);
    StepSpent(l, s, e);
    StepShownOnce(l, s, e);
    StepHeldIssued(l, s, e);
    forall a, b ensures ApartAt(s', a, b) {
      assert ApartAt(s, a, b);
      StepApart(l, s, e, a, b);
    }
    forall r | r in s'.objects && Unwritten(s', r) ensures Now(s', r).refresh != "" && Now(s', r).refresh != s'.objects[r].refresh {
      StepNewToken(l, s, e, r);
    }
    forall r | r in s'.objects && Live(s', r) && Now(s', r).refresh != "" ensures Now(s', r).refresh !in s'.revoked {
      StepLiveToken(l, s, e, r);
    }
  }

  lemma {:induction false} RunEndInv(l: Lifetime, s: System, es: seq<Event>, s': System)
    requires EndInv(l, s) && RotatingRun(l, s, es, s')
    ensures EndInv(l, s')
    decreases |es|
  {
    if es != [] {
      StepEndInv(l, s, es[0]);
      RunEndInv(l, Step(l, s, es[0]), es[1..], s');
    }
  }

  // ---- the promise ---------------------------------------------------------------------------------

  /** The session's last refresh token, if it has one, was given back. */
  predicate GivenBack(s: System, r: Ref)
    requires r in s.objects
  {
    Now(s, r).refresh == "" || Now(s, r).refresh in s.revoked
  }

  /** Some step of the run brings the session a token. */
  ghost predicate BroughtIn(l: Lifetime, s: System, es: seq<Event>, r: Ref)
    decreases |es|
  {
    es != [] && Enabled(s, es[0]) && (Brings(s, es[0], r) || BroughtIn(l, Step(l, s, es[0]), es[1..], r))
  }

  /** Ending a session asks for the token its object holds to be revoked. */
  lemma {:induction false} EndRevokes(l: Lifetime, s: System, e: Event, r: Ref)
    requires Enabled(s, e) && r in s.objects && Live(s, r) && s.objects[r].id !in Step(l, s, e).table
    ensures Step(l, s, e).revoked == s.revoked + if s.objects[r].refresh != "" then {s.objects[r].refresh} else {}
  {
    StepDrops(l, s, e);
  }

  lemma {:induction false} EndKeepsToken(l: Lifetime, s: System, e: Event, r: Ref)
    requires Enabled(s, e) && LockOf(s, r) && OwnLock(s, e) && r in s.objects && Live(s, r) && s.objects[r].id !in Step(l, s, e).table
    ensures r in Step(l, s, e).objects && Now(Step(l, s, e), r).refresh == Now(s, r).refresh
  {
    EndingBringsNothing(l, s, e, r);
    StepNow(l, s, e, r);
  }

  lemma {:induction false} WrittenIsNow(s: System, r: Ref)
    requires r in s.objects && LockOf(s, r) && !Unwritten(s, r)
    ensures Now(s, r).refresh == s.objects[r].refresh
  {
  }

  /** The step that ends a session gives back the token its object holds, which is its last unless one was not written back yet. */
  lemma {:induction false} EndingGivesBack(l: Lifetime, s: System, e: Event, r: Ref)
    requires Enabled(s, e) && Held(s) && NewTokens(s) && LiveTokens(s) && r in s.objects && Live(s, r)
    requires s.objects[r].id !in Step(l, s, e).table
    ensures r in Step(l, s, e).objects && (GivenBack(Step(l, s, e), r) <==> !Unwritten(s, r))
  {
    EndRevokes(l, s, e, r);
    EndKeepsToken(l, s, e, r);
    if !Unwritten(s, r) {
      WrittenIsNow(s, r);
    }
  }

  lemma {:induction false} EndingBringsNothing(l: Lifetime, s: System, e: Event, r: Ref)
    requires Enabled(s, e) && r in s.objects && Live(s, r) && s.objects[r].id !in Step(l, s, e).table
    ensures !Brings(s, e, r)
  {
  }

  lemma {:induction false} EndedStep(l: Lifetime, s: System, e: Event, r: Ref)
    requires Enabled(s, e) && Rotates(s, e) && EndInv(l, s) && r in s.objects && !Live(s, r)
    ensures r in Step(l, s, e).objects && !Live(Step(l, s, e), r)
    ensures GivenBack(Step(l, s, e), r) <==> GivenBack(s, r) && !Brings(s, e, r)
  {
    StepLive(l, s, e, r);
    if Brings(s, e, r) {
      BroughtIsNew(l, s, e, r);
    } else if GivenBack(s, r) {
      StepNow(l, s, e, r);
      StepGrowsSets(l, s, e);
    } else {
      StepSpares(l, s, e, r);
    }
  }

  lemma {:induction false} EndedRun(l: Lifetime, s: System, es: seq<Event>, s': System, r: Ref)
    requires EndInv(l, s) && RotatingRun(l, s, es, s') && r in s.objects && !Live(s, r)
    ensures r in s'.objects && (GivenBack(s', r) <==> GivenBack(s, r) && !BroughtIn(l, s, es, r))
    decreases |es|
  {
    if es != [] {
      EndedStep(l, s, es[0], r);
      StepEndInv(l, s, es[0]);
      EndedRun(l, Step(l, s, es[0]), es[1..], s', r);
    }
  }

  /**
   With a provider that rotates refresh tokens, in every run: after a session ended, by whatever step,
   its last refresh token is one that was given back if and only if no renewal of it was answered and
   not yet written back when it ended, and none was answered since.
   */
  lemma {:induction false} GivenBackIff(l: Lifetime, past: seq<Event>, s: System, e: Event, es: seq<Event>, s': System, r: Ref)
    requires RotatingRun(l, NOBODY, past, s) && r in s.objects && Live(s, r)
    requires Enabled(s, e) && Rotates(s, e) && s.objects[r].id !in Step(l, s, e).table && RotatingRun(l, Step(l, s, e), es, s')
    ensures r in s'.objects && (GivenBack(s', r) <==> !Unwritten(s, r) && !BroughtIn(l, Step(l, s, e), es, r))
  {
    RunEndInv(l, NOBODY, past, s);
    EndingGivesBack(l, s, e, r);
    StepLive(l, s, e, r);
    StepEndInv(l, s, e);
    EndedRun(l, Step(l, s, e), es, s', r);
  }

  // ---- and when it is sure ----------------------------------------------------------------------

  /** No renewal of the session is at the provider. */
  ghost predicate NoneAsked(s: System, r: Ref) {
    forall q | q in s.requests && s.requests[q].ref == r :: !s.requests[q].Presenting?
  }

  lemma {:induction false} EndedAsksNothing(l: Lifetime, s: System, e: Event, r: Ref)
    requires Enabled(s, e) && r in s.objects && !Live(s, r) && NoneAsked(s, r)
    ensures NoneAsked(Step(l, s, e), r) && !Brings(s, e, r)
  {
  }

  lemma {:induction false} EndedBringsNothing(l: Lifetime, s: System, es: seq<Event>, s': System, r: Ref)
    requires EndInv(l, s) && RotatingRun(l, s, es, s') && r in s.objects && !Live(s, r) && NoneAsked(s, r)
    ensures !BroughtIn(l, s, es, r)
    decreases |es|
  {
    if es != [] {
      EndedAsksNothing(l, s, es[0], r);
      StepLive(l, s, es[0], r);
      StepEndInv(l, s, es[0]);
      EndedBringsNothing(l, Step(l, s, es[0]), es[1..], s', r);
    }
  }

  /** So a session that ends with no renewal at the provider or unwritten never has a token left that was not given back. */
  lemma {:induction false} QuietEndGivesBack(l: Lifetime, past: seq<Event>, s: System, e: Event, es: seq<Event>, s': System, r: Ref)
    requires RotatingRun(l, NOBODY, past, s) && r in s.objects && Live(s, r) && !Unwritten(s, r)
    requires Enabled(s, e) && Rotates(s, e) && NoneAsked(Step(l, s, e), r) && s.objects[r].id !in Step(l, s, e).table && RotatingRun(l, Step(l, s, e), es, s')
    ensures r in s'.objects && GivenBack(s', r)
  {
    GivenBackIff(l, past, s, e, es, s', r);
    RunEndInv(l, NOBODY, past, s);
    StepLive(l, s, e, r);
    StepEndInv(l, s, e);
    EndedBringsNothing(l, Step(l, s, e), es, s', r);
  }

  // ---- and when it is not -----------------------------------------------------------------------

  lemma {:induction false} RotatingMore(l: Lifetime, s: System, e: Event, es: seq<Event>, s': System)
    requires Enabled(s, e) && Rotates(s, e) && RotatingRun(l, Step(l, s, e), es, s')
    ensures RotatingRun(l, s, [e] + es, s')
  {
    assert ([e] + es)[1..] == es;
  }

  /** Signed in, and its renewal at the provider. */
  function Asking(d: Data, now: int): System {
    System(map[0 := d], map[d.id := 0], map[0 := 1], map[1 := Presenting(0, now, d, d, 0)], {d.refresh}, {}, [Presented(d.refresh, 0, 1, now, Awaited)], [])
  }

  lemma {:induction false} Asks(l: Lifetime, d: Data, now: int, es: seq<Event>, s: System)
    requires d.refresh != "" && Stale(d, now) && !l.Expired(d.created, d.seen, now) && RotatingRun(l, Asking(d, now), es, s)
    ensures RotatingRun(l, NOBODY, [SignIn(0, d)] + ([Read(1, d.id, now)] + ([Acquire(1)] + ([Recheck(1, true)] + es))), s)
  {
    var s1 := Step(l, NOBODY, SignIn(0, d));
    assert s1 == System(map[0 := d], map[d.id := 0], map[], map[], {d.refresh}, {}, [], []);
    var s2 := Step(l, s1, Read(1, d.id, now));
    assert s2 == s1.(requests := map[1 := Waiting(0, now, d)]);
    var s3 := Step(l, s2, Acquire(1));
    assert s3 == s1.(requests := map[1 := Holding(0, now, d)], holders := map[0 := 1]);
    var s4 := Step(l, s3, Recheck(1, true));
    assert s4 == Asking(d, now);
    RotatingMore(l, s3, Recheck(1, true), es, s);
    RotatingMore(l, s2, Acquire(1), [Recheck(1, true)] + es, s);
    RotatingMore(l, s1, Read(1, d.id, now), [Acquire(1)] + ([Recheck(1, true)] + es), s);
    RotatingMore(l, NOBODY, SignIn(0, d), [Read(1, d.id, now)] + ([Acquire(1)] + ([Recheck(1, true)] + es)), s);
  }

  /** A session ended while its renewal is at the provider: the answer brings it a token nobody gives back. */
  lemma {:induction false} LateTokenStays(l: Lifetime, d: Data, t: Tokens, now: int) returns (s: System)
    requires d.refresh != "" && Stale(d, now) && !l.Expired(d.created, d.seen, now)
    requires t.refresh != "" && t.refresh != d.refresh && t.expiry >= now
    ensures RotatingRun(l, NOBODY, [SignIn(0, d)] + ([Read(1, d.id, now)] + ([Acquire(1)] + ([Recheck(1, true)] + ([End(d.id)] + [Answer(1, t)])))), s)
    ensures 0 in s.objects && !Live(s, 0) && !GivenBack(s, 0)
  {
    var s1 := Step(l, Asking(d, now), End(d.id));
    assert s1.table == map[] && s1.revoked == {d.refresh};
    s := Step(l, s1, Answer(1, t));
    assert Now(s, 0).refresh == t.refresh;
    RotatingMore(l, s1, Answer(1, t), [], s);
    RotatingMore(l, Asking(d, now), End(d.id), [Answer(1, t)], s);
    Asks(l, d, now, [End(d.id)] + [Answer(1, t)], s);
  }
}
