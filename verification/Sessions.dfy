/**
 Signed-in sessions (internal/authn/oidc.go): their lifetime, their renewal with a refresh token
 and the table that holds them, one lock region at a time.
 */
module Sessions {
  import opened Basics

  // times are in seconds
  const IDLE_TIMEOUT := 3600
  const ABSOLUTE_TIMEOUT := 43200
  const REFRESH_MARGIN := 60

  /** Zero is the default. */
  datatype Lifetime = Lifetime(idle: int, max: int) {
    function Idle(): int { if idle != 0 then idle else IDLE_TIMEOUT }

    function Max(): int { if max != 0 then max else ABSOLUTE_TIMEOUT }

    /** Within a lifetime since sign-in, and seen not too long ago. */
    predicate Within(created: int, seen: int, now: int) {
      now <= created + (if max == 0 then 43200 else max) && now <= seen + (if idle == 0 then 3600 else idle)
    }

    predicate Expired(created: int, seen: int, now: int) {
      now - created > Max() || now - seen > Idle()
    }
  }

  /** The fields of a session; `csrf` is the token its mutating requests carry. */
  datatype Data = Data(id: string, idToken: string, refresh: string, expiry: int, created: int, seen: int,
                       person: string, subject: string, authTime: int, csrf: string)

  /** What a refresh brings back. `named` says whether the cluster itself named the person. */
  datatype Tokens = Tokens(idToken: string, expiry: int, refresh: string, subject: string, person: string, named: bool)

  /** A refresh applied to a copy of the session. */
  function Refreshed(d: Data, t: Tokens): (r: Data)
    ensures SameSignIn(d, r) && r.seen == d.seen
    ensures TakesAnswer(d, t, r)
  {
    var d1 := d.(idToken := t.idToken, expiry := t.expiry);
    var d2 := if t.named || t.subject != d.subject then d1.(person := t.person, subject := t.subject) else d1;
    if t.refresh != "" then d2.(refresh := t.refresh) else d2
  }

  /** What renewal writes back: four fields and no others. */
  function WrittenBack(d: Data, cp: Data): Data {
    d.(idToken := cp.idToken, refresh := cp.refresh, expiry := cp.expiry, person := cp.person)
  }

  /** The fields a sign-in fixes for good. */
  predicate SameSignIn(d: Data, d': Data) {
    d.id == d'.id && d.created == d'.created && d.authTime == d'.authTime && d.csrf == d'.csrf
  }

  /** The answer's ID token and expiry; its refresh token if it brought one; its person if the cluster named one or the subject is another. */
  predicate TakesAnswer(d: Data, t: Tokens, x: Data) {
    && x.idToken == t.idToken && x.expiry == t.expiry
    && x.refresh == (if t.refresh == "" then d.refresh else t.refresh)
    && x.person == (if t.named || d.subject != t.subject then t.person else d.person)
  }

  predicate KeepsTokens(d: Data, x: Data) {
    x.idToken == d.idToken && x.expiry == d.expiry && x.refresh == d.refresh && x.person == d.person
  }

  predicate Stale(d: Data, now: int) {
    d.expiry - now < REFRESH_MARGIN
  }

  // ---- the objects ------------------------------------------------------------------------

  class Session {
    var id: string
    var idToken: string
    var refresh: string
    var expiry: int
    var created: int
    var seen: int
    var person: string
    var subject: string
    var authTime: int
    var csrf: string

    constructor (d: Data)
      ensures Copy() == d
    {
      id, idToken, refresh, expiry, created := d.id, d.idToken, d.refresh, d.expiry, d.created;
      seen, person, subject, authTime, csrf := d.seen, d.person, d.subject, d.authTime, d.csrf;
    }

    function Copy(): Data
      reads this
    {
      Data(id, idToken, refresh, expiry, created, seen, person, subject, authTime, csrf)
    }

    method WriteBack(cp: Data)
      modifies this
      ensures Copy() == WrittenBack(old(Copy()), cp)
    {
      idToken, refresh, expiry, person := cp.idToken, cp.refresh, cp.expiry, cp.person;
    }

    method Touch(now: int)
      modifies this`seen
      ensures Copy() == old(Copy()).(seen := now)
    {
      seen := now;
    }
  }

  class Table {
    const lifetime: Lifetime
    var sessions: map<string, Session>
    var revoked: set<string> // the refresh tokens whose revocation was asked for

    constructor (lifetime: Lifetime)
      ensures this.lifetime == lifetime && sessions == map[] && revoked == {}
    {
      this.lifetime := lifetime;
      sessions, revoked := map[], {};
    }

    ghost predicate Valid()
      reads this, sessions.Values
    {
      && (forall id | id in sessions :: sessions[id].id == id)
      && (forall a, b | a in sessions && b in sessions && a != b :: sessions[a] != sessions[b])
    }

    /** The end of a sign-in: the only place a session joins the table. */
    method Add(d: Data) returns (s: Session)
      requires Valid() && d.id !in sessions
      modifies this
      ensures Valid() && fresh(s) && s.Copy() == d && sessions == old(sessions)[d.id := s] && revoked == old(revoked)
    {
      s := new Session(d);
      sessions := sessions[d.id := s];
    }

    /** The tokens these sessions hold. */
    ghost function Held(ids: set<string>): set<string>
      reads this, sessions.Values
    {
      set id | id in ids && id in sessions && sessions[id].refresh != "" :: sessions[id].refresh
    }

    /** Ends a session and asks for its refresh token, if it has one, to be revoked. */
    method End(id: string)
      requires Valid()
      modifies this
      ensures Valid() && sessions == old(sessions) - {id} && revoked == old(revoked) + old(Held({id}))
    {
      if id in sessions && sessions[id].refresh != "" {
        revoked := revoked + {sessions[id].refresh};
      }
      sessions := sessions - {id};
    }

    /** The sessions past their idle or absolute limit. */
    method FindExpired(now: int) returns (gone: set<string>)
      ensures gone == set id | id in sessions && lifetime.Expired(sessions[id].created, sessions[id].seen, now)
    {
      gone := {};
      var todo := sessions.Keys;
      while todo != {}
        invariant todo <= sessions.Keys
        invariant gone == set id | id in sessions && id !in todo && lifetime.Expired(sessions[id].created, sessions[id].seen, now)
        decreases todo
      {
        var id :| id in todo;
        if lifetime.Expired(sessions[id].created, sessions[id].seen, now) {
          gone := gone + {id};
        }
        todo := todo - {id};
      }
    }

    method EndAll(ids: set<string>)
      requires Valid()
      modifies this
      ensures Valid() && sessions == old(sessions) - ids && revoked == old(revoked) + old(Held(ids))
    {
      var gone := ids;
      while gone != {}
        invariant Valid() && gone <= ids
        invariant sessions == old(sessions) - (ids - gone) && revoked == old(revoked) + old(Held(ids - gone))
        decreases gone
      {
        var id :| id in gone;
        End(id);
        assert ids - (gone - {id}) == (ids - gone) + {id};
        gone := gone - {id};
      }
      assert ids - gone == ids;
    }

    /** Ends every session past its idle or absolute limit and no other, and asks for their tokens to be revoked. */
    method Sweep(now: int)
      requires Valid()
      modifies this
      ensures Valid()
      ensures sessions == map id | id in old(sessions) &&
                                   lifetime.Within(old(sessions)[id].created, old(sessions)[id].seen, now) :: old(sessions)[id]
      ensures revoked == old(revoked) + old(Held(set id | id in sessions && !lifetime.Within(sessions[id].created, sessions[id].seen, now)))
    {
      var gone := FindExpired(now);
      EndAll(gone);
    }

    /**
     A copy of the live session, renewed first when its ID token is about to expire; `reply` is
     what the identity provider answers if it is asked. With nobody else at work in between.
     */
    method Get(id: string, now: int, reply: Option<Tokens>) returns (r: Option<Data>)
      requires Valid()
      modifies this, sessions.Values
      ensures Valid()
      ensures sessions.Keys <= old(sessions.Keys) && forall k | k in sessions :: sessions[k] == old(sessions)[k]
      ensures forall k | k in sessions && k != id :: sessions[k].Copy() == old(sessions[k].Copy())
      ensures id !in old(sessions) ==> r.None? && sessions == old(sessions)
      ensures id in old(sessions) ==> var d := old(sessions[id].Copy());
                r == Served(lifetime, d, now, reply) &&
                (if r.Some? then id in sessions && sessions[id].Copy() == Kept(d, now, reply) else sessions == old(sessions) - {id})
      ensures id in old(sessions) ==> var d := old(sessions[id].Copy());
                && (r.None? <==> !lifetime.Within(d.created, d.seen, now) || (!Renews(d, now, reply) && now > d.expiry))
                && (r.Some? && Renews(d, now, reply) ==> TakesAnswer(d, reply.value, r.value) && TakesAnswer(d, reply.value, sessions[id].Copy()))
                && (r.Some? && !Renews(d, now, reply) ==> KeepsTokens(d, r.value) && KeepsTokens(d, sessions[id].Copy()))
      ensures revoked == old(revoked) + if r.None? then old(Held({id})) else {}
    {
      if id !in sessions {
        return None;
      }
      var s := sessions[id];
      var cp := s.Copy();
      if lifetime.Expired(cp.created, cp.seen, now) {
        End(id);
        return None;
      }
      if Stale(cp, now) {
        if cp.refresh == "" || reply.None? {
          if now > cp.expiry {
            End(id);
            return None;
          }
        } else {
          cp := Refreshed(cp, reply.value);
          s.WriteBack(cp);
        }
      }
      s.Touch(now);
      return Some(cp.(seen := now));
    }
  }

  /** Within a minute of its expiry, with a refresh token the provider answers to. */
  predicate Renews(d: Data, now: int, reply: Option<Tokens>) {
    now + 60 > d.expiry && d.refresh != "" && reply.Some?
  }

  /** What a request gets: nothing once the limits passed, or the session with a current ID token if there is one. */
  function Served(l: Lifetime, d: Data, now: int, reply: Option<Tokens>): (r: Option<Data>)
    ensures r.Some? ==> !l.Expired(d.created, d.seen, now) && SameSignIn(d, r.value) && r.value.seen == now
    ensures r.Some? ==> r.value.expiry >= now || Renews(d, now, reply)
  {
    if l.Expired(d.created, d.seen, now) then None
    else if Renews(d, now, reply) then Some(Refreshed(d, reply.value).(seen := now))
    else if Stale(d, now) && now > d.expiry then None
    else Some(d.(seen := now))
  }

  /** What the table holds after it was served. */
  function Kept(d: Data, now: int, reply: Option<Tokens>): Data {
    (if Renews(d, now, reply) then WrittenBack(d, Refreshed(d, reply.value)) else d).(seen := now)
  }
}
