/** Each step of the login protocol keeps the invariant (`webapi/auth.go`). */
module AuthTheorems {
  import opened Wrappers
  import opened Sets
  import opened AuthModel

  // ------------------------------------------------------------- only removals

  ghost predicate Submap<V>(small: map<string, V>, big: map<string, V>)
  {
    forall k :: k in small ==> k in big && small[k] == big[k]
  }

  lemma KeepIsSubmap<V>(m: map<string, V>, keep: V -> bool)
    ensures Submap(Keep(m, keep), m) && |Keep(m, keep)| <= |m|
  {
    assert Keep(m, keep).Keys <= m.Keys;
    SubsetSize(Keep(m, keep).Keys, m.Keys);
    assert |Keep(m, keep)| == |Keep(m, keep).Keys| && |m| == |m.Keys|;
  }

  /** `b` is `a` with grants, sessions or nonces removed. */
  ghost predicate Shrinks(b: Auth, a: Auth)
  {
    && Submap(b.grants, a.grants) && |b.grants| <= |a.grants|
    && Submap(b.nonces, a.nonces) && |b.nonces| <= |a.nonces|
    && Submap(b.sessions, a.sessions)
    && b.epochs == a.epochs
  }

  lemma ShrinkKeepsFlights(flights: map<Thread, Flight>, a: Auth, b: Auth, drawn: set<Digest>)
    requires FlightsInv(flights, a, drawn) && Shrinks(b, a)
    ensures FlightsInv(flights, b, drawn)
  {
    forall t | t in flights
      ensures FlightInv(flights[t], b, drawn)
    {
      assert FlightInv(flights[t], a, drawn);
    }
  }

  lemma ShrinkKeeps(w: World, b: Auth)
    requires Core(w) && Shrinks(b, w.auth)
    ensures Core(w.(auth := b))
  {
    ShrinkKeepsFlights(w.flights, w.auth, b, w.drawn);
    hide FlightsInv;
  }

  lemma PruneShrinks(a: Auth, now: Time)
    ensures Shrinks(Prune(a, now), a)
  {
    KeepIsSubmap(a.grants, LiveGrant(now));
    KeepIsSubmap(a.nonces, LiveNonce(now));
    KeepIsSubmap(a.sessions, LiveSession(now));
    hide Keep;
  }

  lemma PruneKeeps(w: World, now: Time)
    requires Inv(w) && w.clock <= now
    ensures Inv(w.(auth := Prune(w.auth, now), clock := now))
  {
    PruneShrinks(w.auth, now);
    ShrinkKeeps(w, Prune(w.auth, now));
    assert IssueInv(Prune(w.auth, now).issued, w.lastIssue, now);
    hide Prune, IssueInv, DrawnInv, GrantInv, EpochInv, FlightsInv, LoginInv, VerdictInv, Shrinks;
  }

  lemma LaterKeepsIssue(issued: map<User, Time>, lastIssue: map<User, Time>, clock: Time, later: Time)
    requires IssueInv(issued, lastIssue, clock) && clock <= later
    ensures IssueInv(issued, lastIssue, later)
  {
  }

  // ----------------------------------------------------------------- additions

  lemma DrawKeeps(w: World, token: Digest)
    requires Core(w)
    ensures Core(w.(drawn := w.drawn + {token}))
  {
    hide GrantInv, EpochInv, VerdictInv;
    forall t | t in w.flights
      ensures FlightInv(w.flights[t], w.auth, w.drawn + {token})
    {
      assert FlightInv(w.flights[t], w.auth, w.drawn);
    }
  }

  lemma AddGrantKeeps(w: World, token: Digest, g: Grant)
    requires Core(w) && token !in w.drawn && |w.auth.grants| < MAX_GRANTS
    requires forall k :: k in w.auth.grants ==> w.auth.grants[k].user != g.user
    ensures Core(w.(auth := w.auth.(grants := w.auth.grants[token := g]), drawn := w.drawn + {token}))
  {
    DrawKeeps(w, token);
    var b := w.auth.(grants := w.auth.grants[token := g]);
    forall t | t in w.flights
      ensures FlightInv(w.flights[t], b, w.drawn + {token})
    {
      assert FlightInv(w.flights[t], w.auth, w.drawn);
    }
    assert LoginInv(w.logins, b, w.drawn + {token});
    hide EpochInv, VerdictInv, LoginInv, FlightInv;
  }

  lemma AddNonceKeeps(w: World, token: Digest, expires: Time)
    requires Core(w) && token !in w.drawn && |w.auth.nonces| < MAX_NONCES
    ensures Core(w.(auth := w.auth.(nonces := w.auth.nonces[token := expires]), drawn := w.drawn + {token}))
  {
    DrawKeeps(w, token);
    var b := w.auth.(nonces := w.auth.nonces[token := expires]);
    forall t | t in w.flights
      ensures FlightInv(w.flights[t], b, w.drawn + {token})
    {
      assert FlightInv(w.flights[t], w.auth, w.drawn);
    }
    assert LoginInv(w.logins, b, w.drawn + {token});
    hide EpochInv, VerdictInv, LoginInv, FlightInv;
  }

  lemma AddSessionKeeps(w: World, token: Digest, s: Session)
    requires Core(w) && token !in w.drawn && s.epoch == EpochOf(w.auth.epochs, s.actor.id)
    ensures Core(w.(auth := w.auth.(sessions := w.auth.sessions[token := s]), drawn := w.drawn + {token},
                    verdicts := w.verdicts[token := {(s.checked, s.actor)}]))
  {
    DrawKeeps(w, token);
    var b := w.auth.(sessions := w.auth.sessions[token := s]);
    forall t | t in w.flights
      ensures FlightInv(w.flights[t], b, w.drawn + {token})
    {
      assert FlightInv(w.flights[t], w.auth, w.drawn);
    }
    assert EpochInv(b.sessions, b.epochs);
    assert VerdictInv(b.sessions, w.verdicts[token := {(s.checked, s.actor)}]);
    assert LoginInv(w.logins, b, w.drawn + {token});
    hide EpochInv, VerdictInv, LoginInv, FlightInv, GrantInv;
  }

  lemma DropFlight(w: World, t: Thread)
    requires Core(w)
    ensures Core(w.(flights := w.flights - {t}))
  {
    hide DrawnInv, GrantInv, EpochInv, LoginInv, VerdictInv, FlightInv;
  }

  lemma AddFlight(w: World, t: Thread, f: Flight)
    requires Core(w) && FlightInv(f, w.auth, w.drawn)
    ensures Core(w.(flights := w.flights[t := f]))
  {
    hide DrawnInv, GrantInv, EpochInv, LoginInv, VerdictInv, FlightInv;
  }

  /** A login uses up its grant and its nonce. */
  lemma UseUpKeeps(w: World, grant: Digest, nonce: Digest, key: Digest)
    requires Core(w) && grant in w.auth.grants && nonce in w.auth.nonces && key in w.drawn
    requires forall i :: 0 <= i < |w.logins| ==> w.logins[i].key != key
    ensures Core(w.(auth := w.auth.(grants := w.auth.grants - {grant}, nonces := w.auth.nonces - {nonce}),
                    logins := w.logins + [Login(grant, nonce, key)]))
  {
    var b := w.auth.(grants := w.auth.grants - {grant}, nonces := w.auth.nonces - {nonce});
    RemoveIsSmall(w.auth.grants, grant);
    RemoveIsSmall(w.auth.nonces, nonce);
    ShrinkKeeps(w, b);
    var logins := w.logins + [Login(grant, nonce, key)];
    assert LoginInv(w.logins, w.auth, w.drawn) && DrawnInv(w.auth, w.drawn);
    forall i, j | 0 <= i < j < |logins|
      ensures logins[i].grant != logins[j].grant && logins[i].nonce != logins[j].nonce && logins[i].key != logins[j].key
    {
      if j < |w.logins| {
        assert logins[i] == w.logins[i] && logins[j] == w.logins[j];
      } else {
        assert logins[i] == w.logins[i];
      }
    }
    assert LoginInv(logins, b, w.drawn);
    hide GrantInv, EpochInv, FlightsInv, LoginInv, VerdictInv, DrawnInv;
  }

  lemma RemoveIsSmall<V>(m: map<string, V>, k: string)
    ensures Submap(m - {k}, m) && |m - {k}| <= |m|
  {
    assert (m - {k}).Keys <= m.Keys;
    SubsetSize((m - {k}).Keys, m.Keys);
    assert |m - {k}| == |(m - {k}).Keys| && |m| == |m.Keys|;
  }

  // -------------------------------------------------------------------- revoke

  lemma RevokeKeepsFlights(flights: map<Thread, Flight>, a: Auth, drawn: set<Digest>, user: User)
    requires FlightsInv(flights, a, drawn)
    ensures FlightsInv(MarkRevoked(flights, user), Revoked(a, user), drawn)
  {
    forall t | t in flights
      ensures FlightInv(MarkRevoked(flights, user)[t], Revoked(a, user), drawn)
    {
      assert FlightInv(flights[t], a, drawn);
    }
  }

  lemma RevokeKeeps(w: World, user: User)
    requires Inv(w)
    ensures Inv(ApplyRevoke(w, user))
  {
    var b := Revoked(w.auth, user);
    KeepIsSubmap(w.auth.grants, OtherGrant(user));
    KeepIsSubmap(w.auth.sessions, OtherSession(user));
    RevokeKeepsFlights(w.flights, w.auth, w.drawn, user);
    assert EpochInv(b.sessions, b.epochs);
    hide EpochInv;
    var c := b.(epochs := w.auth.epochs);
    assert Shrinks(c, w.auth);
    ShrinkKeeps(w, c);
    assert LoginInv(w.logins, b, w.drawn) by { assert LoginInv(w.logins, c, w.drawn); }
    hide FlightsInv, LoginInv, VerdictInv, GrantInv, IssueInv, Shrinks;
  }

  // ------------------------------------------------------------- check, commit

  /** Storing what a check brings back. */
  lemma MergeKeeps(w: World, key: Digest, mine: Session, touch: bool, stamp: Time)
    requires Core(w) && key in w.auth.sessions && mine.actor.id == w.auth.sessions[key].actor.id
    ensures var s := Merged(w.auth.sessions[key], mine, touch, stamp);
      Core(w.(auth := w.auth.(sessions := w.auth.sessions[key := s]),
              verdicts := w.verdicts[key := VerdictsOf(w, key) + {(mine.checked, mine.actor)}]))
  {
    var current := w.auth.sessions[key];
    var s := Merged(current, mine, touch, stamp);
    var b := w.auth.(sessions := w.auth.sessions[key := s]);
    assert s.actor.id == current.actor.id && s.epoch == current.epoch;
    assert s.checked >= current.checked && s.seen >= current.seen && s.checked >= mine.checked;
    MergeKeepsVerdicts(w, key, mine, touch, stamp);
    hide Merged;
    forall t | t in w.flights
      ensures FlightInv(w.flights[t], b, w.drawn)
    {
      assert FlightInv(w.flights[t], w.auth, w.drawn);
    }
    assert EpochInv(b.sessions, b.epochs);
    assert LoginInv(w.logins, b, w.drawn);
    hide EpochInv, VerdictInv, LoginInv, FlightInv, GrantInv;
  }

  lemma MergeKeepsVerdicts(w: World, key: Digest, mine: Session, touch: bool, stamp: Time)
    requires VerdictInv(w.auth.sessions, w.verdicts) && key in w.auth.sessions
    ensures var s := Merged(w.auth.sessions[key], mine, touch, stamp);
      VerdictInv(w.auth.sessions[key := s], w.verdicts[key := VerdictsOf(w, key) + {(mine.checked, mine.actor)}])
  {
  }

  // --------------------------------------------------------------------- steps

  lemma IssueNow(issued: map<User, Time>, lastIssue: map<User, Time>, clock: Time, user: User)
    requires IssueInv(issued, lastIssue, clock)
    ensures IssueInv(issued[user := clock], lastIssue[user := clock], clock)
  {
  }

  lemma OthersKept(grants: map<Digest, Grant>, user: User)
    ensures var others := Keep(grants, OtherGrant(user));
      && Submap(others, grants) && |others| <= |grants|
      && (forall k :: k in others ==> others[k].user != user)
  {
    KeepIsSubmap(grants, OtherGrant(user));
  }

  /** What `issue` does to the core: the user's other links go, the new one comes. */
  lemma ReplaceGrantKeeps(p: World, token: Digest, user: User, expires: Time)
    requires Core(p) && token !in p.drawn && |p.auth.grants| < MAX_GRANTS
    ensures Core(p.(auth := p.auth.(grants := Keep(p.auth.grants, OtherGrant(user))[token := Grant(user, expires)]),
                    drawn := p.drawn + {token}))
  {
    hide DrawnInv, GrantInv, EpochInv, FlightsInv, LoginInv, VerdictInv, Keep;
    OthersKept(p.auth.grants, user);
    var b := p.auth.(grants := Keep(p.auth.grants, OtherGrant(user)));
    ShrinkKeeps(p, b);
    AddGrantKeeps(p.(auth := b), token, Grant(user, expires));
  }

  lemma IssueKeeps(w: World, e: Event)
    requires Inv(w) && e.Issue? && Enabled(w, e)
    ensures Inv(ApplyIssue(w, e))
  {
    hide Prune, IssueInv, Core, Keep, OtherGrant;
    PruneKeeps(w, e.now);
    var p := w.(auth := Prune(w.auth, e.now), clock := e.now);
    LaterKeepsIssue(p.auth.issued, p.lastIssue, p.clock, e.stamp);
    if MayIssue(p.auth, e.user, e.interaction, e.stamp) {
      NewGrantKeeps(w, p, e);
    } else {
      CoreIgnores(p, ApplyIssue(w, e));
    }
  }

  lemma NewGrantKeeps(w: World, p: World, e: Event)
    requires e.Issue? && Enabled(w, e) && p == w.(auth := Prune(w.auth, e.now), clock := e.now)
    requires Core(p) && IssueInv(p.auth.issued, p.lastIssue, e.stamp)
    requires MayIssue(p.auth, e.user, e.interaction, e.stamp)
    ensures Inv(ApplyIssue(w, e))
  {
    hide Prune, IssueInv, Core, Keep, OtherGrant;
    ReplaceGrantKeeps(p, e.token, e.user, e.stamp + 2 * MINUTE);
    IssueNow(p.auth.issued, p.lastIssue, e.stamp, e.user);
    var q := p.(auth := p.auth.(grants := Keep(p.auth.grants, OtherGrant(e.user))[e.token := Grant(e.user, e.stamp + 2 * MINUTE)]),
                drawn := p.drawn + {e.token});
    CoreIgnores(q, ApplyIssue(w, e));
  }

  /** The core of the invariant does not look at the tables that only limit rates. */
  lemma CoreIgnores(v: World, w: World)
    requires Core(v)
    requires w.auth == v.auth.(interactions := w.auth.interactions, issued := w.auth.issued)
    requires w.flights == v.flights && w.drawn == v.drawn && w.logins == v.logins && w.verdicts == v.verdicts
    ensures Core(w)
  {
    hide GrantInv, EpochInv, VerdictInv;
    forall t | t in w.flights
      ensures FlightInv(w.flights[t], w.auth, w.drawn)
    {
      assert FlightInv(v.flights[t], v.auth, v.drawn);
    }
  }

  lemma LandingKeeps(w: World, e: Event)
    requires Inv(w) && e.Landing? && Enabled(w, e)
    ensures Inv(ApplyLanding(w, e))
  {
    hide Prune, IssueInv, DrawnInv, GrantInv, EpochInv, FlightsInv, LoginInv, VerdictInv;
    PruneKeeps(w, e.now);
    var p := w.(auth := Prune(w.auth, e.now), clock := e.now);
    LaterKeepsIssue(p.auth.issued, p.lastIssue, p.clock, e.stamp);
    if |p.auth.nonces| < MAX_NONCES {
      AddNonceKeeps(p, e.token, e.stamp + 5 * MINUTE);
    }
  }

  lemma ExchangeBeginKeeps(w: World, e: Event)
    requires Inv(w) && e.ExchangeBegin? && Enabled(w, e)
    ensures Inv(ApplyExchangeBegin(w, e))
  {
    PruneKeeps(w, e.now);
    var p := w.(auth := Prune(w.auth, e.now), clock := e.now);
    hide Prune, IssueInv, GrantInv, EpochInv, FlightsInv, LoginInv, VerdictInv;
    if e.grant in p.auth.grants && e.nonce in p.auth.nonces {
      var user := p.auth.grants[e.grant].user;
      AddFlight(p, e.thread, Exchanging(e.grant, e.nonce, user, EpochOf(p.auth.epochs, user), e.now, false));
    }
  }

  lemma CheckBeginKeeps(w: World, e: Event)
    requires Inv(w) && e.CheckBegin? && Enabled(w, e)
    ensures Inv(ApplyCheckBegin(w, e))
  {
    PruneKeeps(w, e.now);
    var p := w.(auth := Prune(w.auth, e.now), clock := e.now);
    hide Prune, IssueInv, GrantInv, FlightsInv, LoginInv, VerdictInv;
    if e.key in p.auth.sessions {
      AddFlight(p, e.thread, Checking(e.key, p.auth.sessions[e.key], e.touch, e.now, false));
    }
  }

  lemma FlightHolds(w: World, t: Thread)
    requires Inv(w) && t in w.flights
    ensures FlightInv(w.flights[t], w.auth, w.drawn)
  {
    hide DrawnInv, GrantInv, EpochInv, LoginInv, VerdictInv, IssueInv, FlightInv;
  }

  lemma ExchangeCommitKeeps(w: World, e: Event)
    requires Inv(w) && e.ExchangeCommit? && Enabled(w, e)
    ensures Inv(ApplyExchangeCommit(w, e))
  {
    hide Prune, IssueInv, DrawnInv, GrantInv, EpochInv, FlightsInv, LoginInv, VerdictInv;
    PruneKeeps(w, e.now);
    var p := w.(auth := Prune(w.auth, e.now), clock := e.now);
    var f := w.flights[e.thread];
    LaterKeepsIssue(p.auth.issued, p.lastIssue, p.clock, e.stamp);
    FlightHolds(p, e.thread);
    TokenIsNew(w, e.token);
    DropFlight(p, e.thread);
    if MayExchange(p.auth, f) {
      var q := p.(flights := p.flights - {e.thread});
      var s := Session(e.actor, e.csrf, e.stamp, e.stamp, e.stamp, f.epoch);
      AddSessionKeeps(q, e.token, s);
      var r := q.(auth := q.auth.(sessions := q.auth.sessions[e.token := s]), drawn := q.drawn + {e.token},
                  verdicts := q.verdicts[e.token := {(s.checked, s.actor)}]);
      UseUpKeeps(r, f.grant, f.nonce, e.token);
    }
  }

  lemma TokenIsNew(w: World, token: Digest)
    requires Inv(w) && token !in w.drawn
    ensures forall i :: 0 <= i < |w.logins| ==> w.logins[i].key != token
  {
    hide DrawnInv, GrantInv, EpochInv, FlightsInv, VerdictInv, IssueInv;
  }

  lemma CheckCommitKeeps(w: World, e: Event)
    requires Inv(w) && e.CheckCommit? && Enabled(w, e)
    ensures Inv(ApplyCheckCommit(w, e))
  {
    hide Prune, IssueInv, DrawnInv, GrantInv, EpochInv, FlightsInv, LoginInv, VerdictInv, Merged;
    PruneKeeps(w, e.now);
    var p := w.(auth := Prune(w.auth, e.now), clock := e.now);
    var f := w.flights[e.thread];
    LaterKeepsIssue(p.auth.issued, p.lastIssue, p.clock, e.stamp);
    FlightHolds(p, e.thread);
    DropFlight(p, e.thread);
    var mine := Refreshed(f.copy, e.asked);
    if MayCommitCheck(p.auth, f.key, mine) {
      MergeKeeps(p.(flights := p.flights - {e.thread}), f.key, mine, f.touch, e.stamp);
    }
  }

  lemma LogoutKeeps(w: World, key: Digest)
    requires Inv(w)
    ensures Inv(w.(auth := w.auth.(sessions := w.auth.sessions - {key})))
  {
    hide DrawnInv, GrantInv, EpochInv, FlightsInv, LoginInv, VerdictInv, IssueInv;
    ShrinkKeeps(w, w.auth.(sessions := w.auth.sessions - {key}));
  }

  /** Every step keeps the invariant. */
  lemma StepKeeps(w: World, e: Event)
    requires Inv(w) && Enabled(w, e)
    ensures Inv(Apply(w, e))
  {
    match e {
      case Issue(_, _, _, _, _) => IssueKeeps(w, e);
      case Landing(_, _, _) => LandingKeeps(w, e);
      case ExchangeBegin(_, _, _, _) => ExchangeBeginKeeps(w, e);
      case ExchangeDenied(t) => DropFlight(w, t);
      case ExchangeCommit(_, _, _, _, _, _) => ExchangeCommitKeeps(w, e);
      case CheckBegin(_, _, _, _) => CheckBeginKeeps(w, e);
      case CheckDenied(t, _) =>
        DropFlight(w, t);
        RevokeKeeps(w.(flights := w.flights - {t}), w.flights[t].copy.actor.id);
      case CheckCommit(_, _, _, _, _) => CheckCommitKeeps(w, e);
      case Revoke(user) => RevokeKeeps(w, user);
      case Logout(key) => LogoutKeeps(w, key);
    }
    hide DrawnInv, GrantInv, EpochInv, FlightsInv, LoginInv, VerdictInv, IssueInv, ApplyRevoke;
  }
}
