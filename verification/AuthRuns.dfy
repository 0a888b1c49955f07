/** Theorems over whole runs of the login protocol, with authorizations interleaved in any
    way (`webapi/auth.go`). */
module AuthRuns {
  import opened Wrappers
  import opened AuthModel
  import opened AuthTheorems

  predicate Possible(w: World, es: seq<Event>)
    decreases |es|
  {
    es == [] || (Enabled(w, es[0]) && Possible(Apply(w, es[0]), es[1..]))
  }

  function Run(w: World, es: seq<Event>): World
    requires Possible(w, es)
    decreases |es|
  {
    if es == [] then w else Run(Apply(w, es[0]), es[1..])
  }

  /** Some run leads to `w` from a program that has just started. */
  ghost predicate Reachable(w: World)
  {
    exists es :: Possible(START, es) && Run(START, es) == w
  }

  lemma {:induction false} RunKeeps(w: World, es: seq<Event>)
    requires Inv(w) && Possible(w, es)
    ensures Inv(Run(w, es))
    decreases |es|
  {
    hide Inv, Apply, Enabled;
    if es != [] {
      StepKeeps(w, es[0]);
      RunKeeps(Apply(w, es[0]), es[1..]);
    }
  }

  lemma ReachableIsSound(w: World)
    requires Reachable(w)
    ensures Inv(w)
  {
    StartIsSound();
    hide Inv, Run, Possible;
    var es :| Possible(START, es) && Run(START, es) == w;
    RunKeeps(START, es);
  }

  lemma StartIsSound()
    ensures Inv(START)
  {
  }

  // ------------------------------------------------------- logins, links, limits

  /** No two sessions were ever made from one login link, or from one nonce. */
  lemma OneSessionPerGrantAndNonce(w: World, i: nat, j: nat)
    requires Reachable(w) && i < j < |w.logins|
    ensures w.logins[i].grant != w.logins[j].grant
    ensures w.logins[i].nonce != w.logins[j].nonce
    ensures w.logins[i].key != w.logins[j].key
  {
    ReachableIsSound(w);
    hide DrawnInv, GrantInv, EpochInv, FlightsInv, VerdictInv, IssueInv;
  }

  /** A user has at most one pending login link, and no table outgrows its limit. */
  lemma OnePendingGrantPerUser(w: World, k: Digest, l: Digest)
    requires Reachable(w)
    ensures k in w.auth.grants && l in w.auth.grants && w.auth.grants[k].user == w.auth.grants[l].user ==> k == l
    ensures |w.auth.grants| <= MAX_GRANTS && |w.auth.nonces| <= MAX_NONCES
  {
    ReachableIsSound(w);
    hide DrawnInv, LoginInv, EpochInv, FlightsInv, VerdictInv, IssueInv;
  }

  /** Two login links of one user are at least five seconds apart, although the table that
      remembers the last one forgets after a minute. */
  lemma LinksAreSpaced(w: World, e: Event)
    requires Reachable(w) && e.Issue? && Enabled(w, e)
    requires e.user in w.lastIssue && ApplyIssue(w, e).drawn != w.drawn
    ensures e.stamp - w.lastIssue[e.user] >= 5 * SECOND
  {
    ReachableIsSound(w);
    hide DrawnInv, GrantInv, LoginInv, EpochInv, FlightsInv, VerdictInv;
  }

  /** Every stored session carries its user's current epoch and the newest authorization
      ever committed to it. */
  lemma SessionsAreCurrent(w: World, k: Digest)
    requires Reachable(w) && k in w.auth.sessions
    ensures w.auth.sessions[k].epoch == EpochOf(w.auth.epochs, w.auth.sessions[k].actor.id)
    ensures k in w.verdicts && (w.auth.sessions[k].checked, w.auth.sessions[k].actor) in w.verdicts[k]
    ensures forall v :: v in w.verdicts[k] ==> v.0 <= w.auth.sessions[k].checked
  {
    ReachableIsSound(w);
    hide DrawnInv, GrantInv, LoginInv, FlightsInv, IssueInv;
  }

  // ------------------------------------------------------------------ revocation

  function Subject(f: Flight): User
  {
    match f
    case Exchanging(_, _, user, _, _, _) => user
    case Checking(_, copy, _, _, _) => copy.actor.id
  }

  predicate OfThread(e: Event, t: Thread)
  {
    match e
    case ExchangeBegin(u, _, _, _) => t == u
    case ExchangeDenied(u) => t == u
    case ExchangeCommit(u, _, _, _, _, _) => t == u
    case CheckBegin(u, _, _, _) => t == u
    case CheckDenied(u, _) => t == u
    case CheckCommit(u, _, _, _, _) => t == u
    case _ => false
  }

  function Marked(f: Flight, revoked: bool): Flight
  {
    match f
    case Exchanging(grant, nonce, user, epoch, since, _) => Exchanging(grant, nonce, user, epoch, since, revoked)
    case Checking(key, copy, touch, since, _) => Checking(key, copy, touch, since, revoked)
  }

  /** `g` is the flight `f`, whose user may have been revoked since. */
  predicate SameFlight(f: Flight, g: Flight)
  {
    g == Marked(f, g.revoked) && (f.revoked ==> g.revoked)
  }

  /** The step takes a user's access away: an explicit revocation, or a session check whose
      authorization is refused. */
  predicate Revokes(w: World, e: Event, user: User)
    requires Enabled(w, e)
  {
    e == Revoke(user) || (e.CheckDenied? && Subject(w.flights[e.thread]) == user)
  }

  /** Some step of a run does. */
  predicate RevokedIn(w: World, es: seq<Event>, user: User)
    requires Possible(w, es)
    decreases |es|
  {
    es != [] && (Revokes(w, es[0], user) || RevokedIn(Apply(w, es[0]), es[1..], user))
  }

  lemma FlightStays(w: World, e: Event, t: Thread)
    requires Enabled(w, e) && t in w.flights && !OfThread(e, t)
    ensures t in Apply(w, e).flights && SameFlight(w.flights[t], Apply(w, e).flights[t])
    ensures Revokes(w, e, Subject(w.flights[t])) ==> Apply(w, e).flights[t].revoked
  {
    hide Prune, Issued, Exchanged, Merged, Revoked, MayIssue, MayExchange, MayCommitCheck;
  }

  lemma {:induction false} FlightStaysInRun(w: World, es: seq<Event>, t: Thread)
    requires Possible(w, es) && t in w.flights
    requires forall i :: 0 <= i < |es| ==> !OfThread(es[i], t)
    ensures t in Run(w, es).flights && SameFlight(w.flights[t], Run(w, es).flights[t])
    ensures RevokedIn(w, es, Subject(w.flights[t])) ==> Run(w, es).flights[t].revoked
    decreases |es|
  {
    if es != [] {
      FlightStays(w, es[0], t);
      hide Apply, Enabled;
      FlightStaysInRun(Apply(w, es[0]), es[1..], t);
    }
  }

  lemma RevokedCannotCommit(w: World, e: Event)
    requires Inv(w) && Enabled(w, e)
    requires e.ExchangeCommit? || e.CheckCommit?
    requires w.flights[e.thread].revoked
    ensures e.ExchangeCommit? ==> ExchangeAnswer(w, e) == None
    ensures e.CheckCommit? ==> CheckAnswer(w, e) == None
    ensures Apply(w, e).auth == Prune(w.auth, e.now) && Apply(w, e).logins == w.logins
  {
    FlightHolds(w, e.thread);
    PruneShrinks(w.auth, e.now);
    hide Inv, Prune;
  }

  /** A login or a session check whose user is revoked between its two steps, by an explicit
      revocation or by the refused authorization of another check, fails and stores nothing,
      however all of these are interleaved with anything else. */
  lemma NoCommitAfterRevoke(w: World, es: seq<Event>, t: Thread, e: Event)
    requires Reachable(w) && t in w.flights && Possible(w, es)
    requires RevokedIn(w, es, Subject(w.flights[t]))
    requires forall i :: 0 <= i < |es| ==> !OfThread(es[i], t)
    requires (e.ExchangeCommit? || e.CheckCommit?) && e.thread == t && Enabled(Run(w, es), e)
    ensures e.ExchangeCommit? ==> ExchangeAnswer(Run(w, es), e) == None
    ensures e.CheckCommit? ==> CheckAnswer(Run(w, es), e) == None
    ensures Apply(Run(w, es), e).logins == Run(w, es).logins
    ensures Apply(Run(w, es), e).auth == Prune(Run(w, es).auth, e.now)
  {
    ReachableIsSound(w);
    RunKeeps(w, es);
    FlightStaysInRun(w, es, t);
    RevokedCannotCommit(Run(w, es), e);
    hide Inv, Run, Possible, Apply, Prune;
  }

  // -------------------------------------------------------------------- sessions

  /** What holds of one session slot from one world to a later one. */
  ghost predicate SessionGrows(before: map<Digest, Session>, after: map<Digest, Session>, k: Digest)
  {
    && (k !in before ==> k !in after)
    && (k in before && k in after ==>
          && after[k].checked >= before[k].checked && after[k].seen >= before[k].seen
          && after[k].created == before[k].created && after[k].actor.id == before[k].actor.id)
  }

  /** No step but a check's second one changes a session that it keeps. */
  lemma SessionKeptOrGone(w: World, e: Event, k: Digest)
    requires Enabled(w, e) && k in w.drawn && !e.CheckCommit?
    ensures k in Apply(w, e).auth.sessions ==>
      k in w.auth.sessions && Apply(w, e).auth.sessions[k] == w.auth.sessions[k]
  {
    hide MayIssue, MayExchange, MarkRevoked, Prune, Keep, LiveSession;
    match e {
      case Issue(_, _, _, now, _) => PruneShrinks(w.auth, now);
      case Landing(_, now, _) => PruneShrinks(w.auth, now);
      case ExchangeBegin(_, _, _, now) => PruneShrinks(w.auth, now);
      case ExchangeDenied(_) =>
      case ExchangeCommit(_, _, _, _, now, _) => PruneShrinks(w.auth, now);
      case CheckBegin(_, _, _, now) => PruneShrinks(w.auth, now);
      case CheckDenied(t, _) => KeepIsSubmap(w.auth.sessions, OtherSession(w.flights[t].copy.actor.id));
      case Revoke(user) => KeepIsSubmap(w.auth.sessions, OtherSession(user));
      case Logout(_) =>
    }
  }

  lemma CheckMovesForward(w: World, e: Event, k: Digest)
    requires Inv(w) && Enabled(w, e) && e.CheckCommit?
    ensures SessionGrows(w.auth.sessions, Apply(w, e).auth.sessions, k)
  {
    hide Inv, Prune;
    PruneShrinks(w.auth, e.now);
    FlightHolds(w, e.thread);
  }

  lemma SessionStep(w: World, e: Event, k: Digest)
    requires Inv(w) && Enabled(w, e) && k in w.drawn
    ensures SessionGrows(w.auth.sessions, Apply(w, e).auth.sessions, k)
  {
    hide Inv, Apply, Enabled;
    if e.CheckCommit? { CheckMovesForward(w, e, k); } else { SessionKeptOrGone(w, e, k); }
  }

  lemma DrawnStays(w: World, e: Event)
    requires Enabled(w, e)
    ensures w.drawn <= Apply(w, e).drawn
  {
    hide Prune, Issued, Exchanged, Merged, Revoked, MayIssue, MayExchange, MayCommitCheck, MarkRevoked;
  }

  /** Once a token was generated, the session under it only moves forward: its times never
      go back, and once it is gone no refresh that was under way brings it back. */
  lemma {:induction false} SessionsOnlyMoveForward(w: World, es: seq<Event>, k: Digest)
    requires Inv(w) && Possible(w, es) && k in w.drawn
    ensures SessionGrows(w.auth.sessions, Run(w, es).auth.sessions, k)
    decreases |es|
  {
    if es != [] {
      SessionStep(w, es[0], k);
      DrawnStays(w, es[0]);
      StepKeeps(w, es[0]);
      hide Inv, Apply, Enabled;
      SessionsOnlyMoveForward(Apply(w, es[0]), es[1..], k);
    }
  }

  /** A successful check answers for the user it began with, from an authorization less
      than a minute old when it was looked at, or newer, out of a session that was neither
      too old nor idle. */
  lemma CheckAnswersFromFreshAuthorization(w: World, e: Event)
    requires Reachable(w) && e.CheckCommit? && Enabled(w, e) && CheckAnswer(w, e).Some?
    ensures var f, s := w.flights[e.thread], CheckAnswer(w, e).value;
      && s.actor.id == f.copy.actor.id
      && s.checked > e.tested - MINUTE
      && (e.asked.Some? ==> s.checked >= e.tested)
      && e.now - s.created < 8 * HOUR
      && (f.key in w.auth.sessions && e.now - w.auth.sessions[f.key].seen < 30 * MINUTE)
      && f.key in Apply(w, e).auth.sessions && Apply(w, e).auth.sessions[f.key] == s
      && s.epoch == EpochOf(w.auth.epochs, s.actor.id)
  {
    hide Inv;
    ReachableIsSound(w);
    FlightHolds(w, e.thread);
  }

  /** A successful login used a link and a nonce that had not expired, for the user the
      link was issued to. */
  lemma ExchangeUsesLiveGrant(w: World, e: Event)
    requires Reachable(w) && e.ExchangeCommit? && Enabled(w, e) && ExchangeAnswer(w, e).Some?
    ensures var f, s := w.flights[e.thread], ExchangeAnswer(w, e).value;
      && f.grant in w.auth.grants && e.now < w.auth.grants[f.grant].expires
      && f.nonce in w.auth.nonces && e.now < w.auth.nonces[f.nonce]
      && s.actor.id == w.auth.grants[f.grant].user
      && f.grant !in Apply(w, e).auth.grants && f.nonce !in Apply(w, e).auth.nonces
      && e.token in Apply(w, e).auth.sessions && Apply(w, e).auth.sessions[e.token] == s
  {
    hide Inv;
    ReachableIsSound(w);
    FlightHolds(w, e.thread);
  }
}
