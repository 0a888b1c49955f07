/** Web logins and sessions (`webapi/auth.go`) as a state machine.

    `exchange` and `check` give up the mutex while they ask Discord about a user, so each
    is two atomic steps; between them any other step may happen. A request that is between
    its two steps is a flight. Tokens never repeat, and a digest stands for the token it
    was taken of. Times are nanoseconds of one clock that does not go back. */
module AuthModel {
  import opened Wrappers

  type Digest = string
  type User = string
  type Time = int
  type Thread = nat

  const SECOND: int := 1_000_000_000
  const MINUTE: int := 60 * SECOND
  const HOUR: int := 60 * MINUTE
  const MAX_GRANTS: nat := 1000
  const MAX_NONCES: nat := 10000
  const EPOCHS: nat := 0x1_0000_0000_0000_0000

  datatype Actor = Actor(id: User, name: string, admin: bool)

  datatype Grant = Grant(user: User, expires: Time)

  datatype Session = Session(actor: Actor, csrf: string, created: Time, seen: Time, checked: Time, epoch: nat)

  datatype Auth = Auth(
    grants: map<Digest, Grant>,
    sessions: map<Digest, Session>,
    nonces: map<Digest, Time>,
    interactions: map<string, Time>,
    issued: map<User, Time>,
    epochs: map<User, nat>)

  /** A request between its two atomic steps, and whether its user was revoked meanwhile. */
  datatype Flight =
    | Exchanging(grant: Digest, nonce: Digest, user: User, epoch: nat, since: Time, revoked: bool)
    | Checking(key: Digest, copy: Session, touch: bool, since: Time, revoked: bool)

  /** A session that was made, and what it was made from. */
  datatype Login = Login(grant: Digest, nonce: Digest, key: Digest)

  datatype World = World(
    auth: Auth,
    flights: map<Thread, Flight>,
    clock: Time,
    drawn: set<Digest>,                         // every token ever generated
    logins: seq<Login>,                         // every session ever made
    verdicts: map<Digest, set<(Time, Actor)>>,  // authorizations committed to a session
    lastIssue: map<User, Time>)                 // when a user last got a login link

  datatype Event =
    | Issue(user: User, interaction: string, token: Digest, now: Time, stamp: Time)
    | Landing(token: Digest, now: Time, stamp: Time)
    | ExchangeBegin(thread: Thread, grant: Digest, nonce: Digest, now: Time)
    | ExchangeDenied(thread: Thread)
    | ExchangeCommit(thread: Thread, actor: Actor, token: Digest, csrf: string, now: Time, stamp: Time)
    | CheckBegin(thread: Thread, key: Digest, touch: bool, now: Time)
    | CheckDenied(thread: Thread, tested: Time)
    | CheckCommit(thread: Thread, tested: Time, asked: Option<(Time, Actor)>, now: Time, stamp: Time)
    | Revoke(user: User)
    | Logout(key: Digest)

  const NOBODY := Auth(map[], map[], map[], map[], map[], map[])

  const START := World(NOBODY, map[], 0, {}, [], map[], map[])

  // ------------------------------------------------------------------ sections

  /** The entries a pruning loop keeps. */
  function Keep<V>(m: map<string, V>, keep: V -> bool): (r: map<string, V>)
  {
    map k | k in m && keep(m[k]) :: m[k]
  }

  function LiveGrant(now: Time): Grant -> bool { (g: Grant) => now < g.expires }

  function LiveNonce(now: Time): Time -> bool { (expires: Time) => now < expires }

  function LiveSession(now: Time): Session -> bool
  {
    (s: Session) => now - s.created < 8 * HOUR && now - s.seen < 30 * MINUTE
  }

  function Recent(now: Time, age: int): Time -> bool { (t: Time) => now - t <= age }

  function OtherGrant(user: User): Grant -> bool { (g: Grant) => g.user != user }

  function OtherSession(user: User): Session -> bool { (s: Session) => s.actor.id != user }

  function Prune(a: Auth, now: Time): Auth
  {
    Auth(Keep(a.grants, LiveGrant(now)), Keep(a.sessions, LiveSession(now)),
         Keep(a.nonces, LiveNonce(now)), Keep(a.interactions, Recent(now, 10 * MINUTE)),
         Keep(a.issued, Recent(now, MINUTE)), a.epochs)
  }

  function EpochOf(epochs: map<User, nat>, u: User): nat
  {
    if u in epochs then epochs[u] else 0
  }

  predicate MayIssue(a: Auth, user: User, interaction: string, stamp: Time)
  {
    && interaction !in a.interactions
    && (user in a.issued ==> stamp - a.issued[user] >= 5 * SECOND)
    && |a.grants| < MAX_GRANTS
  }

  function Issued(a: Auth, user: User, interaction: string, token: Digest, stamp: Time): Auth
  {
    var others := Keep(a.grants, OtherGrant(user));
    a.(grants := others[token := Grant(user, stamp + 2 * MINUTE)],
       interactions := a.interactions[interaction := stamp],
       issued := a.issued[user := stamp])
  }

  function Revoked(a: Auth, user: User): Auth
  {
    a.(epochs := a.epochs[user := (EpochOf(a.epochs, user) + 1) % EPOCHS],
       grants := Keep(a.grants, OtherGrant(user)),
       sessions := Keep(a.sessions, OtherSession(user)))
  }

  predicate MayExchange(a: Auth, f: Flight)
    requires f.Exchanging?
  {
    f.grant in a.grants && f.nonce in a.nonces && EpochOf(a.epochs, f.user) == f.epoch
  }

  function Exchanged(a: Auth, f: Flight, token: Digest, s: Session): Auth
    requires f.Exchanging?
  {
    a.(grants := a.grants - {f.grant}, nonces := a.nonces - {f.nonce}, sessions := a.sessions[token := s])
  }

  /** The copy a check brings to its second step, after the authorization it asked for. */
  function Refreshed(copy: Session, asked: Option<(Time, Actor)>): Session
  {
    match asked
    case None => copy
    case Some((checked, actor)) => copy.(actor := actor, checked := checked)
  }

  predicate MayCommitCheck(a: Auth, key: Digest, mine: Session)
  {
    key in a.sessions && EpochOf(a.epochs, mine.actor.id) == mine.epoch
  }

  /** What the second step of a check stores. */
  function Merged(current: Session, mine: Session, touch: bool, stamp: Time): Session
  {
    var newer := if mine.checked > current.checked
                 then current.(actor := mine.actor, checked := mine.checked) else current;
    if touch && stamp > newer.seen then newer.(seen := stamp) else newer
  }

  // --------------------------------------------------------------------- steps

  function MarkRevoked(flights: map<Thread, Flight>, user: User): map<Thread, Flight>
  {
    map t | t in flights ::
      match flights[t]
      case Exchanging(grant, nonce, u, epoch, since, r) => Exchanging(grant, nonce, u, epoch, since, r || u == user)
      case Checking(key, copy, touch, since, r) => Checking(key, copy, touch, since, r || copy.actor.id == user)
  }

  function ApplyRevoke(w: World, user: User): World
  {
    w.(auth := Revoked(w.auth, user), flights := MarkRevoked(w.flights, user))
  }

  function ApplyIssue(w: World, e: Event): World
    requires e.Issue?
  {
    var a := Prune(w.auth, e.now);
    if !MayIssue(a, e.user, e.interaction, e.stamp) then w.(auth := a, clock := e.stamp)
    else
      w.(auth := Issued(a, e.user, e.interaction, e.token, e.stamp), clock := e.stamp,
         drawn := w.drawn + {e.token}, lastIssue := w.lastIssue[e.user := e.stamp])
  }

  function ApplyLanding(w: World, e: Event): World
    requires e.Landing?
  {
    var a := Prune(w.auth, e.now);
    if |a.nonces| >= MAX_NONCES then w.(auth := a, clock := e.stamp)
    else
      w.(auth := a.(nonces := a.nonces[e.token := e.stamp + 5 * MINUTE]), clock := e.stamp,
         drawn := w.drawn + {e.token})
  }

  function ApplyExchangeBegin(w: World, e: Event): World
    requires e.ExchangeBegin?
  {
    var a := Prune(w.auth, e.now);
    if e.grant !in a.grants || e.nonce !in a.nonces then w.(auth := a, clock := e.now)
    else
      var user := a.grants[e.grant].user;
      w.(auth := a, clock := e.now,
         flights := w.flights[e.thread := Exchanging(e.grant, e.nonce, user, EpochOf(a.epochs, user), e.now, false)])
  }

  /** The session an exchange ends in, if it does. */
  function ExchangeAnswer(w: World, e: Event): Option<Session>
    requires e.ExchangeCommit? && e.thread in w.flights && w.flights[e.thread].Exchanging?
  {
    var f := w.flights[e.thread];
    if !MayExchange(Prune(w.auth, e.now), f) then None
    else Some(Session(e.actor, e.csrf, e.stamp, e.stamp, e.stamp, f.epoch))
  }

  function ApplyExchangeCommit(w: World, e: Event): World
    requires e.ExchangeCommit? && e.thread in w.flights && w.flights[e.thread].Exchanging?
  {
    var f := w.flights[e.thread];
    var a := Prune(w.auth, e.now);
    match ExchangeAnswer(w, e)
    case None => w.(auth := a, clock := e.stamp, flights := w.flights - {e.thread})
    case Some(s) =>
      w.(auth := Exchanged(a, f, e.token, s), clock := e.stamp, flights := w.flights - {e.thread},
         drawn := w.drawn + {e.token}, logins := w.logins + [Login(f.grant, f.nonce, e.token)],
         verdicts := w.verdicts[e.token := {(s.checked, s.actor)}])
  }

  function ApplyCheckBegin(w: World, e: Event): World
    requires e.CheckBegin?
  {
    var a := Prune(w.auth, e.now);
    if e.key !in a.sessions then w.(auth := a, clock := e.now)
    else
      w.(auth := a, clock := e.now,
         flights := w.flights[e.thread := Checking(e.key, a.sessions[e.key], e.touch, e.now, false)])
  }

  function CheckAnswer(w: World, e: Event): Option<Session>
    requires e.CheckCommit? && e.thread in w.flights && w.flights[e.thread].Checking?
  {
    var f := w.flights[e.thread];
    var a := Prune(w.auth, e.now);
    var mine := Refreshed(f.copy, e.asked);
    if !MayCommitCheck(a, f.key, mine) then None
    else Some(Merged(a.sessions[f.key], mine, f.touch, e.stamp))
  }

  function VerdictsOf(w: World, key: Digest): set<(Time, Actor)>
  {
    if key in w.verdicts then w.verdicts[key] else {}
  }

  function ApplyCheckCommit(w: World, e: Event): World
    requires e.CheckCommit? && e.thread in w.flights && w.flights[e.thread].Checking?
  {
    var f := w.flights[e.thread];
    var a := Prune(w.auth, e.now);
    var mine := Refreshed(f.copy, e.asked);
    match CheckAnswer(w, e)
    case None => w.(auth := a, clock := e.stamp, flights := w.flights - {e.thread})
    case Some(s) =>
      w.(auth := a.(sessions := a.sessions[f.key := s]), clock := e.stamp, flights := w.flights - {e.thread},
         verdicts := w.verdicts[f.key := VerdictsOf(w, f.key) + {(mine.checked, mine.actor)}])
  }

  /** What the environment may do: the clock does not go back, tokens are new, a denied
      authorization means one was asked for, and Discord answers about the user in
      question. */
  predicate Enabled(w: World, e: Event)
  {
    match e
    case Issue(_, _, token, now, stamp) => w.clock <= now <= stamp && token !in w.drawn
    case Landing(token, now, stamp) => w.clock <= now <= stamp && token !in w.drawn
    case ExchangeBegin(t, _, _, now) => w.clock <= now && t !in w.flights
    case ExchangeDenied(t) => t in w.flights && w.flights[t].Exchanging?
    case ExchangeCommit(t, actor, token, _, now, stamp) =>
      && t in w.flights && w.flights[t].Exchanging?
      && actor.id == w.flights[t].user && token !in w.drawn && w.clock <= now <= stamp
    case CheckBegin(t, _, _, now) => w.clock <= now && t !in w.flights
    case CheckDenied(t, tested) =>
      && t in w.flights && w.flights[t].Checking?
      && w.flights[t].since <= tested && tested - w.flights[t].copy.checked >= MINUTE
    case CheckCommit(t, tested, asked, now, stamp) =>
      && t in w.flights && w.flights[t].Checking?
      && w.flights[t].since <= tested <= now && w.clock <= now <= stamp
      && (asked.None? <==> tested - w.flights[t].copy.checked < MINUTE)
      && (asked.Some? ==> tested <= asked.value.0 <= now && asked.value.1.id == w.flights[t].copy.actor.id)
    case Revoke(_) => true
    case Logout(_) => true
  }

  function Apply(w: World, e: Event): World
    requires Enabled(w, e)
  {
    match e
    case Issue(_, _, _, _, _) => ApplyIssue(w, e)
    case Landing(_, _, _) => ApplyLanding(w, e)
    case ExchangeBegin(_, _, _, _) => ApplyExchangeBegin(w, e)
    case ExchangeDenied(t) => w.(flights := w.flights - {t})
    case ExchangeCommit(_, _, _, _, _, _) => ApplyExchangeCommit(w, e)
    case CheckBegin(_, _, _, _) => ApplyCheckBegin(w, e)
    case CheckDenied(t, _) =>
      ApplyRevoke(w.(flights := w.flights - {t}), w.flights[t].copy.actor.id)
    case CheckCommit(_, _, _, _, _) => ApplyCheckCommit(w, e)
    case Revoke(user) => ApplyRevoke(w, user)
    case Logout(key) => w.(auth := w.auth.(sessions := w.auth.sessions - {key}))
  }

  // ---------------------------------------------------------------- invariants

  /** Everything stored under a token was stored under a token that was generated. */
  ghost predicate DrawnInv(a: Auth, drawn: set<Digest>)
  {
    a.grants.Keys <= drawn && a.nonces.Keys <= drawn && a.sessions.Keys <= drawn
  }

  /** A user has at most one login link, and the tables stay within their limits. */
  ghost predicate GrantInv(grants: map<Digest, Grant>, nonces: map<Digest, Time>)
  {
    && (forall k, l :: k in grants && l in grants && k != l ==> grants[k].user != grants[l].user)
    && |grants| <= MAX_GRANTS
    && |nonces| <= MAX_NONCES
  }

  /** Every stored session carries its user's current epoch. */
  ghost predicate EpochInv(sessions: map<Digest, Session>, epochs: map<User, nat>)
  {
    forall k :: k in sessions ==> sessions[k].epoch == EpochOf(epochs, sessions[k].actor.id)
  }

  ghost predicate FlightInv(f: Flight, a: Auth, drawn: set<Digest>)
  {
    match f
    case Exchanging(grant, nonce, user, epoch, _, revoked) =>
      && grant in drawn && nonce in drawn
      && (grant in a.grants ==> a.grants[grant].user == user)
      && (revoked ==> grant !in a.grants)
      && (!revoked ==> EpochOf(a.epochs, user) == epoch)
    case Checking(key, copy, _, _, revoked) =>
      && key in drawn
      && (key in a.sessions ==>
            && a.sessions[key].actor.id == copy.actor.id && a.sessions[key].epoch == copy.epoch
            && a.sessions[key].checked >= copy.checked && a.sessions[key].seen >= copy.seen)
      && (revoked ==> key !in a.sessions)
      && (!revoked ==> EpochOf(a.epochs, copy.actor.id) == copy.epoch)
  }

  ghost predicate FlightsInv(flights: map<Thread, Flight>, a: Auth, drawn: set<Digest>)
  {
    forall t :: t in flights ==> FlightInv(flights[t], a, drawn)
  }

  /** What a session was made from is used up, and was used once. */
  ghost predicate LoginInv(logins: seq<Login>, a: Auth, drawn: set<Digest>)
  {
    && (forall i :: 0 <= i < |logins| ==>
          && logins[i].grant in drawn && logins[i].grant !in a.grants
          && logins[i].nonce in drawn && logins[i].nonce !in a.nonces
          && logins[i].key in drawn)
    && (forall i, j :: 0 <= i < j < |logins| ==>
          logins[i].grant != logins[j].grant && logins[i].nonce != logins[j].nonce && logins[i].key != logins[j].key)
  }

  /** A session carries the newest authorization committed to it. */
  ghost predicate VerdictInv(sessions: map<Digest, Session>, verdicts: map<Digest, set<(Time, Actor)>>)
  {
    forall k :: k in sessions ==>
      && k in verdicts
      && (sessions[k].checked, sessions[k].actor) in verdicts[k]
      && (forall v :: v in verdicts[k] ==> v.0 <= sessions[k].checked)
  }

  /** A user's last login link is remembered until it is older than a minute. */
  ghost predicate IssueInv(issued: map<User, Time>, lastIssue: map<User, Time>, clock: Time)
  {
    && (forall u :: u in issued ==> u in lastIssue && issued[u] == lastIssue[u])
    && (forall u :: u in lastIssue ==> lastIssue[u] <= clock && (u in issued || clock - lastIssue[u] > MINUTE))
  }

  /** The part of the invariant that speaks of grants, nonces, sessions and flights. */
  ghost predicate Core(w: World)
  {
    && DrawnInv(w.auth, w.drawn)
    && GrantInv(w.auth.grants, w.auth.nonces)
    && EpochInv(w.auth.sessions, w.auth.epochs)
    && FlightsInv(w.flights, w.auth, w.drawn)
    && LoginInv(w.logins, w.auth, w.drawn)
    && VerdictInv(w.auth.sessions, w.verdicts)
  }

  ghost predicate Inv(w: World)
  {
    Core(w) && IssueInv(w.auth.issued, w.lastIssue, w.clock)
  }
}
