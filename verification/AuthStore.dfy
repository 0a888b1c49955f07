/** Logins and sessions in the form the program has: one object whose tables change under a
    mutex. `Exchange` and `Check` appear as the two sections they hold the mutex for; what
    a request remembers between them is the flight it passes from one to the other. Each
    contract gives the tables the matching step of AuthModel leaves. */
module AuthStore {
  import opened Wrappers
  import opened AuthModel

  /** The program's pruning loop: visits the entries in any order and deletes some. */
  method Retain<V>(m: map<string, V>, keep: V -> bool) returns (r: map<string, V>)
    ensures r == Keep(m, keep)
  {
    r := m;
    var todo := m.Keys;
    while todo != {}
      invariant todo <= m.Keys
      invariant forall k :: k in r <==> k in m && (k in todo || keep(m[k]))
      invariant forall k :: k in r ==> r[k] == m[k]
      decreases todo
    {
      var k :| k in todo;
      todo := todo - {k};
      if !keep(m[k]) { r := r - {k}; }
    }
  }

  class Store {
    var grants: map<Digest, Grant>
    var sessions: map<Digest, Session>
    var nonces: map<Digest, Time>
    var interactions: map<string, Time>
    var issued: map<User, Time>
    var epochs: map<User, nat>

    ghost function Tables(): Auth
      reads this
    {
      Auth(grants, sessions, nonces, interactions, issued, epochs)
    }

    constructor ()
      ensures Tables() == START.auth
    {
      grants, sessions, nonces := map[], map[], map[];
      interactions, issued, epochs := map[], map[], map[];
    }

    method PruneAll(now: Time)
      modifies this
      ensures Tables() == Prune(old(Tables()), now)
    {
      grants := Retain(grants, LiveGrant(now));
      nonces := Retain(nonces, LiveNonce(now));
      sessions := Retain(sessions, LiveSession(now));
      interactions := Retain(interactions, Recent(now, 10 * MINUTE));
      issued := Retain(issued, Recent(now, MINUTE));
    }

    /** `issue`, once the user is authorized. */
    method Issue(user: User, interaction: string, token: Digest, now: Time, stamp: Time, ghost w: World)
      returns (expires: Option<Time>)
      requires w.auth == Tables() && Enabled(w, Event.Issue(user, interaction, token, now, stamp))
      modifies this
      ensures Tables() == Apply(w, Event.Issue(user, interaction, token, now, stamp)).auth
      ensures expires.Some? <==> MayIssue(Prune(w.auth, now), user, interaction, stamp)
      ensures expires.Some? ==> token in grants && grants[token] == Grant(user, expires.value)
    {
      hide Prune, Keep;
      PruneAll(now);
      if interaction in interactions { return None; }
      if user in issued && stamp - issued[user] < 5 * SECOND { return None; }
      if |grants| >= MAX_GRANTS { return None; }
      assert MayIssue(Tables(), user, interaction, stamp);
      grants := Retain(grants, OtherGrant(user));
      grants := grants[token := Grant(user, stamp + 2 * MINUTE)];
      interactions := interactions[interaction := stamp];
      issued := issued[user := stamp];
      return Some(stamp + 2 * MINUTE);
    }

    method Landing(token: Digest, now: Time, stamp: Time, ghost w: World) returns (ok: bool)
      requires w.auth == Tables() && Enabled(w, Event.Landing(token, now, stamp))
      modifies this
      ensures Tables() == Apply(w, Event.Landing(token, now, stamp)).auth
      ensures ok <==> |Prune(w.auth, now).nonces| < MAX_NONCES
    {
      hide Prune, Keep;
      PruneAll(now);
      if |nonces| >= MAX_NONCES { return false; }
      nonces := nonces[token := stamp + 5 * MINUTE];
      return true;
    }

    /** The first section of `exchange`. */
    method ExchangeFirst(t: Thread, grant: Digest, nonce: Digest, now: Time, ghost w: World)
      returns (f: Option<Flight>)
      requires w.auth == Tables() && Enabled(w, ExchangeBegin(t, grant, nonce, now))
      modifies this
      ensures Tables() == Apply(w, ExchangeBegin(t, grant, nonce, now)).auth
      ensures f.Some? <==> t in Apply(w, ExchangeBegin(t, grant, nonce, now)).flights
      ensures f.Some? ==> f.value == Apply(w, ExchangeBegin(t, grant, nonce, now)).flights[t]
    {
      hide Prune, Keep;
      PruneAll(now);
      if grant !in grants || nonce !in nonces { return None; }
      var user := grants[grant].user;
      return Some(Exchanging(grant, nonce, user, EpochOf(epochs, user), now, false));
    }

    /** The second section of `exchange`, after `actor` was authorized. */
    method ExchangeSecond(t: Thread, f: Flight, actor: Actor, token: Digest, csrf: string, now: Time, stamp: Time,
                          ghost w: World)
      returns (s: Option<Session>)
      requires w.auth == Tables() && Enabled(w, ExchangeCommit(t, actor, token, csrf, now, stamp))
      requires f == w.flights[t]
      modifies this
      ensures Tables() == Apply(w, ExchangeCommit(t, actor, token, csrf, now, stamp)).auth
      ensures s == ExchangeAnswer(w, ExchangeCommit(t, actor, token, csrf, now, stamp))
    {
      hide Prune, Keep;
      PruneAll(now);
      if f.grant !in grants { return None; }
      if f.nonce !in nonces || EpochOf(epochs, f.user) != f.epoch { return None; }
      grants := grants - {f.grant};
      nonces := nonces - {f.nonce};
      var made := Session(actor, csrf, stamp, stamp, stamp, f.epoch);
      sessions := sessions[token := made];
      return Some(made);
    }

    /** The first section of `check`. */
    method CheckFirst(t: Thread, key: Digest, touch: bool, now: Time, ghost w: World) returns (f: Option<Flight>)
      requires w.auth == Tables() && Enabled(w, CheckBegin(t, key, touch, now))
      modifies this
      ensures Tables() == Apply(w, CheckBegin(t, key, touch, now)).auth
      ensures f.Some? <==> t in Apply(w, CheckBegin(t, key, touch, now)).flights
      ensures f.Some? ==> f.value == Apply(w, CheckBegin(t, key, touch, now)).flights[t]
    {
      hide Prune, Keep;
      PruneAll(now);
      if key !in sessions { return None; }
      return Some(Checking(key, sessions[key], touch, now, false));
    }

    /** The second section of `check`, with the authorization asked for in between, if the
        session's own was a minute old. */
    method CheckSecond(t: Thread, f: Flight, tested: Time, asked: Option<(Time, Actor)>, now: Time, stamp: Time,
                       ghost w: World)
      returns (s: Option<Session>)
      requires w.auth == Tables() && Enabled(w, CheckCommit(t, tested, asked, now, stamp))
      requires f == w.flights[t]
      modifies this
      ensures Tables() == Apply(w, CheckCommit(t, tested, asked, now, stamp)).auth
      ensures s == CheckAnswer(w, CheckCommit(t, tested, asked, now, stamp))
    {
      hide Prune;
      var mine := f.copy;
      if tested - mine.checked >= MINUTE {
        mine := mine.(actor := asked.value.1, checked := asked.value.0);
      }
      PruneAll(now);
      if f.key !in sessions || EpochOf(epochs, mine.actor.id) != mine.epoch { return None; }
      var current := sessions[f.key];
      if mine.checked > current.checked {
        current := current.(actor := mine.actor, checked := mine.checked);
      }
      if f.touch && stamp > current.seen {
        current := current.(seen := stamp);
      }
      sessions := sessions[f.key := current];
      return Some(current);
    }

    method RevokeUser(user: User, ghost w: World)
      requires w.auth == Tables()
      modifies this
      ensures Tables() == Apply(w, Revoke(user)).auth
    {
      epochs := epochs[user := (EpochOf(epochs, user) + 1) % EPOCHS];
      grants := Retain(grants, OtherGrant(user));
      sessions := Retain(sessions, OtherSession(user));
    }

    method LogoutSession(key: Digest, ghost w: World)
      requires w.auth == Tables()
      modifies this
      ensures Tables() == Apply(w, Logout(key)).auth
    {
      sessions := sessions - {key};
    }
  }
}
