/** What holds of the shared player file in every run, whatever the processes do, however
    their steps interleave, and wherever they crash (`fact/playerDB.go`). */
module PlayerSyncRuns {
  import opened Wrappers
  import opened Sets
  import opened ByteStrings
  import opened Text
  import opened PlayerCodec
  import PlayerEnvelope
  import opened PlayerSyncModel
  import opened PlayerSyncTheorems

  // ------------------------------------------------------------------- one writer

  /** At most one process is between taking and releasing the file lock, and one that has
      read the file merges into what the file still holds. */
  lemma OneWriter(w: World, p: nat, q: nat)
    requires Reachable(w) && p < |w.procs| && q < |w.procs|
    ensures Holds(w.procs[p].task) && Holds(w.procs[q].task) ==> p == q
    ensures w.procs[p].task.Merging? ==> w.procs[p].task.buffer == w.file
  {
    ReachableIsSound(w);
    hide ShotInv, MarkInv, NameInv, Replay;
    assert ProcInv(p, w.procs[p], w.clock, w.file, w.holder, w.initial, w.log);
    assert ProcInv(q, w.procs[q], w.clock, w.file, w.holder, w.initial, w.log);
  }

  // ------------------------------------------------------------- what the file holds

  /** The last commit in `log` that contained the player, if there is one. */
  function LastWith(log: seq<Commit>, name: Str): Option<nat>
  {
    if log == [] then None
    else if name in log[|log| - 1].changes then Some(|log| - 1)
    else LastWith(log[..|log| - 1], name)
  }

  lemma {:induction false} LastWithIsLast(log: seq<Commit>, name: Str)
    ensures LastWith(log, name).None? ==> forall i :: 0 <= i < |log| ==> name !in log[i].changes
    ensures LastWith(log, name).Some? ==>
      && LastWith(log, name).value < |log| && name in log[LastWith(log, name).value].changes
      && forall i :: LastWith(log, name).value < i < |log| ==> name !in log[i].changes
    decreases |log|
  {
    if log != [] {
      var rest := log[..|log| - 1];
      LastWithIsLast(rest, name);
      assert forall i :: 0 <= i < |rest| ==> rest[i] == log[i];
    }
  }

  lemma {:induction false} ReplayIsLast(initial: Players, log: seq<Commit>, name: Str)
    ensures LastWith(log, name).Some? ==>
      && LastWith(log, name).value < |log| && name in log[LastWith(log, name).value].changes
      && Find(Replay(initial, log), name) == log[LastWith(log, name).value].changes[name]
    ensures LastWith(log, name).None? ==> Find(Replay(initial, log), name) == Find(initial, name)
    decreases |log|
  {
    if log != [] {
      ReplayIsLast(initial, log[..|log| - 1], name);
    }
  }

  /** Each player on disk is the one of the last committed snapshot that contained it; a
      player no snapshot contained is as it was in the beginning. */
  lemma DiskIsLastCommit(w: World, name: Str)
    requires Reachable(w)
    ensures LastWith(w.log, name).None? ==> Find(w.file, name) == Find(w.initial, name)
    ensures LastWith(w.log, name).Some? ==>
      && LastWith(w.log, name).value < |w.log| && name in w.log[LastWith(w.log, name).value].changes
      && Find(w.file, name) == w.log[LastWith(w.log, name).value].changes[name]
  {
    ReachableIsSound(w);
    ReplayIsLast(w.initial, w.log, name);
  }

  /** Whatever any process writes can be read back: no name is empty, so the encoding of
      the file, when it fits, decodes to the same players. */
  lemma FileStaysReadable(w: World, z: PlayerEnvelope.Codec)
    requires Reachable(w) && z.Sound() && PlayerEnvelope.EncodeBinary(w.file, z).Ok?
    ensures PlayerEnvelope.DecodeBinary(PlayerEnvelope.EncodeBinary(w.file, z).value, z) == Ok(w.file)
  {
    ReachableIsSound(w);
    PlayerEnvelope.DatabaseRoundTrip(w.file, z);
  }

  /** Where a file did carry an empty name, as one in the JSON format can, the first write in
      the binary format keeps it, for no change is ever marked under it, and can no longer be
      read. */
  lemma EmptyNameSticks(file: Players, x: Process, now: nat, z: PlayerEnvelope.Codec)
    requires [] in file && NameInv(x) && z.Sound()
    requires PlayerEnvelope.EncodeBinary(Merge(file, Taken(x, now).changes), z).Ok?
    ensures var after := Merge(file, Taken(x, now).changes);
      [] in after && PlayerEnvelope.DecodeBinary(PlayerEnvelope.EncodeBinary(after, z).value, z).Err?
  {
    var after := Merge(file, Taken(x, now).changes);
    assert Find(after, []) == Find(file, []);
    PlayerEnvelope.DatabaseRoundTrip(after, z);
  }

  // ----------------------------------------------------------------------- marks

  /** A mark disappears, short of a crash, only when a snapshot taken after it was set has
      been committed by the same process. */
  lemma MarksAreDischarged(w: World, e: Event, p: nat, key: Str)
    requires Reachable(w) && Enabled(w, e) && p < |w.procs|
    requires key in w.procs[p].versions && key !in Apply(w, e).procs[p].versions
    requires e != Crash(p)
    ensures e == Complete(p) && key in w.procs[p].marked
    ensures exists i :: 0 <= i < |w.log| && w.log[i].pid == p && w.log[i].boot == w.procs[p].boot
                        && key in w.log[i].changes && w.log[i].taken > w.procs[p].marked[key]
  {
    ReachableIsSound(w);
    OnlyItsProcess(w, e);
    var x := w.procs[p];
    assert ProcInv(p, x, w.clock, w.file, w.holder, w.initial, w.log);
    hide Apply, Load, Replay, NameInv, LockInv, Merge, Find;
    assert e == Complete(p);
    var c := Commit(p, x.boot, x.task.shot.changes, x.task.shot.taken);
    var i :| 0 <= i < |w.log| && w.log[i] == c;
  }

  // ---------------------------------------------------- what a load makes of one player

  /** What a load makes of one player, given what memory and the file say of it. */
  function Settled(versions: map<Str, nat>, mode: Mode, name: Str, before: Option<Player>, rec: Player): Option<Player>
  {
    if mode == NORMAL && name in versions then before
    else if Removes(mode, rec) then None
    else if |name| > MAX_NAME then before
    else if before.Some? then Some(Updated(before.value, Offered(mode, rec)))
    else Some(Offered(mode, rec))
  }

  /** Where the file's names are in lower case, a load treats each player by itself. */
  lemma {:induction false} LoadSettlesEach(
      s: Progress, versions: map<Str, nat>, mode: Mode, read: Players, order: seq<Str>, key: Str)
    requires CanonicalNames(read) && Distinct(order) && forall name :: name in order ==> name in read
    ensures Find(Load(s, versions, mode, read, order).players, key)
         == if key in order then Settled(versions, mode, key, Find(s.players, key), read[key]) else Find(s.players, key)
    decreases |order|
  {
    if order != [] {
      var t := LoadOne(s, versions, mode, order[0], read[order[0]]);
      assert order[0] !in order[1..];
      assert key in order <==> key == order[0] || key in order[1..];
      OneSettlesItsOwn(s, versions, mode, order[0], read[order[0]], key);
      hide LoadOne, Settled;
      LoadSettlesEach(t, versions, mode, read, order[1..], key);
    }
  }

  lemma OneSettlesItsOwn(s: Progress, versions: map<Str, nat>, mode: Mode, name: Str, rec: Player, key: Str)
    requires name != [] && Lower(name) == name
    ensures Find(LoadOne(s, versions, mode, name, rec).players, key)
         == if key == name then Settled(versions, mode, name, Find(s.players, key), rec) else Find(s.players, key)
  {
    hide Lower, Offered, Updated, Removes;
  }

  lemma {:induction false} LoadKeepsPending(s: Progress, versions: map<Str, nat>, read: Players, order: seq<Str>, key: Str)
    requires forall name :: name in order ==> name in read
    requires key in versions
    ensures Find(Load(s, versions, NORMAL, read, order).players, key) == Find(s.players, key)
    decreases |order|
  {
    if order != [] {
      var t := LoadOne(s, versions, NORMAL, order[0], read[order[0]]);
      assert Find(t.players, key) == Find(s.players, key);
      LoadKeepsPending(t, versions, read, order[1..], key);
    }
  }

  /** The record of the file says of a player nothing that memory does not have: the level,
      which counts as a veteran's once the minutes are there; an identifier, which banned
      players do not take over and deleted ones have as "0"; a creation time if there is one;
      no later sighting; no more minutes, unless banned; and no other score, where one is
      kept. */
  predicate SaysNothingNew(had: Player, rec: Player)
  {
    && had.level == (if rec.level == 2 && rec.minutes > VETERAN then 3 else rec.level)
    && (rec.level >= 0 && rec.id != [] ==> had.id == rec.id)
    && (rec.level <= -254 ==> had.id == DELETED_ID)
    && (rec.creation > 0 ==> had.creation == rec.creation)
    && rec.lastSeen <= had.lastSeen
    && (rec.level >= 0 && rec.minutes > 0 ==> rec.minutes <= had.minutes)
    && (0 <= rec.level < 2 && rec.susScore != 0 ==> had.susScore == rec.susScore)
  }

  /** The record as a minimizing load reads it: members and above lose their score, and what
      is no Discord identifier is dropped. */
  function Read(mode: Mode, rec: Player): Player
  {
    if mode.minimize then
      rec.(id := if IsDiscordId(rec.id) then rec.id else [], susScore := if rec.level > 0 then 0 else rec.susScore)
    else rec
  }

  lemma MergeChangesNothingIff(mode: Mode, had: Player, rec: Player)
    ensures Updated(had, Offered(mode, rec)) == had <==> SaysNothingNew(had, Read(mode, rec))
  {
    hide IsDiscordId;
  }

  /** What a load that is not a normal one does not leave alone: a known player whose record
      it removes, or whose record says something new, and an unknown player whose record it
      takes over. */
  predicate Alters(mode: Mode, name: Str, before: Option<Player>, rec: Player)
  {
    if Removes(mode, rec) then before.Some?
    else |name| <= MAX_NAME && (before.Some? ==> !SaysNothingNew(before.value, Read(mode, rec)))
  }

  lemma AltersIff(versions: map<Str, nat>, mode: Mode, name: Str, before: Option<Player>, rec: Player)
    requires mode != NORMAL
    ensures Settled(versions, mode, name, before, rec) != before <==> Alters(mode, name, before, rec)
  {
    if before.Some? { MergeChangesNothingIff(mode, before.value, rec); }
    hide Updated, Offered, SaysNothingNew, Read, Removes;
  }

  /** A load that is under way will put something else in memory than what is there: one for
      booting, minimizing or clearing bans does not spare pending players. */
  ghost predicate Overrides(x: Process, key: Str)
  {
    && x.task.Loading? && x.task.mode != NORMAL
    && (CanonicalNames(x.task.read) ==>
          key in x.task.read && Alters(x.task.mode, key, Find(x.players, key), x.task.read[key]))
  }

  /** A load keeps a pending player exactly when it is a normal one, or the file does not have
      the player, or has a record that neither removes nor alters what is in memory. */
  lemma LoadKeepsPendingIff(x: Process, order: seq<Str>, key: Str)
    requires x.task.Loading? && key in x.versions
    requires CanonicalNames(x.task.read) && IsOrder(order, x.task.read.Keys)
    ensures var r := Load(Progress(x.players, {}, 0), x.versions, x.task.mode, x.task.read, order);
      Find(r.players, key) == Find(x.players, key) <==> !Overrides(x, key)
  {
    var s := Progress(x.players, {}, 0);
    if x.task.mode == NORMAL {
      LoadKeepsPending(s, x.versions, x.task.read, order, key);
    } else {
      LoadSettlesEach(s, x.versions, x.task.mode, x.task.read, order, key);
      if key in x.task.read { AltersIff(x.versions, x.task.mode, key, Find(x.players, key), x.task.read[key]); }
    }
    hide Load, Settled, Alters, CanonicalNames;
  }

  // ------------------------------------------------------- a change reaches the disk

  /** The change of `key` to `player` that process `p` made is safe: either it is still
      marked and in memory, and a snapshot that would clear the mark holds it, or it was
      committed after the first `since` commits. */
  ghost predicate Safe(w: World, p: nat, key: Str, player: Player, since: nat)
  {
    && p < |w.procs|
    && (InCommits(w.log, p, key, player, since) || Kept(w.procs[p], key, player))
  }

  /** One of the commits from `since` on, by process `p`, holds the change. */
  ghost predicate InCommits(log: seq<Commit>, p: nat, key: Str, player: Player, since: nat)
  {
    exists i :: since <= i < |log| && log[i].pid == p && key in log[i].changes && log[i].changes[key] == Some(player)
  }

  lemma CommitsGrow(log: seq<Commit>, later: seq<Commit>, p: nat, key: Str, player: Player, since: nat)
    requires log <= later && InCommits(log, p, key, player, since)
    ensures InCommits(later, p, key, player, since)
  {
    var i :| since <= i < |log| && log[i].pid == p && key in log[i].changes && log[i].changes[key] == Some(player);
    assert later[i] == log[i];
  }

  ghost predicate Kept(x: Process, key: Str, player: Player)
  {
    && key in x.versions && Find(x.players, key) == Some(player)
    && (HasShot(x.task) && !x.task.Committed? && key in x.task.shot.versions
        && x.task.shot.versions[key] == x.versions[key] ==>
          key in x.task.shot.changes && x.task.shot.changes[key] == Some(player))
    && (x.task.Committed? && key in x.task.shot.versions ==> x.task.shot.versions[key] != x.versions[key])
  }

  /** What process `p` may not do for its change to be kept: change the same player again,
      crash, or finish a load that puts something else in memory. */
  ghost predicate Meddles(x: Process, e: Event, p: nat, key: Str)
  {
    && e.pid == p
    && (((e.Touch? || e.Change?) && Lower(e.name) == key) || e.Crash? || (e.ApplyLoad? && Overrides(x, key)))
  }

  ghost predicate Undisturbed(w: World, es: seq<Event>, p: nat, key: Str)
    requires Possible(w, es)
    decreases |es|
  {
    es != [] ==>
      && p < |w.procs| && !Meddles(w.procs[p], es[0], p, key)
      && Undisturbed(Apply(w, es[0]), es[1..], p, key)
  }

  lemma LogGrows(w: World, e: Event)
    requires Enabled(w, e)
    ensures w.log <= Apply(w, e).log
    ensures !(e.Replace? && e.ok) ==> Apply(w, e).log == w.log
    ensures e.Replace? && e.ok ==>
      var shot := w.procs[e.pid].task.shot;
      Apply(w, e).log == w.log + [Commit(e.pid, w.procs[e.pid].boot, shot.changes, shot.taken)]
  {
    hide Next, Merge;
  }

  /** Every own step but a commit keeps a marked change in memory and in snapshots. */
  lemma OwnStepKeeps(w: World, e: Event, x: Process, key: Str, player: Player)
    requires Enabled(w, e) && x == w.procs[e.pid] && ShotInv(x, w.clock)
    requires Kept(x, key, player) && !Meddles(x, e, e.pid, key) && !(e.Replace? && e.ok)
    ensures Kept(Next(x, w, e), key, player)
  {
    if e.ApplyLoad? {
      if x.task.mode == NORMAL {
        LoadKeepsPending(Progress(x.players, {}, 0), x.versions, x.task.read, e.order, key);
      } else {
        LoadKeepsPendingIff(x, e.order, key);
      }
    }
    hide Load, Merge, Lower, MarkKey, Overrides;
  }

  /** A commit either holds the change or leaves its mark. */
  lemma CommitKeeps(w: World, e: Event, x: Process, key: Str, player: Player, since: nat)
    requires Enabled(w, e) && x == w.procs[e.pid] && ShotInv(x, w.clock) && since <= |w.log|
    requires Kept(x, key, player) && e.Replace? && e.ok
    ensures InCommits(Apply(w, e).log, e.pid, key, player, since) || Kept(Next(x, w, e), key, player)
  {
    var log := Apply(w, e).log;
    assert log[|w.log|] == Commit(e.pid, x.boot, x.task.shot.changes, x.task.shot.taken);
    hide Merge, Find;
  }

  lemma SafeStep(w: World, e: Event, p: nat, key: Str, player: Player, since: nat)
    requires Inv(w) && Enabled(w, e) && since <= |w.log|
    requires Safe(w, p, key, player, since) && !Meddles(w.procs[p], e, p, key)
    ensures Safe(Apply(w, e), p, key, player, since)
  {
    var x := w.procs[p];
    var v := Apply(w, e);
    LogGrows(w, e);
    OnlyItsProcess(w, e);
    assert ShotInv(x, w.clock) by { assert ProcInv(p, x, w.clock, w.file, w.holder, w.initial, w.log); }
    hide Apply, Next, Inv, Enabled, ShotInv, Kept, Meddles, InCommits;
    if InCommits(w.log, p, key, player, since) {
      CommitsGrow(w.log, v.log, p, key, player, since);
    } else if e.pid == p {
      if e.Replace? && e.ok {
        CommitKeeps(w, e, x, key, player, since);
      } else {
        OwnStepKeeps(w, e, x, key, player);
      }
    }
  }

  lemma {:induction false} SafeRun(w: World, es: seq<Event>, p: nat, key: Str, player: Player, since: nat)
    requires Inv(w) && Possible(w, es) && since <= |w.log|
    requires Safe(w, p, key, player, since) && Undisturbed(w, es, p, key)
    ensures Safe(Run(w, es), p, key, player, since)
    decreases |es|
  {
    hide Inv, Apply, Enabled, Safe, Meddles;
    if es != [] {
      StepKeeps(w, es[0]);
      SafeStep(w, es[0], p, key, player, since);
      LogGrows(w, es[0]);
      SafeRun(Apply(w, es[0]), es[1..], p, key, player, since);
    }
  }

  /** A process changes a player whose name has no space at either end. From then on, until
      it changes that player again, crashes, or finishes a load that overrides the player, the
      change is either committed or still marked and unaltered in memory. What other
      processes may then do to the committed record is in `PlayerSyncSharing`. */
  lemma ChangesReachDisk(w: World, p: nat, name: Str, player: Player, es: seq<Event>)
    requires Reachable(w) && Enabled(w, Change(p, name, player)) && Trim(name) == name
    requires Possible(Apply(w, Change(p, name, player)), es)
    requires Undisturbed(Apply(w, Change(p, name, player)), es, p, Lower(name))
    ensures Safe(Run(Apply(w, Change(p, name, player)), es), p, Lower(name), player, |w.log|)
  {
    var e := Change(p, name, player);
    ReachableIsSound(w);
    StepKeeps(w, e);
    LogGrows(w, e);
    MarkFindsItsPlayer(name);
    ChangeIsSafe(w, e);
    hide Inv, Apply, Enabled, Safe, Meddles;
    SafeRun(Apply(w, e), es, p, Lower(name), player, |w.log|);
  }

  lemma ChangeIsSafe(w: World, e: Event)
    requires Inv(w) && e.Change? && Enabled(w, e) && MarkKey(Lower(e.name)) == Lower(e.name)
    ensures Safe(Apply(w, e), e.pid, Lower(e.name), e.player, |w.log|)
  {
    var x := w.procs[e.pid];
    assert ShotInv(x, w.clock) by { assert ProcInv(e.pid, x, w.clock, w.file, w.holder, w.initial, w.log); }
    hide Lower, MarkKey;
  }

  // ------------------------------------------------- names with spaces at the ends

  /** A change is marked under the name its player is stored under exactly when the name
      has no space at either end. */
  lemma MarkFindsItsPlayer(name: Str)
    ensures MarkKey(Lower(name)) == Lower(name) <==> Trim(name) == name
  {
    TrimKeepsIff(name, IsSpace);
    TrimKeepsIff(Lower(name), IsSpace);
    LowerIsIdempotent(name);
  }

  /** The events of a write that nothing disturbs. */
  function QuietWrite(p: nat): seq<Event>
  {
    [BeginWrite(p), Acquire(p, true), ReadFile(p, true), Replace(p, true), Complete(p), Release(p)]
  }

  lemma StepThen(w: World, e: Event, es: seq<Event>)
    requires Enabled(w, e) && Possible(Apply(w, e), es)
    ensures Possible(w, [e] + es) && Run(w, [e] + es) == Run(Apply(w, e), es)
  {
    hide Enabled, Apply;
    assert ([e] + es)[1..] == es;
  }

  /** The rest of a write once its marks are taken. */
  lemma QuietMiddle(w: World, p: nat)
    requires p < |w.procs| && w.procs[p].task.Wanting? && w.holder.None?
    ensures var es := [Acquire(p, true), ReadFile(p, true), Replace(p, true)];
      && Possible(w, es)
      && Run(w, es).procs == w.procs[p := w.procs[p].(task := Committed(w.procs[p].task.shot))]
      && Run(w, es).file == Merge(w.file, w.procs[p].task.shot.changes)
  {
    var b := Apply(w, Acquire(p, true));
    var c := Apply(b, ReadFile(p, true));
    var d := Apply(c, Replace(p, true));
    assert Possible(d, []) && Run(d, []) == d;
    StepThen(c, Replace(p, true), []);
    StepThen(b, ReadFile(p, true), [Replace(p, true)]);
    StepThen(w, Acquire(p, true), [ReadFile(p, true), Replace(p, true)]);
    hide Run, Possible, Merge;
    assert [Replace(p, true)] + [] == [Replace(p, true)];
  }

  lemma QuietEnd(w: World, p: nat)
    requires p < |w.procs| && w.procs[p].task.Committed?
    ensures var es := [Complete(p), Release(p)];
      && Possible(w, es) && Run(w, es).file == w.file && Run(w, es).holder.None?
      && Run(w, es).procs == w.procs[p := Completed(w.procs[p], w.procs[p].task.shot.versions).(task := Idle)]
  {
    var b := Apply(w, Complete(p));
    var c := Apply(b, Release(p));
    assert Possible(c, []) && Run(c, []) == c;
    StepThen(b, Release(p), []);
    assert [Release(p)] + [] == [Release(p)];
    StepThen(w, Complete(p), [Release(p)]);
    hide Run, Possible;
  }

  lemma {:induction false} RunsJoin(w: World, a: seq<Event>, b: seq<Event>)
    requires Possible(w, a) && Possible(Run(w, a), b)
    ensures Possible(w, a + b) && Run(w, a + b) == Run(Run(w, a), b)
    decreases |a|
  {
    hide Enabled, Apply;
    if a == [] {
      assert a + b == b;
    } else {
      RunsJoin(Apply(w, a[0]), a[1..], b);
      assert a + b == [a[0]] + (a[1..] + b);
      StepThen(w, a[0], a[1..] + b);
    }
  }

  /** A write that nothing disturbs puts every marked player on disk as memory has it and
      leaves nothing marked. */
  lemma QuietWriteSaves(w: World, p: nat)
    requires p < |w.procs| && w.procs[p].task.Idle? && w.holder.None? && w.procs[p].versions != map[]
    ensures Possible(w, QuietWrite(p))
    ensures var v := Run(w, QuietWrite(p));
      && (forall k :: Find(v.file, k) == if k in w.procs[p].versions then Find(w.procs[p].players, k) else Find(w.file, k))
      && p < |v.procs| && v.procs[p].versions == map[] && v.procs[p].players == w.procs[p].players
      && v.procs[p].task.Idle? && v.holder.None? && |v.procs| == |w.procs|
      && forall q :: 0 <= q < |w.procs| && q != p ==> v.procs[q] == w.procs[q]
  {
    hide Run, Possible, Apply, Enabled, Taken, Merge;
    var x := w.procs[p];
    QuietBegin(w, p);
    var a := Apply(w, BeginWrite(p));
    var middle := [Acquire(p, true), ReadFile(p, true), Replace(p, true)];
    var end := [Complete(p), Release(p)];
    QuietMiddle(a, p);
    var d := Run(a, middle);
    QuietEnd(d, p);
    RunsJoin(a, middle, end);
    StepThen(w, BeginWrite(p), middle + end);
    assert [BeginWrite(p)] + (middle + end) == QuietWrite(p);
    MergeOfTaken(x, w.clock, w.file);
    TakenClears(x, w.clock, d.procs[p]);
  }

  lemma QuietBegin(w: World, p: nat)
    requires p < |w.procs| && w.procs[p].task.Idle? && w.holder.None? && w.procs[p].versions != map[]
    ensures Enabled(w, BeginWrite(p))
    ensures var a := Apply(w, BeginWrite(p));
      && a.procs == w.procs[p := w.procs[p].(task := Wanting(Taken(w.procs[p], w.clock)))]
      && a.file == w.file && a.holder.None?
  {
  }

  lemma MergeOfTaken(x: Process, now: nat, file: Players)
    ensures forall k :: Find(Merge(file, Taken(x, now).changes), k) == if k in x.versions then Find(x.players, k) else Find(file, k)
  {
  }

  lemma TakenClears(x: Process, now: nat, y: Process)
    requires y.versions == x.versions
    ensures Completed(y, Taken(x, now).versions).versions == map[]
    ensures Completed(y, Taken(x, now).versions).players == y.players
  {
  }

  lemma {:induction false} LoadReportsNothing(s: Progress, versions: map<Str, nat>, mode: Mode, read: Players, order: seq<Str>)
    requires forall name :: name in order ==> name in read && Promoted(read[name]) == read[name]
    requires !mode.minimize && !mode.clearBans
    ensures Load(s, versions, mode, read, order).changed == s.changed
    decreases |order|
  {
    if order != [] {
      var t := LoadOne(s, versions, mode, order[0], read[order[0]]);
      assert t.changed == s.changed;
      LoadReportsNothing(t, versions, mode, read, order[1..]);
    }
  }

  /** The events of a load that nothing disturbs and that has nothing to report. */
  function QuietLoad(p: nat, mode: Mode, order: seq<Str>): seq<Event>
  {
    [BeginLoad(p, mode), ApplyLoad(p, order), EndLoad(p)]
  }

  lemma QuietLoadSteps(w: World, p: nat, mode: Mode, order: seq<Str>)
    requires p < |w.procs| && w.procs[p].task.Idle? && IsOrder(order, w.file.Keys)
    requires Load(Progress(w.procs[p].players, {}, 0), w.procs[p].versions, mode, w.file, order).changed == {}
    ensures Possible(w, QuietLoad(p, mode, order))
    ensures var x := w.procs[p];
      var loaded := Load(Progress(x.players, {}, 0), x.versions, mode, w.file, order).players;
      Run(w, QuietLoad(p, mode, order)) == w.(procs := w.procs[p := x.(players := loaded)], clock := w.clock + 3)
  {
    hide Load, Run, Possible;
    var a := Apply(w, BeginLoad(p, mode));
    var b := Apply(a, ApplyLoad(p, order));
    var c := Apply(b, EndLoad(p));
    NoSteps(c);
    StepThen(b, EndLoad(p), []);
    assert [EndLoad(p)] + [] == [EndLoad(p)];
    StepThen(a, ApplyLoad(p, order), [EndLoad(p)]);
    assert [ApplyLoad(p, order)] + [EndLoad(p)] == [ApplyLoad(p, order), EndLoad(p)];
    StepThen(w, BeginLoad(p, mode), [ApplyLoad(p, order), EndLoad(p)]);
    assert [BeginLoad(p, mode)] + [ApplyLoad(p, order), EndLoad(p)] == QuietLoad(p, mode, order);
    var x := w.procs[p];
    var loaded := Load(Progress(x.players, {}, 0), x.versions, mode, w.file, order).players;
    assert c.procs == w.procs[p := x.(players := loaded)];
  }

  lemma QuietBootLoads(w: World, p: nat, order: seq<Str>, key: Str)
    requires p < |w.procs| && w.procs[p].task.Idle? && CanonicalNames(w.file) && IsOrder(order, w.file.Keys)
    requires forall name :: name in w.file ==> Promoted(w.file[name]) == w.file[name]
    requires key in w.file && |key| <= MAX_NAME && key in w.procs[p].players
    ensures Possible(w, QuietLoad(p, BOOT, order))
    ensures var v := Run(w, QuietLoad(p, BOOT, order));
      && v.file == w.file && v.holder == w.holder && |v.procs| == |w.procs|
      && v.procs[p].task.Idle? && v.procs[p].versions == w.procs[p].versions
      && Find(v.procs[p].players, key) == Some(Updated(w.procs[p].players[key], w.file[key]))
  {
    hide Load, Run, Possible, Updated, Promoted, CanonicalNames;
    var s := Progress(w.procs[p].players, {}, 0);
    LoadReportsNothing(s, w.procs[p].versions, BOOT, w.file, order);
    LoadSettlesEach(s, w.procs[p].versions, BOOT, w.file, order, key);
    QuietLoadSteps(w, p, BOOT, order);
  }

  lemma NoSteps(w: World)
    ensures Possible(w, []) && Run(w, []) == w
  {
  }

  /** A load for booting in a process that has changed a player since puts the file's level
      back over the new one, and the next write saves it: the marked change is lost. */
  lemma BootLoadRevertsLevel(w: World, p: nat, key: Str, player: Player, order: seq<Str>)
    requires p < |w.procs| && w.procs[p].task.Idle? && w.holder.None?
    requires CanonicalNames(w.file) && IsOrder(order, w.file.Keys)
    requires forall name :: name in w.file ==> Promoted(w.file[name]) == w.file[name]
    requires key in w.file && |key| <= MAX_NAME && Trim(key) == key
    ensures var es := [Change(p, key, player)] + (QuietLoad(p, BOOT, order) + QuietWrite(p));
      && Possible(w, es)
      && Find(Run(w, es).file, key) == Some(Updated(player, w.file[key]))
      && Run(w, es).file[key].level == w.file[key].level
  {
    hide Run, Possible, Updated;
    var e := Change(p, key, player);
    var v := Apply(w, e);
    MarkFindsItsPlayer(key);
    ChangedThen(w, p, key, player);
    QuietBootLoads(v, p, order, key);
    var u := Run(v, QuietLoad(p, BOOT, order));
    QuietWriteSaves(u, p);
    RunsJoin(v, QuietLoad(p, BOOT, order), QuietWrite(p));
    StepThen(w, e, QuietLoad(p, BOOT, order) + QuietWrite(p));
    UpdatedLevel(player, w.file[key]);
  }

  lemma UpdatedLevel(had: Player, rec: Player)
    ensures Updated(had, rec).level == rec.level
  {
  }

  lemma ChangedThen(w: World, p: nat, key: Str, player: Player)
    requires p < |w.procs| && key != [] && Lower(key) == key && MarkKey(key) == key
    ensures Enabled(w, Change(p, key, player))
    ensures var v := Apply(w, Change(p, key, player));
      && |v.procs| == |w.procs| && v.file == w.file && v.holder == w.holder
      && v.procs[p].task == w.procs[p].task && key in v.procs[p].versions
      && key in v.procs[p].players && v.procs[p].players[key] == player
  {
    hide Lower, MarkKey;
  }

  const BOB: Str := [98, 111, 98]
  const SPACED_BOB: Str := [32, 98, 111, 98]

  /** So from a fresh start over a file with a player of level 0, a change to level 2 can be
      marked, and yet the next write leaves level 0 on disk. */
  lemma BootLoadLosesChange(bob: Player, better: Player) returns (w: World, es: seq<Event>)
    requires bob.level == 0 && better.level == 2
    ensures Initial(w) && Possible(w, es) && es != [] && es[0] == Change(0, BOB, better)
    ensures BOB in Run(w, es).file && Run(w, es).file[BOB].level == 0
  {
    w := World([Fresh(0)], map[BOB := bob], None, 0, map[BOB := bob], []);
    assert Lower(BOB) == BOB && Trim(BOB) == BOB by { TrimKeepsIff(BOB, IsSpace); }
    BootLoadRevertsLevel(w, 0, BOB, better, [BOB]);
    es := [Change(0, BOB, better)] + (QuietLoad(0, BOOT, [BOB]) + QuietWrite(0));
  }

  /** What is on disk after process `p` changes a player and then writes undisturbed. */
  ghost function SavedAfter(w: World, p: nat, name: Str, player: Player): Players
    requires p < |w.procs| && w.procs[p].task.Idle? && w.holder.None? && name != []
  {
    var v := Apply(w, Change(p, name, player));
    if v.procs[p].versions == map[] then v.file
    else
      QuietWriteSaves(v, p);
      Run(v, QuietWrite(p)).file
  }

  /** The change of a player reaches the disk with the next write exactly when the name has
      no space at either end, or the disk had it all along. Otherwise the write puts some
      other player on disk, and removes it when memory does not know it. */
  lemma ChangeIsSavedIff(w: World, p: nat, name: Str, player: Player)
    requires p < |w.procs| && w.procs[p].task.Idle? && w.holder.None? && w.procs[p].versions == map[] && name != []
    ensures Find(SavedAfter(w, p, name, player), Lower(name)) == Some(player)
       <==> Trim(name) == name || Find(w.file, Lower(name)) == Some(player)
    ensures Trim(name) != name && MarkKey(Lower(name)) != [] ==>
      Find(SavedAfter(w, p, name, player), MarkKey(Lower(name))) == Find(w.procs[p].players, MarkKey(Lower(name)))
  {
    MarkFindsItsPlayer(name);
    var v := Apply(w, Change(p, name, player));
    var key := MarkKey(Lower(name));
    assert v.procs[p].versions == if key == [] then map[] else map[key := w.procs[p].next + 1];
    assert Find(v.procs[p].players, Lower(name)) == Some(player);
    assert key != Lower(name) ==> Find(v.procs[p].players, key) == Find(w.procs[p].players, key);
    if key != [] {
      assert key in v.procs[p].versions;
      QuietWriteSaves(v, p);
    }
    hide Lower, MarkKey, Trim, Run, Possible, Apply;
  }

  lemma SpacedBobTrims()
    ensures Lower(SPACED_BOB) == SPACED_BOB && MarkKey(SPACED_BOB) == BOB && Trim(SPACED_BOB) != SPACED_BOB
    ensures BOB != [] && BOB != SPACED_BOB && SPACED_BOB != []
  {
    assert Lower(SPACED_BOB) == SPACED_BOB && Lower(BOB) == BOB;
    var left: Str, right: Str := [32], [];
    assert left + BOB + right == SPACED_BOB;
    TrimTakesPadding(left, BOB, right, IsSpace);
  }

  /** Two processes load an empty file at their start. */
  lemma TwoBoots(w: World) returns (es: seq<Event>)
    requires w == World([Fresh(0), Fresh(0)], map[], None, 0, map[], [])
    ensures Possible(w, es) && Run(w, es) == w.(clock := 6) && QuietLoad(0, BOOT, []) <= es
  {
    hide Possible, Run;
    QuietLoadSteps(w, 0, BOOT, []);
    var a := Run(w, QuietLoad(0, BOOT, []));
    assert a == w.(clock := 3);
    QuietLoadSteps(a, 1, BOOT, []);
    assert Run(a, QuietLoad(1, BOOT, [])) == w.(clock := 6);
    RunsJoin(w, QuietLoad(0, BOOT, []), QuietLoad(1, BOOT, []));
    es := QuietLoad(0, BOOT, []) + QuietLoad(1, BOOT, []);
  }

  lemma BobIsWritten(w: World, bob: Player) returns (es: seq<Event>)
    requires w.procs == [Fresh(0), Fresh(0)] && w.file == map[] && w.holder.None?
    ensures Possible(w, es)
    ensures var v := Run(w, es);
      v.file == map[BOB := bob] && |v.procs| == 2 && v.procs[0] == Fresh(0) && v.holder.None?
  {
    assert Lower(BOB) == BOB && Trim(BOB) == BOB by { TrimKeepsIff(BOB, IsSpace); }
    MarkFindsItsPlayer(BOB);
    hide Lower, MarkKey, Trim, Possible, Run;
    var v := Apply(w, Change(1, BOB, bob));
    ChangedThen(w, 1, BOB, bob);
    assert v.procs[1].versions.Keys == {BOB} && v.procs[0] == Fresh(0);
    QuietWriteSaves(v, 1);
    StepThen(w, Change(1, BOB, bob), QuietWrite(1));
    es := [Change(1, BOB, bob)] + QuietWrite(1);
    FoundIsEqual(Run(v, QuietWrite(1)).file, map[BOB := bob]);
  }

  /** The second one adds "bob" to it. */
  lemma BobIsAdded(bob: Player) returns (w: World, es: seq<Event>)
    ensures Initial(w) && Possible(w, es) && |w.procs| == 2 && QuietLoad(0, BOOT, []) <= es
    ensures var v := Run(w, es);
      && v.file == map[BOB := bob] && |v.procs| == 2 && v.procs[0] == Fresh(0) && v.holder.None?
  {
    hide Possible, Run;
    w := World([Fresh(0), Fresh(0)], map[], None, 0, map[], []);
    var first := TwoBoots(w);
    var second := BobIsWritten(w.(clock := 6), bob);
    RunsJoin(w, first, second);
    es := first + second;
  }

  /** A process loads the file at its start, another one adds "bob" to it, and then the first
      is told of " bob", whom the ban list may name so (`banlist/banList.go:188`), stores him
      and writes: "bob" is gone from the disk, and " bob" is not there either. */
  lemma SpacedNameDropsAnother(bob: Player, spaced: Player) returns (w: World, es: seq<Event>)
    ensures Initial(w) && Possible(w, es) && QuietLoad(0, BOOT, []) <= es && BOB in Run(w, es).file
    ensures var v := Run(w, es);
      && |v.procs| == 2 && v.procs[0].task.Idle? && v.holder.None? && SPACED_BOB != []
      && BOB !in SavedAfter(v, 0, SPACED_BOB, spaced) && SPACED_BOB !in SavedAfter(v, 0, SPACED_BOB, spaced)
  {
    hide Lower, MarkKey, Trim, Possible, Run, Apply;
    w, es := BobIsAdded(bob);
    var v := Run(w, es);
    SpacedBobTrims();
    ChangeIsSavedIff(v, 0, SPACED_BOB, spaced);
    OnlyMarkedMove(v, 0, SPACED_BOB, spaced);
    assert Find(SavedAfter(v, 0, SPACED_BOB, spaced), BOB) == None;
    assert Find(SavedAfter(v, 0, SPACED_BOB, spaced), SPACED_BOB) == None;
  }

  lemma OnlyMarkedMove(w: World, p: nat, name: Str, player: Player)
    requires p < |w.procs| && w.procs[p].task.Idle? && w.holder.None? && w.procs[p].versions == map[] && name != []
    ensures forall k :: k != MarkKey(Lower(name)) ==> Find(SavedAfter(w, p, name, player), k) == Find(w.file, k)
  {
    var v := Apply(w, Change(p, name, player));
    var key := MarkKey(Lower(name));
    assert v.procs[p].versions == if key == [] then map[] else map[key := w.procs[p].next + 1];
    if key != [] {
      assert key in v.procs[p].versions;
      QuietWriteSaves(v, p);
    }
    hide Lower, MarkKey, Run, Possible, Apply;
  }

  // --------------------------------------------------------------------- reloads

  /** What a load may do to the players that are already known. */
  ghost predicate Raises(before: Players, after: Players)
  {
    forall k :: k in before ==>
      k in after && after[k].lastSeen >= before[k].lastSeen && after[k].minutes >= before[k].minutes
  }

  /** A reload forgets no player and never lowers when one was last seen or how long one
      has played, whatever is on disk and in whatever order it is visited. */
  lemma {:induction false} ReloadNeverLowers(s: Progress, versions: map<Str, nat>, read: Players, order: seq<Str>)
    requires forall name :: name in order ==> name in read
    ensures Raises(s.players, Load(s, versions, NORMAL, read, order).players)
    decreases |order|
  {
    if order != [] {
      var t := LoadOne(s, versions, NORMAL, order[0], read[order[0]]);
      assert Raises(s.players, t.players);
      ReloadNeverLowers(t, versions, read, order[1..]);
    }
  }

  /** A load writes at most six bans, and none while booting. */
  lemma {:induction false} FewBans(s: Progress, versions: map<Str, nat>, mode: Mode, read: Players, order: seq<Str>)
    requires forall name :: name in order ==> name in read
    requires s.bans <= 6
    ensures Load(s, versions, mode, read, order).bans <= 6
    ensures mode.boot ==> Load(s, versions, mode, read, order).bans == s.bans
    decreases |order|
  {
    if order != [] {
      FewBans(LoadOne(s, versions, mode, order[0], read[order[0]]), versions, mode, read, order[1..]);
    }
  }

  /** The order in which a map happens to be iterated does not matter then. */
  lemma LoadOrderDoesNotMatter(
      s: Progress, versions: map<Str, nat>, mode: Mode, read: Players, one: seq<Str>, other: seq<Str>)
    requires CanonicalNames(read) && IsOrder(one, read.Keys) && IsOrder(other, read.Keys)
    ensures Load(s, versions, mode, read, one).players == Load(s, versions, mode, read, other).players
  {
    var a := Load(s, versions, mode, read, one).players;
    var b := Load(s, versions, mode, read, other).players;
    hide Load;
    forall key ensures Find(a, key) == Find(b, key) {
      LoadSettlesEach(s, versions, mode, read, one, key);
      LoadSettlesEach(s, versions, mode, read, other, key);
    }
    FoundIsEqual(a, b);
  }

  /** A record that a load takes over as it is although merging it once more would set its
      identifier to "0": that of a deleted player nobody knew, with any other identifier or
      none. */
  predicate Unstable(versions: map<Str, nat>, name: Str, before: Option<Player>, rec: Player)
  {
    && name !in versions && |name| <= MAX_NAME && before.None?
    && rec.level <= -254 && rec.id != DELETED_ID
  }

  lemma SettledTwice(versions: map<Str, nat>, name: Str, before: Option<Player>, rec: Player)
    ensures var once := Settled(versions, NORMAL, name, before, rec);
      Settled(versions, NORMAL, name, once, rec) == once <==> !Unstable(versions, name, before, rec)
  {
  }

  lemma SettledTwiceIn(s: Progress, versions: map<Str, nat>, read: Players, order: seq<Str>, again: seq<Str>, key: Str)
    requires CanonicalNames(read) && IsOrder(order, read.Keys) && IsOrder(again, read.Keys)
    ensures var once := Load(s, versions, NORMAL, read, order);
      Find(Load(once, versions, NORMAL, read, again).players, key) == Find(once.players, key)
      <==> !(key in read && Unstable(versions, key, Find(s.players, key), read[key]))
  {
    hide Load, Settled, Unstable, CanonicalNames;
    var once := Load(s, versions, NORMAL, read, order);
    LoadSettlesEach(s, versions, NORMAL, read, order, key);
    LoadSettlesEach(once, versions, NORMAL, read, again, key);
    if key in read { SettledTwice(versions, key, Find(s.players, key), read[key]); }
  }

  /** Loading the same file once more changes nothing, in whatever orders the two loads visit
      it, exactly when the file has no deleted player that was unknown before and whose
      identifier is not yet "0". */
  lemma LoadIsIdempotentIff(s: Progress, versions: map<Str, nat>, read: Players, order: seq<Str>, again: seq<Str>)
    requires CanonicalNames(read) && IsOrder(order, read.Keys) && IsOrder(again, read.Keys)
    ensures var once := Load(s, versions, NORMAL, read, order);
      Load(once, versions, NORMAL, read, again).players == once.players
      <==> forall key :: key in read ==> !Unstable(versions, key, Find(s.players, key), read[key])
  {
    hide Load, Unstable, CanonicalNames;
    var once := Load(s, versions, NORMAL, read, order);
    var twice := Load(once, versions, NORMAL, read, again);
    forall key
      ensures Find(twice.players, key) == Find(once.players, key)
        <==> !(key in read && Unstable(versions, key, Find(s.players, key), read[key]))
    {
      SettledTwiceIn(s, versions, read, order, again, key);
    }
    if forall key :: key in read ==> !Unstable(versions, key, Find(s.players, key), read[key]) {
      FoundIsEqual(twice.players, once.players);
    }
  }

  /** What a process reads contains everything it has committed itself: of a player it ever
      saved, a load finds that record or one that was committed later. */
  lemma LoadSeesOwnCommits(w: World, p: nat, name: Str, i: nat)
    requires Reachable(w) && p < |w.procs| && w.procs[p].task.Loading?
    requires i < |w.log| && w.log[i].pid == p && name in w.log[i].changes
    ensures exists j :: i <= j < |w.log| && name in w.log[j].changes
                        && Find(w.procs[p].task.read, name) == w.log[j].changes[name]
  {
    ReachableIsSound(w);
    var t := w.procs[p].task;
    assert ProcInv(p, w.procs[p], w.clock, w.file, w.holder, w.initial, w.log);
    hide Inv, ShotInv, MarkInv, NameInv, LockInv, Replay;
    var seen := w.log[..t.seen];
    ReplayIsLast(w.initial, seen, name);
    LastWithIsLast(seen, name);
    assert seen[i] == w.log[i];
    var j := LastWith(seen, name).value;
    assert seen[j] == w.log[j];
  }
}
