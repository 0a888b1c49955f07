/** What other processes do to a record once it is on disk (`fact/playerDB.go`).

    A commit puts the records of the marked players in the file; it does not look at what
    is there. A process that still has a mark of its own for the player skips him when it
    reloads, and its next write puts its whole old record over the committed one. */
module PlayerSyncSharing {
  import opened Wrappers
  import opened Sets
  import opened ByteStrings
  import opened Text
  import opened PlayerCodec
  import opened PlayerSyncModel
  import opened PlayerSyncTheorems
  import opened PlayerSyncRuns

  // ------------------------------------------------------------- one player, all runs

  /** A commit of something else for the player than what the file has. */
  predicate Overwrites(file: Players, x: Process, e: Event, key: Str)
  {
    && e.Replace? && e.ok && HasShot(x.task)
    && key in x.task.shot.changes && x.task.shot.changes[key] != Find(file, key)
  }

  lemma FileAfter(w: World, e: Event, key: Str)
    requires Inv(w) && Enabled(w, e)
    ensures Find(Apply(w, e).file, key) ==
      if e.Replace? && e.ok && key in w.procs[e.pid].task.shot.changes then w.procs[e.pid].task.shot.changes[key]
      else Find(w.file, key)
  {
    assert ProcInv(e.pid, w.procs[e.pid], w.clock, w.file, w.holder, w.initial, w.log);
    hide Next, Replay, ShotInv, MarkInv, NameInv, LockInv;
  }

  ghost predicate StaysOnDisk(w: World, es: seq<Event>, key: Str, record: Option<Player>)
    requires Possible(w, es)
    decreases |es|
  {
    Find(w.file, key) == record && (es != [] ==> StaysOnDisk(Apply(w, es[0]), es[1..], key, record))
  }

  ghost predicate SomeOverwrites(w: World, es: seq<Event>, key: Str)
    requires Possible(w, es)
    decreases |es|
  {
    es != [] && (Overwrites(w.file, w.procs[es[0].pid], es[0], key) || SomeOverwrites(Apply(w, es[0]), es[1..], key))
  }

  lemma {:induction false} StaysRun(w: World, es: seq<Event>, key: Str)
    requires Inv(w) && Possible(w, es)
    ensures StaysOnDisk(w, es, key, Find(w.file, key)) <==> !SomeOverwrites(w, es, key)
    decreases |es|
  {
    if es != [] {
      StepKeeps(w, es[0]);
      FileAfter(w, es[0], key);
      hide Inv, Apply, Find;
      var v := Apply(w, es[0]);
      if Find(v.file, key) == Find(w.file, key) { StaysRun(v, es[1..], key); }
    }
  }

  /** A record on disk stays there through all of a run exactly when every commit of the run,
      by whatever process, either does not have the player in its snapshot or has that very
      record there. */
  lemma StaysOnDiskIff(w: World, es: seq<Event>, key: Str)
    requires Reachable(w) && Possible(w, es)
    ensures StaysOnDisk(w, es, key, Find(w.file, key)) <==> !SomeOverwrites(w, es, key)
  {
    ReachableIsSound(w);
    StaysRun(w, es, key);
  }

  // --------------------------------------------------------- what a caller can look at

  /** Nothing of the player is marked in a process or on its way to the file. */
  predicate Free(x: Process, key: Str)
  {
    key !in x.versions && (HasShot(x.task) ==> key !in x.task.shot.changes)
  }

  predicate Marks(e: Event, key: Str)
  {
    match e
    case Mark(_, name) => MarkKey(name) == key
    case Change(_, name, _) => MarkKey(Lower(name)) == key
    case Report(_, name) => MarkKey(name) == key
    case _ => false
  }

  lemma FreeStep(w: World, e: Event, x: Process, key: Str)
    requires Enabled(w, e) && x == w.procs[e.pid] && Free(x, key) && !Marks(e, key)
    ensures Free(Next(x, w, e), key) && !Overwrites(w.file, x, e, key)
  {
    hide Load, Merge, Lower, MarkKey;
  }

  ghost predicate AllFree(procs: seq<Process>, key: Str)
  {
    forall p :: 0 <= p < |procs| ==> Free(procs[p], key)
  }

  lemma {:induction false} FreeRun(w: World, es: seq<Event>, key: Str)
    requires Possible(w, es) && AllFree(w.procs, key) && forall i :: 0 <= i < |es| ==> !Marks(es[i], key)
    ensures !SomeOverwrites(w, es, key)
    decreases |es|
  {
    if es != [] {
      var e := es[0];
      FreeStep(w, e, w.procs[e.pid], key);
      OnlyItsProcess(w, e);
      hide Apply, Enabled, Free, Marks, Overwrites;
      FreeRun(Apply(w, e), es[1..], key);
    }
  }

  /** Where no process has the player marked or on its way to the file, whatever the file has
      of the player stays until someone marks the player. */
  lemma UnmarkedStays(w: World, es: seq<Event>, key: Str)
    requires Reachable(w) && Possible(w, es)
    requires AllFree(w.procs, key) && forall i :: 0 <= i < |es| ==> !Marks(es[i], key)
    ensures StaysOnDisk(w, es, key, Find(w.file, key))
  {
    FreeRun(w, es, key);
    StaysOnDiskIff(w, es, key);
  }

  /** A process that reloads and then writes leaves the player on disk as it was exactly when
      it had no mark of the player, or the same record in memory all along; otherwise its
      whole record replaces the one on disk, reload or not. */
  lemma ReloadedWriteKeepsIff(w: World, p: nat, order: seq<Str>, key: Str)
    requires p < |w.procs| && w.procs[p].task.Idle? && w.holder.None? && w.procs[p].versions != map[]
    requires IsOrder(order, w.file.Keys) && forall name :: name in w.file ==> Promoted(w.file[name]) == w.file[name]
    ensures var es := QuietLoad(p, NORMAL, order) + QuietWrite(p);
      && Possible(w, es)
      && ((Find(Run(w, es).file, key) == Find(w.file, key)) <==>
          (key !in w.procs[p].versions || Find(w.procs[p].players, key) == Find(w.file, key)))
      && (key in w.procs[p].versions ==> Find(Run(w, es).file, key) == Find(w.procs[p].players, key))
  {
    hide Load, Run, Possible, Promoted;
    var x := w.procs[p];
    var s := Progress(x.players, {}, 0);
    LoadReportsNothing(s, x.versions, NORMAL, w.file, order);
    QuietLoadSteps(w, p, NORMAL, order);
    var v := Run(w, QuietLoad(p, NORMAL, order));
    assert v.procs[p] == x.(players := Load(s, x.versions, NORMAL, w.file, order).players);
    if key in x.versions { LoadKeepsPending(s, x.versions, w.file, order, key); }
    QuietWriteSaves(v, p);
    RunsJoin(w, QuietLoad(p, NORMAL, order), QuietWrite(p));
  }

  // ------------------------------------------------------------------ an undone change

  /** One process changes a player and writes; then the one with the older mark reloads and
      writes. */
  function ChangeThenOther(a: nat, b: nat, key: Str, player: Player, order: seq<Str>): seq<Event>
  {
    ([Change(a, key, player)] + QuietWrite(a)) + (QuietLoad(b, NORMAL, order) + QuietWrite(b))
  }

  lemma ChangeIsWritten(w: World, a: nat, key: Str, player: Player)
    requires a < |w.procs| && w.procs[a].task.Idle? && w.holder.None? && w.procs[a].versions == map[]
    requires key != [] && Lower(key) == key && Trim(key) == key
    ensures var es := [Change(a, key, player)] + QuietWrite(a);
      && Possible(w, es)
      && var v := Run(w, es);
         && v.file == w.file[key := player] && v.holder.None? && |v.procs| == |w.procs|
         && v.procs[a].task.Idle? && v.procs[a].versions == map[] && Find(v.procs[a].players, key) == Some(player)
         && forall q :: 0 <= q < |w.procs| && q != a ==> v.procs[q] == w.procs[q]
  {
    MarkFindsItsPlayer(key);
    hide Lower, MarkKey, Trim, Possible, Run;
    var v := Apply(w, Change(a, key, player));
    ChangedThen(w, a, key, player);
    assert v.procs[a].versions.Keys == {key};
    QuietWriteSaves(v, a);
    StepThen(w, Change(a, key, player), QuietWrite(a));
    FoundIsEqual(Run(v, QuietWrite(a)).file, w.file[key := player]);
  }

  /** The change reaches the disk, and the older record of the other process replaces it. */
  lemma OlderMarkUndoesChange(w: World, a: nat, b: nat, key: Str, player: Player, order: seq<Str>)
    requires a < |w.procs| && b < |w.procs| && a != b && w.holder.None?
    requires w.procs[a].task.Idle? && w.procs[b].task.Idle? && w.procs[a].versions == map[]
    requires key != [] && Lower(key) == key && Trim(key) == key && key in w.procs[b].versions
    requires IsOrder(order, w.file.Keys + {key})
    requires Promoted(player) == player && forall name :: name in w.file ==> Promoted(w.file[name]) == w.file[name]
    ensures var change := [Change(a, key, player)] + QuietWrite(a);
      && Possible(w, change) && Find(Run(w, change).file, key) == Some(player)
      && Possible(w, ChangeThenOther(a, b, key, player, order))
      && Find(Run(w, ChangeThenOther(a, b, key, player, order)).file, key) == Find(w.procs[b].players, key)
  {
    hide Lower, MarkKey, Trim, Possible, Run, Promoted;
    var change := [Change(a, key, player)] + QuietWrite(a);
    ChangeIsWritten(w, a, key, player);
    var v := Run(w, change);
    assert v.file.Keys == w.file.Keys + {key};
    assert forall name :: name in v.file ==> Promoted(v.file[name]) == v.file[name];
    ReloadedWriteKeepsIff(v, b, order, key);
    RunsJoin(w, change, QuietLoad(b, NORMAL, order) + QuietWrite(b));
  }

  /** A process whose players were loaded from the file at its start, as the rest of it is. */
  lemma BobIsLoaded(w: World, p: nat, bob: Player)
    requires p < |w.procs| && w.procs[p] == Fresh(0) && w.file == map[BOB := bob] && bob.level == 0
    ensures Possible(w, QuietLoad(p, BOOT, [BOB]))
    ensures var x := Fresh(0).(players := map[BOB := bob]);
      Run(w, QuietLoad(p, BOOT, [BOB])) == w.(procs := w.procs[p := x], clock := w.clock + 3)
  {
    hide Possible, Run, Load;
    var s := Progress(map[], {}, 0);
    assert Lower(BOB) == BOB;
    LoadReportsNothing(s, map[], BOOT, w.file, [BOB]);
    var loaded := Load(s, map[], BOOT, w.file, [BOB]).players;
    forall key ensures Find(loaded, key) == Find(map[BOB := bob], key) {
      LoadSettlesEach(s, map[], BOOT, w.file, [BOB], key);
    }
    FoundIsEqual(loaded, map[BOB := bob]);
    QuietLoadSteps(w, p, BOOT, [BOB]);
  }

  /** Both processes have loaded "bob", and the second one has marked a sighting of him. */
  lemma BobIsSeen(bob: Player, seen: Player) returns (w: World, es: seq<Event>)
    requires bob.level == 0
    ensures Initial(w) && Possible(w, es) && QuietLoad(0, BOOT, [BOB]) + QuietLoad(1, BOOT, [BOB]) <= es
    ensures var v := Run(w, es);
      && v.file == map[BOB := bob] && v.holder.None? && |v.procs| == 2
      && v.procs[0] == Fresh(0).(players := map[BOB := bob])
      && v.procs[1].task.Idle? && v.procs[1].versions.Keys == {BOB} && Find(v.procs[1].players, BOB) == Some(seen)
  {
    hide Possible, Run;
    w := World([Fresh(0), Fresh(0)], map[BOB := bob], None, 0, map[BOB := bob], []);
    BobIsLoaded(w, 0, bob);
    var a := Run(w, QuietLoad(0, BOOT, [BOB]));
    BobIsLoaded(a, 1, bob);
    var b := Run(a, QuietLoad(1, BOOT, [BOB]));
    assert Lower(BOB) == BOB && Trim(BOB) == BOB by { TrimKeepsIff(BOB, IsSpace); }
    MarkFindsItsPlayer(BOB);
    ChangedThen(b, 1, BOB, seen);
    assert b.procs[0] == Fresh(0).(players := map[BOB := bob]);
    NoSteps(Apply(b, Change(1, BOB, seen)));
    StepThen(b, Change(1, BOB, seen), []);
    assert Apply(b, Change(1, BOB, seen)).procs[0] == b.procs[0];
    var loads := QuietLoad(0, BOOT, [BOB]) + QuietLoad(1, BOOT, [BOB]);
    RunsJoin(w, QuietLoad(0, BOOT, [BOB]), QuietLoad(1, BOOT, [BOB]));
    RunsJoin(w, loads, [Change(1, BOB, seen)] + []);
    es := loads + ([Change(1, BOB, seen)] + []);
  }

  /** A normal reload takes the level of the file for a player who is not marked. */
  lemma ReloadTakesLevel(w: World, p: nat, order: seq<Str>, key: Str)
    requires p < |w.procs| && w.procs[p].task.Idle? && IsOrder(order, w.file.Keys) && CanonicalNames(w.file)
    requires forall name :: name in w.file ==> Promoted(w.file[name]) == w.file[name]
    requires key in w.file && |key| <= MAX_NAME && key !in w.procs[p].versions && key in w.procs[p].players
    ensures Possible(w, QuietLoad(p, NORMAL, order))
    ensures var v := Run(w, QuietLoad(p, NORMAL, order));
      p < |v.procs| && v.file == w.file && key in v.procs[p].players && v.procs[p].players[key].level == w.file[key].level
  {
    hide Load, Run, Possible, Promoted, CanonicalNames;
    var x := w.procs[p];
    var s := Progress(x.players, {}, 0);
    LoadReportsNothing(s, x.versions, NORMAL, w.file, order);
    LoadSettlesEach(s, x.versions, NORMAL, w.file, order, key);
    QuietLoadSteps(w, p, NORMAL, order);
  }

  /** So a ban can be undone. From a fresh start two processes load "bob", and the second
      notes that it saw him; then the first one bans him and writes, and the ban is on disk.
      The second one reloads and writes its note: the ban is gone from the disk, and with
      its next reload also from the memory of the process that had set it. */
  lemma BanIsUndone(bob: Player, seen: Player, banned: Player)
    returns (w: World, first: seq<Event>, ban: seq<Event>, note: seq<Event>, reload: seq<Event>)
    requires bob.level == 0 && seen.level == 0 && banned.level == -1
    ensures Initial(w) && Possible(w, first) && QuietLoad(0, BOOT, [BOB]) + QuietLoad(1, BOOT, [BOB]) <= first
    ensures ban == [Change(0, BOB, banned)] + QuietWrite(0)
    ensures Possible(w, first + ban) && Find(Run(w, first + ban).file, BOB) == Some(banned)
    ensures note == QuietLoad(1, NORMAL, [BOB]) + QuietWrite(1)
    ensures Possible(w, first + (ban + note)) && Find(Run(w, first + (ban + note)).file, BOB) == Some(seen)
    ensures Possible(w, first + ((ban + note) + reload)) && reload == QuietLoad(0, NORMAL, [BOB])
    ensures var v := Run(w, first + ((ban + note) + reload));
      |v.procs| == 2 && BOB in v.procs[0].players && v.procs[0].players[BOB].level == 0
  {
    hide Possible, Run;
    w, first := BobIsSeen(bob, seen);
    ban, note, reload := [Change(0, BOB, banned)] + QuietWrite(0), QuietLoad(1, NORMAL, [BOB]) + QuietWrite(1), QuietLoad(0, NORMAL, [BOB]);
    var v := Run(w, first);
    assert Lower(BOB) == BOB && Trim(BOB) == BOB by { TrimKeepsIff(BOB, IsSpace); }
    OlderMarkUndoesChange(v, 0, 1, BOB, banned, [BOB]);
    RunsJoin(w, first, ban);
    RunsJoin(w, first, ban + note);
    var t := AfterTheNote(v, BOB, seen, banned);
    UndoneBanIsReloaded(t, seen);
    RunsJoin(v, ban + note, reload);
    RunsJoin(w, first, (ban + note) + reload);
  }

  lemma AfterTheNote(v: World, key: Str, seen: Player, banned: Player) returns (t: World)
    requires |v.procs| == 2 && v.holder.None? && v.file.Keys == {key} && v.procs[0].task.Idle? && v.procs[0].versions == map[]
    requires v.procs[1].task.Idle? && v.procs[1].versions.Keys == {key} && Find(v.procs[1].players, key) == Some(seen)
    requires key != [] && Lower(key) == key && Trim(key) == key && Promoted(banned) == banned
    ensures var es := ChangeThenOther(0, 1, key, banned, [key]); Possible(v, es) && Run(v, es) == t
    ensures |t.procs| == 2 && t.file == map[key := seen]
    ensures t.procs[0].task.Idle? && t.procs[0].versions == map[] && Find(t.procs[0].players, key) == Some(banned)
  {
    hide Lower, Trim, Possible, Run, Promoted;
    var ban := [Change(0, key, banned)] + QuietWrite(0);
    var note := QuietLoad(1, NORMAL, [key]) + QuietWrite(1);
    ChangeIsWritten(v, 0, key, banned);
    var u := Run(v, ban);
    OtherReloadsAndWrites(u, 1, key);
    t := Run(u, note);
    RunsJoin(v, ban, note);
  }

  lemma UndoneBanIsReloaded(t: World, seen: Player)
    requires |t.procs| == 2 && t.file == map[BOB := seen] && seen.level == 0
    requires t.procs[0].task.Idle? && t.procs[0].versions == map[] && BOB in t.procs[0].players
    ensures Possible(t, QuietLoad(0, NORMAL, [BOB]))
    ensures var v := Run(t, QuietLoad(0, NORMAL, [BOB]));
      |v.procs| == 2 && BOB in v.procs[0].players && v.procs[0].players[BOB].level == 0
  {
    assert Lower(BOB) == BOB;
    hide Lower, Possible, Run, Load;
    ReloadTakesLevel(t, 0, [BOB], BOB);
    LoadReportsNothing(Progress(t.procs[0].players, {}, 0), map[], NORMAL, t.file, [BOB]);
    QuietLoadSteps(t, 0, NORMAL, [BOB]);
  }

  /** What a reload and a write of a process leave of the rest of the world. */
  lemma OtherReloadsAndWrites(w: World, p: nat, key: Str)
    requires p < |w.procs| && w.procs[p].task.Idle? && w.holder.None? && key in w.procs[p].versions
    requires w.file.Keys == {key} && Promoted(w.file[key]) == w.file[key] && key in w.procs[p].players
    requires w.procs[p].versions.Keys == {key}
    ensures var es := QuietLoad(p, NORMAL, [key]) + QuietWrite(p);
      && Possible(w, es)
      && var v := Run(w, es);
         && v.file == map[key := w.procs[p].players[key]] && |v.procs| == |w.procs|
         && forall q :: 0 <= q < |w.procs| && q != p ==> v.procs[q] == w.procs[q]
  {
    hide Load, Run, Possible, Promoted;
    var x := w.procs[p];
    var s := Progress(x.players, {}, 0);
    LoadReportsNothing(s, x.versions, NORMAL, w.file, [key]);
    QuietLoadSteps(w, p, NORMAL, [key]);
    var v := Run(w, QuietLoad(p, NORMAL, [key]));
    LoadKeepsPending(s, x.versions, w.file, [key], key);
    QuietWriteSaves(v, p);
    RunsJoin(w, QuietLoad(p, NORMAL, [key]), QuietWrite(p));
    FoundIsEqual(Run(v, QuietWrite(p)).file, map[key := x.players[key]]);
  }
}
