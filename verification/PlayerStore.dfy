/** The player list of one process in the form the program has: maps updated in place, and
    loops over them in whatever order a map is iterated (`fact/playerDB.go`). Each method is
    a section of the state machine in PlayerSyncModel, and its contract says which; writing
    and loading are the sections one after the other. */
module PlayerStore {
  import opened Wrappers
  import opened Sets
  import opened ByteStrings
  import opened PlayerCodec
  import opened PlayerSyncModel

  /** The shared file. */
  class Disk {
    var content: Players

    constructor (content: Players)
      ensures this.content == content
    {
      this.content := content;
    }
  }

  /** `mergePlayerChanges`. */
  method MergePlayerChanges(players: Players, changes: Changes) returns (merged: Players)
    ensures merged == Merge(players, changes)
  {
    merged := players;
    var rest := changes.Keys;
    while rest != {}
      invariant rest <= changes.Keys
      invariant forall k :: Find(merged, k) == if k in changes && k !in rest then changes[k] else Find(players, k)
      decreases rest
    {
      var name :| name in rest;
      var change := changes[name];
      if change.None? {
        merged := merged - {name};
      } else {
        merged := merged[name := change.value];
      }
      rest := rest - {name};
    }
    FoundIsEqual(merged, Merge(players, changes));
  }

  /** The marks taken, but for those in `rest`. */
  ghost function Part(taken: map<Str, nat>, rest: set<Str>): map<Str, nat>
  {
    map k | k in taken && k !in rest :: taken[k]
  }

  lemma OneMoreCompleted(x: Process, taken: map<Str, nat>, rest: set<Str>, name: Str)
    requires name in rest && rest <= taken.Keys
    ensures var y := Completed(x, Part(taken, rest));
      Completed(x, Part(taken, rest - {name})) ==
        if name in y.versions && y.versions[name] == taken[name]
        then y.(versions := y.versions - {name}, marked := y.marked - {name}) else y
  {
  }

  lemma NoneCompleted(x: Process, taken: map<Str, nat>)
    ensures Completed(x, Part(taken, taken.Keys)) == x
    ensures Part(taken, {}) == taken
  {
    assert x.versions - {} == x.versions && x.marked - {} == x.marked;
  }

  class Store {
    var players: Players
    var versions: map<Str, nat>
    var next: nat
    ghost var marked: map<Str, nat>
    ghost var task: Task
    ghost var boot: nat

    ghost function P(): Process
      reads this
    {
      Process(players, versions, next, marked, task, boot)
    }

    constructor (ghost boot: nat)
      ensures P() == Fresh(boot)
    {
      players, versions, next := map[], map[], 0;
      marked, task, this.boot := map[], Idle, boot;
    }

    /** `markPlayerDirty`. */
    method MarkPlayerDirty(name: Str, ghost now: nat)
      modifies this
      ensures P() == Marked(old(P()), name, now)
    {
      var key := Lower(Trim(name));
      if key == [] { return; }
      next := next + 1;
      versions := versions[key := next];
      marked := marked[key := now];
    }

    /** A record that an operation such as `PlayerLevelSet` stores and marks under the list's
        lock. */
    method ChangePlayer(name: Str, player: Player, ghost now: nat)
      requires name != []
      modifies this
      ensures P() == Marked(old(P()).(players := old(players)[Lower(name) := player]), Lower(name), now)
    {
      var key := Lower(name);
      players := players[key := player];
      MarkPlayerDirty(key, now);
    }

    /** `snapshotPlayerChanges`. */
    method SnapshotPlayerChanges(ghost now: nat) returns (changes: Changes, taken: map<Str, nat>)
      ensures Snapshot(changes, taken, now) == Taken(P(), now)
    {
      changes, taken := map[], map[];
      var rest := versions.Keys;
      while rest != {}
        invariant rest <= versions.Keys
        invariant changes == map k | k in versions && k !in rest :: Find(players, k)
        invariant taken == map k | k in versions && k !in rest :: versions[k]
        decreases rest
      {
        var name :| name in rest;
        taken := taken[name := versions[name]];
        if name in players {
          changes := changes[name := Some(players[name])];
        } else {
          changes := changes[name := None];
        }
        rest := rest - {name};
      }
    }

    /** `completePlayerChanges`. */
    method CompletePlayerChanges(taken: map<Str, nat>)
      modifies this
      ensures P() == Completed(old(P()), taken)
    {
      hide Completed, Part;
      var rest := taken.Keys;
      ghost var x := P();
      NoneCompleted(x, taken);
      while rest != {}
        invariant rest <= taken.Keys
        invariant P() == Completed(x, Part(taken, rest))
        decreases rest
      {
        var name :| name in rest;
        OneMoreCompleted(x, taken, rest, name);
        if name in versions && versions[name] == taken[name] {
          versions := versions - {name};
          marked := marked - {name};
        }
        rest := rest - {name};
      }
    }

    /** `addPlayer`; `doBan` allows it to write a ban. */
    method AddPlayer(name: Str, rec: Player, doBan: bool) returns (didBan: bool)
      modifies `players
      ensures players == Added(old(players), name, rec)
      ensures didBan <==> doBan && Bans(old(players), name, rec)
    {
      didBan := false;
      if name == [] || |name| > MAX_NAME { return; }
      var key := Lower(name);
      if key in players {
        var p := players[key];
        if rec.level <= -254 {
          p := p.(id := DELETED_ID);
        } else if rec.level == -1 && p.level >= 0 && doBan {
          didBan := true;
        }
        p := p.(level := rec.level);
        if rec.creation > 0 { p := p.(creation := rec.creation); }
        if rec.lastSeen > p.lastSeen { p := p.(lastSeen := rec.lastSeen); }
        if rec.level >= 0 && rec.id != [] { p := p.(id := rec.id); }
        if rec.level < 2 && rec.level >= 0 && rec.susScore != 0 { p := p.(susScore := rec.susScore); }
        if rec.level >= 0 && rec.minutes > 0 && rec.minutes > p.minutes { p := p.(minutes := rec.minutes); }
        players := players[key := p];
        return;
      }
      players := players[key := rec];
      didBan := rec.level == -1 && doBan;
    }

    /** One turn of the loop of `LoadPlayers`. */
    method LoadPlayer(mode: Mode, name: Str, rec: Player, changed: set<Str>, bans: nat) returns (changed': set<Str>, bans': nat)
      modifies `players
      ensures Progress(players, changed', bans') == LoadOne(Progress(old(players), changed, bans), versions, mode, name, rec)
    {
      changed', bans' := changed, bans;
      if !mode.boot && !mode.minimize && !mode.clearBans && Lower(name) in versions { return; }
      if (mode.clearBans && rec.level < 0) || (mode.minimize && (rec.level == 0 || rec.level == -255)) {
        players := players - {name};
        changed' := changed' + {name};
        return;
      }
      var keep := rec;
      if mode.minimize {
        changed' := changed' + {name};
        if keep.level > 0 { keep := keep.(susScore := 0, banReason := []); }
        if !IsDiscordId(keep.id) { keep := keep.(banReason := keep.id, id := []); }
      }
      if keep.level == 2 && keep.minutes > VETERAN {
        keep := keep.(level := 3);
        changed' := changed' + {name};
      }
      var didBan := AddPlayer(name, keep, !mode.boot && bans <= 5);
      if didBan { bans' := bans' + 1; }
    }

    /** The part of `LoadPlayers` under the list's lock, over the names of the file in the
        order in which they happen to come. */
    method MergeFile(mode: Mode, read: Players, order: seq<Str>) returns (changed: set<Str>, bans: nat)
      requires forall name :: name in order ==> name in read
      modifies `players
      ensures Progress(players, changed, bans) == Load(Progress(old(players), {}, 0), versions, mode, read, order)
    {
      changed, bans := {}, 0;
      for i := 0 to |order|
        invariant Load(Progress(players, changed, bans), versions, mode, read, order[i..])
               == Load(Progress(old(players), {}, 0), versions, mode, read, order)
      {
        assert order[i..][0] == order[i] && order[i..][1..] == order[i + 1..];
        changed, bans := LoadPlayer(mode, order[i], read[order[i]], changed, bans);
      }
      assert order[|order|..] == [];
    }

    /** `LoadPlayers`: every name whose record it changed itself ends up marked, and the
        marks that were there stay. */
    method LoadPlayers(disk: Disk, mode: Mode, readable: bool, order: seq<Str>, ghost now: nat)
      requires IsOrder(order, disk.content.Keys)
      modifies this
      ensures !readable ==> P() == old(P())
      ensures readable ==>
        && players == Load(Progress(old(players), {}, 0), old(versions), mode, disk.content, order).players
        && versions.Keys == old(versions).Keys + (set name |
             name in Load(Progress(old(players), {}, 0), old(versions), mode, disk.content, order).changed
             && MarkKey(name) != [] :: MarkKey(name))
    {
      if !readable { return; }
      var changed, _ := MergeFile(mode, disk.content, order);
      ghost var all := changed;
      while changed != {}
        invariant changed <= all
        invariant players == Load(Progress(old(players), {}, 0), old(versions), mode, disk.content, order).players
        invariant versions.Keys == old(versions).Keys
          + (set name | name in all && name !in changed && MarkKey(name) != [] :: MarkKey(name))
        decreases changed
      {
        var name :| name in changed;
        MarkPlayerDirty(name, now);
        changed := changed - {name};
      }
    }

    /** Changes that other goroutines make, one after the other. */
    method ChangePlayers(changes: seq<(Str, Player)>, ghost now: nat)
      requires forall i :: 0 <= i < |changes| ==> changes[i].0 != []
      modifies this
      ensures P() == ChangedBy(old(P()), changes, now)
    {
      for i := 0 to |changes|
        invariant P() == ChangedBy(old(P()), changes[..i], now)
      {
        assert changes[..i + 1][..i] == changes[..i];
        ChangePlayer(changes[i].0, changes[i].1, now);
      }
      assert changes[..|changes|] == changes;
    }

    /** `WritePlayers`. Until it holds the lock other processes may have replaced the file by
        `seen`, and this process may have changed the players in `waiting`; those in
        `working` change before it is done. Either the file takes every player that was
        marked when the write began, as it then was, and exactly the marks that were not set
        again are cleared; or the file stays as the others left it, every mark stays, and the
        write is asked for again. */
    method WritePlayers(disk: Disk, waiting: seq<(Str, Player)>, seen: Players, acquires: bool, readable: bool,
                        working: seq<(Str, Player)>, writes: bool, ghost now: nat)
      returns (saved: bool, again: bool)
      requires forall i :: 0 <= i < |waiting| ==> waiting[i].0 != []
      requires forall i :: 0 <= i < |working| ==> working[i].0 != []
      modifies this, disk
      ensures saved <==> old(versions) != map[] && acquires && readable && writes
      ensures again <==> old(versions) != map[] && !saved
      ensures !saved && !again ==> P() == old(P()) && disk.content == old(disk.content)
      ensures saved ==> disk.content == Merge(seen, Taken(old(P()), now).changes)
      ensures saved ==> P() == Completed(ChangedBy(ChangedBy(old(P()), waiting, now), working, now), old(versions))
      ensures again ==> disk.content == seen
      ensures again ==>
        var x := ChangedBy(old(P()), waiting, now);
        P() == if acquires && readable then ChangedBy(x, working, now) else x
    {
      hide Marked, Completed, Merge, Taken;
      var changes, taken := SnapshotPlayerChanges(now);
      TakenIsEmptyIff(P(), now);
      if changes == map[] { return false, false; }
      disk.content := seen;
      ChangePlayers(waiting, now);
      if !acquires || !readable { return false, true; }
      var merged := MergePlayerChanges(disk.content, changes);
      ChangePlayers(working, now);
      if !writes { return false, true; }
      disk.content := merged;
      CompletePlayerChanges(taken);
      return true, false;
    }
  }

  lemma TakenIsEmptyIff(x: Process, now: nat)
    ensures Taken(x, now).versions == x.versions
    ensures Taken(x, now).changes == map[] <==> x.versions == map[]
  {
    assert Taken(x, now).changes.Keys == x.versions.Keys;
  }

  /** A process after changes of its players, in order. */
  function ChangedBy(x: Process, changes: seq<(Str, Player)>, now: nat): Process
    decreases |changes|
  {
    if changes == [] then x
    else
      var y := ChangedBy(x, changes[..|changes| - 1], now);
      var (name, player) := changes[|changes| - 1];
      Marked(y.(players := y.players[Lower(name) := player]), Lower(name), now)
  }
}
