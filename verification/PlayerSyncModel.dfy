/** How several server processes share one player file (`fact/playerDB.go`).

    Each process keeps the players in memory and marks the ones it changed. Writing takes a
    snapshot of the marked players, then under a file lock reads the file, merges the
    snapshot into it and replaces it, and at last clears the marks that are still the ones
    it took. Reading merges the file into memory. A process writes or reads one at a time,
    but every step of it may be separated from the next by anything the other processes or
    the other goroutines of this one do.

    A missing file is an empty one: both lead to the same merge, and a load of either
    changes nothing. */
module PlayerSyncModel {
  import opened Wrappers
  import opened Sets
  import opened ByteStrings
  import opened Text
  import opened PlayerCodec

  const MAX_NAME: nat := 64
  const VETERAN: int := 60 * 24 * 3
  const DELETED_ID: Str := [48]

  // --------------------------------------------------------------------- names

  function LowerByte(b: Byte): Byte
  {
    if 65 <= b <= 90 then b + 32 else b
  }

  /** `strings.ToLower`, on ASCII letters. */
  function Lower(s: Str): (r: Str)
    ensures |r| == |s|
  {
    seq(|s|, i requires 0 <= i < |s| => LowerByte(s[i]))
  }

  predicate IsSpace(b: Byte)
  {
    b == 32 || 9 <= b <= 13
  }

  /** `strings.TrimSpace`, on ASCII spaces. */
  function Trim(s: Str): Str
  {
    TrimBoth(s, IsSpace)
  }

  /** The name `markPlayerDirty` puts a mark under. */
  function MarkKey(name: Str): Str
  {
    Lower(Trim(name))
  }

  // ----------------------------------------------------------------- processes

  type Changes = map<Str, Option<Player>>

  /** What `snapshotPlayerChanges` took, and when. */
  datatype Snapshot = Snapshot(changes: Changes, versions: map<Str, nat>, taken: nat)

  datatype Mode = Mode(boot: bool, minimize: bool, clearBans: bool)

  const NORMAL := Mode(false, false, false)
  const BOOT := Mode(true, false, false)

  /** Where a process is in `WritePlayers` or `LoadPlayers`. */
  datatype Task =
    | Idle
    | Wanting(shot: Snapshot)
    | Holding(shot: Snapshot)
    | Merging(shot: Snapshot, buffer: Players)
    | Committed(shot: Snapshot)
    | Releasing
    | Loading(mode: Mode, read: Players, seen: nat)
    | Reporting(changed: set<Str>)

  /** `PlayerList`, the marks with their versions and the times they were set, and how often
      the process was started. */
  datatype Process = Process(
    players: Players, versions: map<Str, nat>, next: nat, marked: map<Str, nat>, task: Task, boot: nat)

  /** A file replacement: whose, of which changes, and when their snapshot was taken. */
  datatype Commit = Commit(pid: nat, boot: nat, changes: Changes, taken: nat)

  datatype World = World(
    procs: seq<Process>, file: Players, holder: Option<nat>, clock: nat, initial: Players, log: seq<Commit>)

  datatype Event =
    | Touch(pid: nat, name: Str, player: Player)
    | Mark(pid: nat, name: Str)
    | Change(pid: nat, name: Str, player: Player)
    | BeginWrite(pid: nat)
    | Acquire(pid: nat, ok: bool)
    | ReadFile(pid: nat, ok: bool)
    | Replace(pid: nat, ok: bool)
    | Complete(pid: nat)
    | Release(pid: nat)
    | BeginLoad(pid: nat, mode: Mode)
    | ApplyLoad(pid: nat, order: seq<Str>)
    | Report(pid: nat, name: Str)
    | EndLoad(pid: nat)
    | Crash(pid: nat)

  function Fresh(boot: nat): Process
  {
    Process(map[], map[], 0, map[], Idle, boot)
  }

  // ------------------------------------------------------------ marks and merge

  /** `markPlayerDirty`. */
  function Marked(x: Process, name: Str, now: nat): Process
  {
    var key := MarkKey(name);
    if key == [] then x
    else x.(next := x.next + 1, versions := x.versions[key := x.next + 1], marked := x.marked[key := now])
  }

  function Find(players: Players, name: Str): Option<Player>
  {
    if name in players then Some(players[name]) else None
  }

  lemma FoundIsEqual(a: Players, b: Players)
    requires forall k :: Find(a, k) == Find(b, k)
    ensures a == b
  {
    forall k ensures k in a <==> k in b {
      assert Find(a, k) == Find(b, k);
    }
    forall k | k in a ensures a[k] == b[k] {
      assert Find(a, k) == Find(b, k);
    }
  }

  /** `snapshotPlayerChanges`. */
  function Taken(x: Process, now: nat): Snapshot
  {
    Snapshot(map k | k in x.versions :: Find(x.players, k), x.versions, now)
  }

  /** `mergePlayerChanges`: a change without a record removes the player. */
  function Merge(players: Players, changes: Changes): (r: Players)
    ensures forall k :: Find(r, k) == if k in changes then changes[k] else Find(players, k)
  {
    map k | k in players.Keys + changes.Keys && (k in changes ==> changes[k].Some?) ::
      if k in changes then changes[k].value else players[k]
  }

  /** `completePlayerChanges`: a mark set again since the snapshot stays. */
  function Completed(x: Process, taken: map<Str, nat>): Process
  {
    var done := set k | k in taken && k in x.versions && x.versions[k] == taken[k];
    x.(versions := x.versions - done, marked := x.marked - done)
  }

  // -------------------------------------------------------------------- loading

  /** What `addPlayer` makes of a player that is already known. */
  function Updated(had: Player, rec: Player): Player
  {
    Player(
      rec.level,
      if rec.level >= 0 && rec.id != [] then rec.id else if rec.level <= -254 then DELETED_ID else had.id,
      had.banReason,
      if rec.creation > 0 then rec.creation else had.creation,
      if rec.lastSeen > had.lastSeen then rec.lastSeen else had.lastSeen,
      if rec.level >= 0 && rec.minutes > 0 && rec.minutes > had.minutes then rec.minutes else had.minutes,
      if 0 <= rec.level < 2 && rec.susScore != 0 then rec.susScore else had.susScore)
  }

  /** `addPlayer`, on the list. */
  function Added(players: Players, name: Str, rec: Player): Players
  {
    if name == [] || |name| > MAX_NAME then players
    else if Lower(name) in players then players[Lower(name) := Updated(players[Lower(name)], rec)]
    else players[Lower(name) := rec]
  }

  /** Whether `addPlayer` writes a ban when it is allowed to. */
  predicate Bans(players: Players, name: Str, rec: Player)
  {
    && name != [] && |name| <= MAX_NAME && rec.level == -1
    && (Lower(name) in players ==> players[Lower(name)].level >= 0)
  }

  predicate IsDigit(b: Byte)
  {
    48 <= b <= 57
  }

  function DigitOf(b: Byte): nat
  {
    if IsDigit(b) then b - 48 else 0
  }

  /** An identifier that reads as a positive 64-bit number. */
  predicate IsDiscordId(s: Str)
  {
    s != [] && All(s, IsDigit) && 0 < Decimal(s, DigitOf) < 0x1_0000_0000_0000_0000
  }

  /** The cleaning that minimizing applies to a record it keeps. */
  function Cleaned(rec: Player): Player
  {
    var lean := if rec.level > 0 then rec.(susScore := 0, banReason := []) else rec;
    if IsDiscordId(lean.id) then lean else lean.(banReason := lean.id, id := [])
  }

  /** The automatic promotion to veteran. */
  function Promoted(rec: Player): Player
  {
    if rec.level == 2 && rec.minutes > VETERAN then rec.(level := 3) else rec
  }

  /** The list, the names to mark and the bans written while a load goes on. */
  datatype Progress = Progress(players: Players, changed: set<Str>, bans: nat)

  predicate Removes(mode: Mode, rec: Player)
  {
    (mode.clearBans && rec.level < 0) || (mode.minimize && (rec.level == 0 || rec.level == -255))
  }

  /** What the load hands to `addPlayer` for a record it keeps. */
  function Offered(mode: Mode, rec: Player): Player
  {
    Promoted(if mode.minimize then Cleaned(rec) else rec)
  }

  /** The body of the loop of `LoadPlayers` for one name of the file. */
  function LoadOne(s: Progress, versions: map<Str, nat>, mode: Mode, name: Str, rec: Player): Progress
  {
    if mode == NORMAL && Lower(name) in versions then s
    else if Removes(mode, rec) then Progress(s.players - {name}, s.changed + {name}, s.bans)
    else
      var rec' := Offered(mode, rec);
      Progress(
        Added(s.players, name, rec'),
        if mode.minimize || rec'.level != rec.level then s.changed + {name} else s.changed,
        if !mode.boot && s.bans <= 5 && Bans(s.players, name, rec') then s.bans + 1 else s.bans)
  }

  /** The loop, over the names of the file in the order `order`. */
  function Load(s: Progress, versions: map<Str, nat>, mode: Mode, read: Players, order: seq<Str>): Progress
    requires forall name :: name in order ==> name in read
    decreases |order|
  {
    if order == [] then s
    else Load(LoadOne(s, versions, mode, order[0], read[order[0]]), versions, mode, read, order[1..])
  }

  // --------------------------------------------------------------------- events

  ghost predicate Enabled(w: World, e: Event)
  {
    && e.pid < |w.procs|
    && var t := w.procs[e.pid].task;
    match e
    case Touch(_, name, _) => name != []
    case Mark(_, _) => true
    case Change(_, name, _) => name != []
    case BeginWrite(_) => t.Idle?
    case Acquire(_, ok) => t.Wanting? && (ok ==> w.holder.None?)
    case ReadFile(_, _) => t.Holding?
    case Replace(_, _) => t.Merging?
    case Complete(_) => t.Committed?
    case Release(_) => t.Releasing?
    case BeginLoad(_, _) => t.Idle?
    case ApplyLoad(_, order) => t.Loading? && IsOrder(order, t.read.Keys)
    case Report(_, name) => t.Reporting? && name in t.changed
    case EndLoad(_) => t.Reporting? && t.changed == {}
    case Crash(_) => true
  }

  /** What an event does to the process it belongs to. */
  ghost function Next(x: Process, w: World, e: Event): Process
    requires e.pid < |w.procs| && x == w.procs[e.pid] && Enabled(w, e)
  {
    match e
    case Touch(_, name, player) => x.(players := x.players[Lower(name) := player])
    case Mark(_, name) => Marked(x, name, w.clock)
    case Change(_, name, player) => Marked(x.(players := x.players[Lower(name) := player]), Lower(name), w.clock)
    case BeginWrite(_) => if x.versions == map[] then x else x.(task := Wanting(Taken(x, w.clock)))
    case Acquire(_, ok) => x.(task := if ok then Holding(x.task.shot) else Idle)
    case ReadFile(_, ok) => x.(task := if ok then Merging(x.task.shot, w.file) else Releasing)
    case Replace(_, ok) => x.(task := if ok then Committed(x.task.shot) else Releasing)
    case Complete(_) => Completed(x, x.task.shot.versions).(task := Releasing)
    case Release(_) => x.(task := Idle)
    case BeginLoad(_, mode) => x.(task := Loading(mode, w.file, |w.log|))
    case ApplyLoad(_, order) =>
      var r := Load(Progress(x.players, {}, 0), x.versions, x.task.mode, x.task.read, order);
      x.(players := r.players, task := Reporting(r.changed))
    case Report(_, name) => Marked(x, name, w.clock).(task := Reporting(x.task.changed - {name}))
    case EndLoad(_) => x.(task := Idle)
    case Crash(_) => Fresh(x.boot + 1)
  }

  ghost function Apply(w: World, e: Event): World
    requires Enabled(w, e)
  {
    var x := w.procs[e.pid];
    var v := w.(procs := w.procs[e.pid := Next(x, w, e)], clock := w.clock + 1);
    match e
    case Acquire(p, ok) => if ok then v.(holder := Some(p)) else v
    case Replace(p, ok) =>
      if ok then
        v.(file := Merge(x.task.buffer, x.task.shot.changes),
           log := w.log + [Commit(p, x.boot, x.task.shot.changes, x.task.shot.taken)])
      else v
    case Release(_) => v.(holder := None)
    case Crash(p) => if w.holder == Some(p) then v.(holder := None) else v
    case _ => v
  }

  ghost predicate Initial(w: World)
  {
    && w.holder.None? && w.log == [] && w.file == w.initial && [] !in w.file
    && forall p :: 0 <= p < |w.procs| ==> w.procs[p] == Fresh(0)
  }

  ghost predicate Possible(w: World, es: seq<Event>)
    decreases |es|
  {
    es == [] || (Enabled(w, es[0]) && Possible(Apply(w, es[0]), es[1..]))
  }

  ghost function Run(w: World, es: seq<Event>): World
    requires Possible(w, es)
    decreases |es|
  {
    if es == [] then w else Run(Apply(w, es[0]), es[1..])
  }

  ghost predicate Reachable(w: World)
  {
    exists w0, es :: Initial(w0) && Possible(w0, es) && Run(w0, es) == w
  }

  // ----------------------------------------------------------------- invariants

  /** The file as the commits alone determine it. */
  function Replay(initial: Players, log: seq<Commit>): Players
  {
    if log == [] then initial else Merge(Replay(initial, log[..|log| - 1]), log[|log| - 1].changes)
  }

  predicate Holds(t: Task)
  {
    t.Holding? || t.Merging? || t.Committed? || t.Releasing?
  }

  predicate HasShot(t: Task)
  {
    t.Wanting? || t.Holding? || t.Merging? || t.Committed?
  }

  /** A snapshot's versions tell whether a mark was set again after it was taken. */
  ghost predicate ShotInv(x: Process, clock: nat)
  {
    HasShot(x.task) ==>
      && var shot := x.task.shot;
      && shot.versions.Keys == shot.changes.Keys
      && shot.taken < clock
      && forall k :: k in shot.versions ==>
           && shot.versions[k] <= x.next
           && (k in x.versions && x.versions[k] == shot.versions[k] ==> k in x.marked && x.marked[k] < shot.taken)
  }

  ghost predicate MarkInv(x: Process, clock: nat)
  {
    && x.marked.Keys == x.versions.Keys
    && forall k :: k in x.versions ==> x.versions[k] <= x.next && x.marked[k] < clock
  }

  ghost predicate InLog(log: seq<Commit>, c: Commit)
  {
    exists i :: 0 <= i < |log| && log[i] == c
  }

  /** What a process in the middle of a write or a load knows about the file. */
  ghost predicate FileInv(p: nat, x: Process, file: Players, initial: Players, log: seq<Commit>)
  {
    && (x.task.Merging? ==> x.task.buffer == file)
    && (x.task.Committed? ==> InLog(log, Commit(p, x.boot, x.task.shot.changes, x.task.shot.taken)))
    && (x.task.Loading? ==>
          && x.task.seen <= |log|
          && x.task.read == Replay(initial, log[..x.task.seen])
          && forall i :: x.task.seen <= i < |log| ==> log[i].pid != p)
  }

  /** The names of a file as every writer leaves them: not empty, and in lower case. */
  ghost predicate CanonicalNames(read: Players)
  {
    forall name :: name in read ==> name != [] && Lower(name) == name
  }

  /** Every name a process handles is of that kind. */
  ghost predicate CanonInv(x: Process)
  {
    && CanonicalNames(x.players)
    && (forall k :: k in x.versions ==> k != [] && Lower(k) == k)
    && (HasShot(x.task) ==> forall k :: k in x.task.shot.changes ==> k != [] && Lower(k) == k)
    && (x.task.Merging? ==> CanonicalNames(x.task.buffer))
    && (x.task.Loading? ==> CanonicalNames(x.task.read))
  }

  /** No player without a name is in memory, marked or on its way to the file. */
  ghost predicate NameInv(x: Process)
  {
    && [] !in x.players && [] !in x.versions
    && (HasShot(x.task) ==> [] !in x.task.shot.changes)
    && (x.task.Merging? ==> [] !in x.task.buffer)
    && (x.task.Loading? ==> [] !in x.task.read)
  }

  ghost predicate LockInv(p: nat, x: Process, holder: Option<nat>)
  {
    Holds(x.task) <==> holder == Some(p)
  }

  ghost predicate ProcInv(p: nat, x: Process, clock: nat, file: Players, holder: Option<nat>, initial: Players, log: seq<Commit>)
  {
    ShotInv(x, clock) && MarkInv(x, clock) && NameInv(x) && FileInv(p, x, file, initial, log) && LockInv(p, x, holder)
  }

  ghost predicate Inv(w: World)
  {
    && [] !in w.file
    && w.file == Replay(w.initial, w.log)
    && forall p :: 0 <= p < |w.procs| ==> ProcInv(p, w.procs[p], w.clock, w.file, w.holder, w.initial, w.log)
  }
}
