/** Every step of every process keeps the invariant of the shared player file. */
module PlayerSyncTheorems {
  import opened Wrappers
  import opened ByteStrings
  import opened PlayerCodec
  import opened PlayerSyncModel

  lemma MarkedKeeps(x: Process, name: Str, now: nat)
    requires ShotInv(x, now) && MarkInv(x, now)
    ensures ShotInv(Marked(x, name, now), now + 1) && MarkInv(Marked(x, name, now), now + 1)
  {
  }

  lemma CompletedKeeps(x: Process, now: nat)
    requires ShotInv(x, now) && MarkInv(x, now) && HasShot(x.task)
    ensures MarkInv(Completed(x, x.task.shot.versions), now + 1)
  {
  }

  lemma TakenKeeps(x: Process, now: nat)
    requires MarkInv(x, now)
    ensures ShotInv(x.(task := Wanting(Taken(x, now))), now + 1)
  {
  }

  /** Names stay names: an added or removed player never makes the empty name appear. */
  lemma {:induction false} LoadNames(s: Progress, versions: map<Str, nat>, mode: Mode, read: Players, order: seq<Str>)
    requires forall name :: name in order ==> name in read
    requires [] !in s.players
    ensures [] !in Load(s, versions, mode, read, order).players
    decreases |order|
  {
    if order != [] {
      var t := LoadOne(s, versions, mode, order[0], read[order[0]]);
      assert [] !in t.players;
      LoadNames(t, versions, mode, read, order[1..]);
    }
  }

  /** The events that set, take or clear marks. */
  predicate MovesMarks(e: Event)
  {
    e.Mark? || e.Change? || e.Report? || e.BeginWrite? || e.Complete?
  }

  lemma QuietStep(w: World, e: Event, x: Process)
    requires e.pid < |w.procs| && x == w.procs[e.pid] && Enabled(w, e) && !MovesMarks(e)
    requires ShotInv(x, w.clock) && MarkInv(x, w.clock)
    ensures ShotInv(Next(x, w, e), w.clock + 1) && MarkInv(Next(x, w, e), w.clock + 1)
  {
    hide Load, Lower;
  }

  lemma MarkStep(w: World, e: Event, x: Process)
    requires e.pid < |w.procs| && x == w.procs[e.pid] && Enabled(w, e)
    requires ShotInv(x, w.clock) && MarkInv(x, w.clock)
    ensures ShotInv(Next(x, w, e), w.clock + 1) && MarkInv(Next(x, w, e), w.clock + 1)
  {
    if !MovesMarks(e) {
      QuietStep(w, e, x);
    } else {
      hide Load, Find, Lower, MarkKey;
      match e {
        case Mark(_, name) => MarkedKeeps(x, name, w.clock);
        case Change(_, name, player) => MarkedKeeps(x.(players := x.players[Lower(name) := player]), Lower(name), w.clock);
        case Report(_, name) => MarkedKeeps(x, name, w.clock);
        case BeginWrite(_) => TakenKeeps(x, w.clock);
        case Complete(_) => CompletedKeeps(x, w.clock);
      }
    }
  }

  lemma NameStep(w: World, e: Event, x: Process)
    requires e.pid < |w.procs| && x == w.procs[e.pid] && Enabled(w, e)
    requires NameInv(x) && [] !in w.file
    ensures NameInv(Next(x, w, e))
  {
    hide Load;
    if e.ApplyLoad? {
      LoadNames(Progress(x.players, {}, 0), x.versions, x.task.mode, x.task.read, e.order);
    }
  }

  lemma ReplayExtends(initial: Players, log: seq<Commit>, c: Commit)
    ensures Replay(initial, log + [c]) == Merge(Replay(initial, log), c.changes)
  {
    assert (log + [c])[..|log + [c]| - 1] == log;
  }

  lemma FileStep(w: World, e: Event, x: Process)
    requires e.pid < |w.procs| && x == w.procs[e.pid] && Enabled(w, e)
    requires FileInv(e.pid, x, w.file, w.initial, w.log) && w.file == Replay(w.initial, w.log)
    ensures var v := Apply(w, e); FileInv(e.pid, Next(x, w, e), v.file, w.initial, v.log)
  {
    hide Load, Replay, Merge, Marked, Completed, Taken;
    assert w.log[..|w.log|] == w.log;
    if e.Replace? && e.ok {
      var c := Commit(e.pid, x.boot, x.task.shot.changes, x.task.shot.taken);
      assert (w.log + [c])[|w.log|] == c;
    }
    MarkedKeepsTask(x, e, w.clock);
  }

  lemma MarkedKeepsTask(x: Process, e: Event, now: nat)
    ensures forall y: Process, name :: Marked(y, name, now).task == y.task && Marked(y, name, now).boot == y.boot
    ensures forall y: Process, t :: Completed(y, t).task == y.task && Completed(y, t).boot == y.boot
  {
  }

  lemma LockStep(w: World, e: Event, x: Process)
    requires e.pid < |w.procs| && x == w.procs[e.pid] && Enabled(w, e)
    requires LockInv(e.pid, x, w.holder)
    ensures LockInv(e.pid, Next(x, w, e), Apply(w, e).holder)
  {
    hide Load, Marked, Completed, Taken, Merge;
    MarkedKeepsTask(x, e, w.clock);
  }

  /** What a process knows survives a step of another one. */
  lemma OtherStep(w: World, e: Event, q: nat, y: Process)
    requires e.pid < |w.procs| && e.pid != q && Enabled(w, e)
    requires ProcInv(q, y, w.clock, w.file, w.holder, w.initial, w.log)
    requires LockInv(e.pid, w.procs[e.pid], w.holder)
    ensures var v := Apply(w, e); ProcInv(q, y, v.clock, v.file, v.holder, w.initial, v.log)
  {
    hide Next, Replay, Merge, NameInv;
    if e.Replace? && e.ok {
      var c := Commit(e.pid, w.procs[e.pid].boot, w.procs[e.pid].task.shot.changes, w.procs[e.pid].task.shot.taken);
      assert forall n :: 0 <= n <= |w.log| ==> (w.log + [c])[..n] == w.log[..n];
      assert forall d :: InLog(w.log, d) ==> InLog(w.log + [c], d) by {
        forall d | InLog(w.log, d) ensures InLog(w.log + [c], d) {
          var i :| 0 <= i < |w.log| && w.log[i] == d;
          assert (w.log + [c])[i] == d;
        }
      }
    }
  }

  lemma DiskStep(w: World, e: Event)
    requires e.pid < |w.procs| && Enabled(w, e)
    requires ProcInv(e.pid, w.procs[e.pid], w.clock, w.file, w.holder, w.initial, w.log)
    requires [] !in w.file && w.file == Replay(w.initial, w.log)
    ensures var v := Apply(w, e);
      [] !in v.file && v.initial == w.initial && v.file == Replay(v.initial, v.log)
  {
    hide Next, Replay, ShotInv, MarkInv, LockInv;
    if e.Replace? && e.ok {
      var c := Commit(e.pid, w.procs[e.pid].boot, w.procs[e.pid].task.shot.changes, w.procs[e.pid].task.shot.taken);
      ReplayExtends(w.initial, w.log, c);
    }
  }

  /** Every event keeps the invariant. */
  lemma StepKeeps(w: World, e: Event)
    requires Inv(w) && Enabled(w, e)
    ensures Inv(Apply(w, e))
  {
    var v := Apply(w, e);
    var x := w.procs[e.pid];
    hide Apply, Next, Enabled, Replay, ShotInv, MarkInv, NameInv, FileInv, LockInv;
    OnlyItsProcess(w, e);
    DiskStep(w, e);
    MarkStep(w, e, x);
    NameStep(w, e, x);
    FileStep(w, e, x);
    LockStep(w, e, x);
    forall q | 0 <= q < |v.procs| ensures ProcInv(q, v.procs[q], v.clock, v.file, v.holder, v.initial, v.log) {
      if q != e.pid { OtherStep(w, e, q, w.procs[q]); }
    }
  }

  lemma OnlyItsProcess(w: World, e: Event)
    requires Enabled(w, e)
    ensures Apply(w, e).procs == w.procs[e.pid := Next(w.procs[e.pid], w, e)]
    ensures Apply(w, e).clock == w.clock + 1 && Apply(w, e).initial == w.initial
  {
    hide Next, Merge;
  }

  lemma InitialIsSound(w: World)
    requires Initial(w)
    ensures Inv(w)
  {
  }

  lemma {:induction false} RunKeeps(w: World, es: seq<Event>)
    requires Inv(w) && Possible(w, es)
    ensures Inv(Run(w, es))
    decreases |es|
  {
    hide Inv, Apply, Enabled;
    if es != [] {
      StepKeeps(w, es[0]);
      RunKeeps(Apply(w, es[0]), es[1..]);
    }
  }

  lemma ReachableIsSound(w: World)
    requires Reachable(w)
    ensures Inv(w)
  {
    hide Inv, Run, Possible, Initial;
    var w0, es :| Initial(w0) && Possible(w0, es) && Run(w0, es) == w;
    InitialIsSound(w0);
    RunKeeps(w0, es);
  }

  // ------------------------------------------------------------- lower-case names

  lemma LowerIsIdempotent(s: Str)
    ensures Lower(Lower(s)) == Lower(s)
  {
  }

  lemma AddedStaysCanonical(players: Players, name: Str, rec: Player)
    requires CanonicalNames(players)
    ensures CanonicalNames(Added(players, name, rec))
  {
    LowerIsIdempotent(name);
    hide Lower;
  }

  lemma {:induction false} LoadStaysCanonical(
      s: Progress, versions: map<Str, nat>, mode: Mode, read: Players, order: seq<Str>)
    requires (forall name :: name in order ==> name in read) && CanonicalNames(s.players)
    ensures CanonicalNames(Load(s, versions, mode, read, order).players)
    decreases |order|
  {
    if order != [] {
      AddedStaysCanonical(s.players, order[0], Offered(mode, read[order[0]]));
      hide Lower, Added, Offered;
      LoadStaysCanonical(LoadOne(s, versions, mode, order[0], read[order[0]]), versions, mode, read, order[1..]);
    }
  }

  lemma MarkedStaysCanonical(x: Process, name: Str, now: nat)
    requires CanonInv(x)
    ensures CanonInv(Marked(x, name, now))
  {
    LowerIsIdempotent(Trim(name));
    hide Lower, Trim;
  }

  lemma CanonStep(w: World, e: Event, x: Process)
    requires e.pid < |w.procs| && x == w.procs[e.pid] && Enabled(w, e)
    requires CanonInv(x) && CanonicalNames(w.file)
    ensures CanonInv(Next(x, w, e)) && CanonicalNames(Apply(w, e).file)
  {
    hide Lower, Load, MarkKey, Marked;
    match e {
      case Touch(_, name, _) => LowerIsIdempotent(name);
      case Change(_, name, player) =>
        LowerIsIdempotent(name);
        MarkedStaysCanonical(x.(players := x.players[Lower(name) := player]), Lower(name), w.clock);
      case Mark(_, name) => MarkedStaysCanonical(x, name, w.clock);
      case Report(_, name) => MarkedStaysCanonical(x, name, w.clock);
      case ApplyLoad(_, order) =>
        LoadStaysCanonical(Progress(x.players, {}, 0), x.versions, x.task.mode, x.task.read, order);
      case _ =>
    }
  }

  ghost predicate AllCanonical(w: World)
  {
    CanonicalNames(w.file) && forall p :: 0 <= p < |w.procs| ==> CanonInv(w.procs[p])
  }

  lemma {:induction false} CanonRun(w: World, es: seq<Event>)
    requires AllCanonical(w) && Possible(w, es)
    ensures AllCanonical(Run(w, es)) && Run(w, es).initial == w.initial
    decreases |es|
  {
    if es != [] {
      OnlyItsProcess(w, es[0]);
      CanonStep(w, es[0], w.procs[es[0].pid]);
      hide CanonInv, CanonicalNames, Apply, Enabled, Next;
      CanonRun(Apply(w, es[0]), es[1..]);
    }
  }

  lemma {:induction false} InitialStays(w: World, es: seq<Event>)
    requires Possible(w, es)
    ensures Run(w, es).initial == w.initial
    decreases |es|
  {
    if es != [] {
      OnlyItsProcess(w, es[0]);
      hide Apply, Enabled;
      InitialStays(Apply(w, es[0]), es[1..]);
    }
  }

  /** When the file begins with lower-case names it keeps them, and so does every copy of it
      that any process works on. */
  lemma NamesStayCanonical(w: World)
    requires Reachable(w) && CanonicalNames(w.initial)
    ensures CanonicalNames(w.file)
    ensures forall p :: 0 <= p < |w.procs| && w.procs[p].task.Loading? ==> CanonicalNames(w.procs[p].task.read)
  {
    hide Run, Possible, CanonicalNames;
    var w0, es :| Initial(w0) && Possible(w0, es) && Run(w0, es) == w;
    InitialStays(w0, es);
    FreshIsCanonical();
    CanonRun(w0, es);
  }

  lemma FreshIsCanonical()
    ensures CanonInv(Fresh(0))
  {
  }
}
