/** The job store in the form the program has: an object whose maps change under a mutex.
    Each method is one critical section, and its contract says which step of the state
    machine in JobModel it takes. */
module JobStore {
  import opened Wrappers
  import opened Sets
  import opened JobModel
  import opened JobTheorems

  /** The directory, which outlives the process. */
  class Directory {
    var files: map<Id, Job>
    ghost var synced: map<Id, Job>
    ghost var between: set<Job>
    ghost var hist: History

    constructor ()
      ensures Down() == EMPTY
    {
      files := map[];
      synced := map[];
      between := {};
      hist := EMPTY.hist;
    }

    /** The world while no process is running. */
    ghost function Down(): World
      reads this
    {
      World(false, NO_MEMORY, Disk(files, synced, between), hist)
    }

    /** What a crash leaves behind, or a power cut that loses the entries in `lost`, save for
        the older records in `kept`. */
    method Die(ghost before: World, lost: set<Id>, kept: map<Id, Job>, onDisk: map<Id, Job>)
      requires Inv(before) && before.disk == Disk(files, synced, between) && before.hist == hist
      requires Enabled(before, Crash(lost, kept)) && onDisk == ApplyCrash(before, Crash(lost, kept)).disk.files
      modifies this
      ensures Down() == ApplyCrash(before, Crash(lost, kept))
    {
      files := onDisk;
      between := set v | v in between && v.id in files;
      hist := hist.(workers := map[], torn := {});
    }

    /** `save`, for the process whose world is `w`. */
    method SaveFile(v: Job, o: SaveOutcome, ghost w: World) returns (ok: bool)
      requires w.disk == Disk(files, synced, between) && w.hist == hist
      modifies this
      ensures ok == (o == Saved)
      ensures w.(disk := Disk(files, synced, between), hist := hist) == Save(w, v, o)
    {
      if o == NotSaved { return false; }
      files := files[v.id := v];
      hist := Save(w, v, o).hist;
      between := between + {v};
      if o == NotSynced { return false; }
      synced := files;
      between := {};
      return true;
    }
  }

  class Jobs {
    const dir: Directory
    var items: map<Id, Job>
    var keys: map<Key, Id>
    var busy: Option<Id>
    var pending: set<Id>

    ghost function W(): World
      reads this, dir
    {
      World(true, Memory(items, keys, busy, pending), Disk(dir.files, dir.synced, dir.between), dir.hist)
    }

    constructor (dir: Directory)
      ensures this.dir == dir && items == map[] && keys == map[] && busy == None && pending == {}
    {
      this.dir := dir;
      items, keys, busy, pending := map[], map[], None, {};
    }

    /** `NewJobs`, reading the files in `order`. */
    static method NewJobs(dir: Directory, order: seq<Id>, saves: map<Id, SaveOutcome>, now: Time)
      returns (j: Jobs?)
      requires Inv(dir.Down()) && IsOrder(order, dir.files.Keys)
      modifies dir
      ensures j != null ==> fresh(j) && j.dir == dir
      ensures (if j != null then j.W() else dir.Down())
           == ApplyRecover(old(dir.Down()), Recover(order, saves, now))
      ensures Inv(if j != null then j.W() else dir.Down())
    {
      hide Inv, InvBut, Loading, Recovered, NeedsRecovery, Save;
      ghost var before := dir.Down();
      RecoverStarts(before, order);
      RecoverKeeps(before, Recover(order, saves, now));
      ghost var all := Load(before, order, saves, now);
      hide ValidId;
      var jobs := new Jobs(dir);
      for i := 0 to |order|
        invariant jobs.dir == dir && jobs.busy == None && jobs.pending == {}
        invariant all == Load(jobs.W().(up := false), order[i..], saves, now)
        invariant Loading(jobs.W().(up := false), order[i..])
      {
        ghost var w := jobs.W().(up := false);
        var id := order[i];
        var rest := order[i..];
        assert rest[0] == id && rest[1..] == order[i + 1..];
        InFiles(w, rest);
        RecoveredMayBeSaved(w, rest, id, now);
        var v := Recovered(dir.files[id], now);
        var needs := NeedsRecovery(dir.files[id]);
        RecoveredIfNeeded(dir.files[id], now);
        if needs {
          var o := OutcomeOf(saves, id);
          LoadSaves(w, rest, v, o);
          SaveFrame(w, v, o);
          var ok := dir.SaveFile(v, o, w);
          if !ok {
            dir.hist := dir.hist.(torn := {});
            return null;
          }
        }
        ghost var saved := jobs.W().(up := false);
        LoadOne(saved, rest);
        jobs.items := jobs.items[id := v];
        jobs.keys := jobs.keys[v.key := id];
      }
      assert order[|order|..] == [];
      return jobs;
    }

    /** `Start`: the answer to a request, and the worker it spawns when it is accepted.
        `order` is the order in which iteration finds the pending jobs. */
    method Start(r: Request, id: Id, now: Time, order: seq<Id>, repairs: map<Id, SaveOutcome>, accept: SaveOutcome)
      returns (answer: Answer)
      requires Inv(W()) && Enabled(W(), Event.Start(r, id, now, order, repairs, accept))
      modifies this, dir
      ensures Inv(W()) && W() == ApplyStart(old(W()), Event.Start(r, id, now, order, repairs, accept))
      ensures answer == AnswerTo(old(W()), Event.Start(r, id, now, order, repairs, accept))
    {
      hide Inv, InvBut, Save;
      ghost var before := W();
      StartKeeps(before, Event.Start(r, id, now, order, repairs, accept));
      KeyHasJob(before);
      var k := KeyOf(r);
      if k in keys {
        var v := items[keys[k]];
        if v.hash != HashOf(r) { return Conflict; }
        return Known(v);
      }
      if busy.Some? { return Busy; }
      ghost var repaired := Repair(before, order, repairs);
      for i := 0 to |order|
        invariant items == before.mem.items && keys == before.mem.keys && busy == None
        invariant repaired == Repair(W(), order[i..], repairs)
        invariant forall x :: x in order ==> x in items
      {
        var job := order[i];
        assert order[i..][0] == job && order[i..][1..] == order[i + 1..];
        var ok := dir.SaveFile(items[job], OutcomeOf(repairs, job), W());
        if !ok { return Unavailable; }
        pending := pending - {job};
      }
      assert order[|order|..] == [];
      var v := NewJob(r, id, now);
      dir.hist := dir.hist.(drawn := dir.hist.drawn + {v.id});
      var ok := dir.SaveFile(v, accept, W());
      if !ok {
        if accept == NotSynced { dir.hist := dir.hist.(orphans := dir.hist.orphans + {v.id}); }
        return NotPersisted;
      }
      items := items[v.id := v];
      keys := keys[k := v.id];
      busy := Some(v.id);
      dir.hist := dir.hist.(workers := dir.hist.workers[v.id := Accepted],
                            accepted := dir.hist.accepted[v.key := v]);
      answer := Started(v);
    }

    /** `Update`: fails on an unknown job, and changes memory only once the save is done. */
    method Update(id: Id, state: Status, phase: string, result: string, error: string, now: Time, o: SaveOutcome)
      returns (ok: bool)
      modifies this, dir
      ensures ok == (id in old(items) && o == Saved)
      ensures id !in old(items) ==> W() == old(W())
      ensures id in old(items) ==> W() == JobModel.Update(old(W()), id, state, phase, result, error, now, o)
    {
      hide Save;
      if id !in items { return false; }
      var v := Amended(items[id], state, phase, result, error, now);
      ok := dir.SaveFile(v, o, W());
      if ok { items := items[id := v]; }
    }

    /** The worker's first section: the start is persisted, and only then is the operation
        invoked. */
    method Begin(id: Id, now: Time, o: SaveOutcome) returns (invoke: bool)
      requires Inv(W()) && Enabled(W(), Event.Begin(id, now, o))
      modifies this, dir
      ensures Inv(W()) && W() == ApplyBegin(old(W()), Event.Begin(id, now, o))
      ensures invoke == (o == Saved)
    {
      hide Inv, InvBut, Save;
      WorkerHasJob(W(), id);
      ghost var key := items[id].key;
      BeginKeeps(W(), Event.Begin(id, now, o));
      invoke := Update(id, Running, "executing", "", "", now, o);
      if invoke {
        dir.hist := dir.hist.(workers := dir.hist.workers[id := Executing], runs := dir.hist.runs + multiset{key});
      } else {
        dir.hist := dir.hist.(workers := dir.hist.workers[id := NotStarted]);
      }
    }

    /** `finish`, as the worker calls it when it leaves. */
    method Finish(id: Id, at: Worker, ret: Return, now: Time, o: SaveOutcome)
      requires Inv(W()) && Enabled(W(), Event.Finish(id, ret, now, o)) && dir.hist.workers[id] == at
      modifies this, dir
      ensures Inv(W()) && W() == ApplyFinish(old(W()), Event.Finish(id, ret, now, o))
    {
      hide Inv, InvBut, Save, Verdict;
      WorkerHasJob(W(), id);
      FinishKeeps(W(), Event.Finish(id, ret, now, o));
      var (state, phase, result, msg) := Verdict(at, ret);
      if at == Executing && ret.Success? { dir.hist := dir.hist.(returned := dir.hist.returned + {id}); }
      var v := Amended(items[id], state, phase, result, msg, now);
      var ok := dir.SaveFile(v, o, W());
      if !ok {
        if phase != STORAGE_ERROR { v := v.(state := Unknown); }
        v := v.(result := "", error := if phase == STORAGE_ERROR then msg else OUTCOME_LOST, phase := STORAGE_ERROR);
        pending := pending + {id};
      }
      items := items[id := v];
      dir.hist := dir.hist.(workers := dir.hist.workers[id := Finished]);
    }

    /** The deferred section of the worker. */
    method Exit(id: Id)
      requires Inv(W()) && Enabled(W(), Event.Exit(id))
      modifies this, dir
      ensures Inv(W()) && W() == ApplyExit(old(W()), Event.Exit(id))
    {
      hide Inv, InvBut;
      ExitKeeps(W(), Event.Exit(id));
      if busy == Some(id) { busy := None; }
      dir.hist := dir.hist.(workers := dir.hist.workers - {id});
    }

    /** `Lookup`: the record of a request that was accepted, without starting anything. */
    method Lookup(r: Request) returns (job: Option<Job>, found: bool)
      requires Inv(W())
      ensures found <==> KeyOf(r) in keys
      ensures job.Some? <==> found && items[keys[KeyOf(r)]].hash == HashOf(r)
      ensures job.Some? ==> job.value == items[keys[KeyOf(r)]] && job.value.key == KeyOf(r)
    {
      KeyHasJob(W());
      var k := KeyOf(r);
      if k !in keys { return None, false; }
      var v := items[keys[k]];
      if v.hash != HashOf(r) { return None, true; }
      return Some(v), true;
    }
  }

  lemma KeyHasJob(w: World)
    requires Inv(w)
    ensures forall k :: k in w.mem.keys ==> w.mem.keys[k] in w.mem.items && w.mem.items[w.mem.keys[k]].key == k
    ensures w.mem.pending <= w.mem.items.Keys
  {
    hide DiskInv, AgreeInv, EarnedInv, IndexInv, LoadedInv, RunInv, WorkerInv;
  }

  lemma RecoveredIfNeeded(v: Job, now: Time)
    ensures !NeedsRecovery(v) ==> Recovered(v, now) == v
  {
  }
}
