/** What every run of the job store keeps (`webcontrol/jobs.go`). */
module JobTheorems {
  import opened Wrappers
  import opened Sets
  import opened JobModel

  // ------------------------------------------------------- what a save keeps

  /** The record `v` may be saved for job `v.id` at this point. */
  ghost predicate MaySave(w: World, v: Job)
  {
    && v.id in w.disk.files && SameRequest(v, w.disk.files[v.id])
    && (v.state == Succeeded ==> v.id in w.hist.returned || v.id in w.hist.checkpoints)
  }

  lemma SaveFrame(w: World, v: Job, o: SaveOutcome)
    ensures var s := Save(w, v, o);
      && s.up == w.up && s.mem == w.mem
      && s.hist == w.hist.(torn := s.hist.torn, checkpoints := s.hist.checkpoints)
      && w.hist.checkpoints <= s.hist.checkpoints
      && (o == NotSaved ==> s == w)
      && (o == NotSynced ==> s.disk == Disk(w.disk.files[v.id := v], w.disk.synced, w.disk.between + {v}))
      && (o == NotSynced ==> s.hist.torn == w.hist.torn + {v.id})
      && (o == Saved ==> s.disk == Disk(w.disk.files[v.id := v], w.disk.files[v.id := v], {}))
      && (o == Saved ==> s.hist.torn == w.hist.torn - {v.id})
      && (o != NotSaved && v.state == WaitingForRestart && v.action == CHATWIRE_RESTART ==>
            v.id in s.hist.checkpoints)
  {
  }

  /** Saving a record of a job keeps the request every file belongs to. */
  lemma SaveKeepsDisk(w: World, v: Job, o: SaveOutcome)
    requires DiskInv(w.disk, w.hist.drawn, w.hist.orphans) && MaySave(w, v)
    ensures var s := Save(w, v, o);
      && DiskInv(s.disk, s.hist.drawn, s.hist.orphans)
      && (forall id :: id in w.disk.synced ==> id in s.disk.synced && SameRequest(s.disk.synced[id], w.disk.synced[id]))
      && s.disk.files.Keys == w.disk.files.Keys
      && (forall id :: id in s.disk.files ==> SameRequest(s.disk.files[id], w.disk.files[id]))
  {
    SaveFrame(w, v, o);
    hide Save;
  }

  lemma SaveKeepsEarned(w: World, v: Job, o: SaveOutcome)
    requires DiskInv(w.disk, w.hist.drawn, w.hist.orphans) && MaySave(w, v)
    requires EarnedInv(w.disk.files, w.hist.returned, w.hist.checkpoints)
    requires EarnedInv(w.disk.synced, w.hist.returned, w.hist.checkpoints)
    requires EarnedAll(w.disk.between, w.hist.returned, w.hist.checkpoints)
    ensures var s := Save(w, v, o);
      && EarnedAll(s.disk.between, s.hist.returned, s.hist.checkpoints)
      && EarnedInv(s.disk.files, s.hist.returned, s.hist.checkpoints)
      && EarnedInv(s.disk.synced, s.hist.returned, s.hist.checkpoints)
      && (o != NotSaved ==> Earned(s.hist.returned, s.hist.checkpoints, v))
  {
    SaveFrame(w, v, o);
    hide Save, SameRequest;
  }

  lemma EarnedGrows(records: map<Id, Job>, returned: set<Id>, checkpoints: set<Id>, r: set<Id>, c: set<Id>)
    requires EarnedInv(records, returned, checkpoints) && returned <= r && checkpoints <= c
    ensures EarnedInv(records, r, c)
  {
  }

  lemma EarnedAllGrows(records: set<Job>, returned: set<Id>, checkpoints: set<Id>, r: set<Id>, c: set<Id>)
    requires EarnedAll(records, returned, checkpoints) && returned <= r && checkpoints <= c
    ensures EarnedAll(records, r, c)
  {
  }

  lemma SaveKeepsAgree(w: World, v: Job, o: SaveOutcome, but: set<Id>)
    requires AgreeInv(w.mem.items, w.disk.files, w.mem.pending + w.hist.torn + but)
    requires o == Saved ==> v.id in but
    ensures var s := Save(w, v, o); AgreeInv(s.mem.items, s.disk.files, s.mem.pending + s.hist.torn + but)
  {
    SaveFrame(w, v, o);
    hide Save;
  }

  lemma SyncedKeepsRuns(runs: multiset<Key>, synced: map<Id, Job>, up: bool, keys: map<Key, Id>, later: map<Id, Job>)
    requires RunInv(runs, synced, up, keys)
    requires forall id :: id in synced ==> id in later && SameRequest(later[id], synced[id])
    ensures RunInv(runs, later, up, keys)
  {
    forall k | runs[k] > 0
      ensures exists id :: id in later && later[id].key == k
    {
      var id :| id in synced && synced[id].key == k;
      assert id in later && later[id].key == k;
    }
  }

  lemma SaveKeepsIndex(w: World, v: Job, o: SaveOutcome)
    requires DiskInv(w.disk, w.hist.drawn, w.hist.orphans) && MaySave(w, v)
    requires IndexInv(w.hist.accepted, w.hist.orphans, w.disk)
    ensures var s := Save(w, v, o); IndexInv(s.hist.accepted, s.hist.orphans, s.disk)
  {
    SaveKeepsDisk(w, v, o);
    SaveFrame(w, v, o);
    hide Save, DiskInv;
  }

  lemma FilesKeepMemory(m: Memory, files: map<Id, Job>, later: map<Id, Job>)
    requires MemoryInv(m, files)
    requires forall id :: id in files ==> id in later && SameRequest(later[id], files[id])
    ensures MemoryInv(m, later)
  {
  }

  /** A save keeps the invariant, but for agreement on the job it writes. */
  lemma SaveKeeps(w: World, v: Job, o: SaveOutcome)
    requires Inv(w) && w.up && MaySave(w, v)
    ensures InvBut(Save(w, v, o), {v.id})
    ensures o != Saved ==> Inv(Save(w, v, o))
    ensures o != NotSaved ==> Earned(Save(w, v, o).hist.returned, Save(w, v, o).hist.checkpoints, v)
  {
    hide Save, DiskInv, MemoryInv, RunInv, EarnedInv, IndexInv, LoadedInv, MaySave, SameRequest, Earned;
    var s := Save(w, v, o);
    SaveFrame(w, v, o);
    SaveKeepsDisk(w, v, o);
    SaveKeepsEarned(w, v, o);
    SaveKeepsIndex(w, v, o);
    SyncedKeepsRuns(w.hist.runs, w.disk.synced, w.up, w.mem.keys, s.disk.synced);
    FilesKeepMemory(w.mem, w.disk.files, s.disk.files);
    assert WorkerInv(s.hist.workers, s.mem, s.hist.runs, s.disk.synced.Keys);
    hide WorkerInv;
    EarnedGrows(w.mem.items, w.hist.returned, w.hist.checkpoints, s.hist.returned, s.hist.checkpoints);
    assert AgreeInv(w.mem.items, w.disk.files, w.mem.pending + w.hist.torn + {v.id});
    SaveKeepsAgree(w, v, o, {v.id});
    if o != Saved { SaveKeepsAgree(w, v, o, {}); }
    hide AgreeInv;
  }

  // ------------------------------------------------ each step keeps the invariant

  /** `s` with the record `v` in memory. */
  function Store(s: World, v: Job): World
  {
    s.(mem := s.mem.(items := s.mem.items[v.id := v]))
  }

  lemma StoreKeepsMemory(m: Memory, files: map<Id, Job>, v: Job)
    requires MemoryInv(m, files)
    requires v.id in m.items && SameRequest(v, m.items[v.id])
    ensures MemoryInv(m.(items := m.items[v.id := v]), files)
  {
  }

  lemma StoreKeepsWorkers(workers: map<Id, Worker>, m: Memory, runs: multiset<Key>, synced: set<Id>, v: Job)
    requires WorkerInv(workers, m, runs, synced)
    requires v.id in m.items && SameRequest(v, m.items[v.id])
    ensures WorkerInv(workers, m.(items := m.items[v.id := v]), runs, synced)
  {
  }

  lemma StoreKeeps(s: World, v: Job)
    requires InvBut(s, {v.id}) && s.up
    requires v.id in s.mem.items && SameRequest(v, s.mem.items[v.id])
    requires Earned(s.hist.returned, s.hist.checkpoints, v)
    requires v.id in s.mem.pending || (v.id in s.disk.files && s.disk.files[v.id] == v)
    ensures Inv(Store(s, v))
  {
    hide DiskInv, RunInv, IndexInv, Earned, MemoryInv, WorkerInv, SameRequest;
    var t := Store(s, v);
    StoreKeepsMemory(s.mem, s.disk.files, v);
    StoreKeepsWorkers(s.hist.workers, s.mem, s.hist.runs, s.disk.synced.Keys, v);
    assert EarnedInv(t.mem.items, t.hist.returned, t.hist.checkpoints);
    hide EarnedInv;
    assert AgreeInv(t.mem.items, t.disk.files, t.mem.pending + t.hist.torn + {});
    hide AgreeInv;
    assert LoadedInv(t.hist.accepted, t.up, t.mem.items);
    hide LoadedInv;
  }

  /** A worker moves on without touching records. */
  lemma MoveWorker(w: World, id: Id, at: Worker)
    requires Inv(w) && w.up && id in w.hist.workers
    requires at != Accepted && (at != Finished ==> id !in w.mem.pending)
    ensures Inv(SetWorker(w, id, at))
  {
    hide DiskInv, MemoryInv, RunInv, AgreeInv, EarnedInv, IndexInv, LoadedInv;
    var t := SetWorker(w, id, at);
    assert WorkerInv(t.hist.workers, t.mem, t.hist.runs, t.disk.synced.Keys);
    hide WorkerInv;
  }

  lemma WorkerSynced(w: World, id: Id)
    requires Inv(w) && id in w.hist.workers
    ensures id in w.disk.synced && id in w.mem.items
    ensures w.disk.synced[id].key == w.mem.items[id].key && w.mem.items[id].key in w.mem.keys
  {
    hide RunInv, AgreeInv, EarnedInv, IndexInv, LoadedInv;
  }

  lemma RunOnce(runs: multiset<Key>, synced: map<Id, Job>, up: bool, keys: map<Key, Id>, id: Id)
    requires RunInv(runs, synced, up, keys)
    requires id in synced && synced[id].key in keys && runs[synced[id].key] == 0
    ensures RunInv(runs + multiset{synced[id].key}, synced, up, keys)
  {
    var later := runs + multiset{synced[id].key};
    assert forall k :: k != synced[id].key ==> later[k] == runs[k];
  }

  /** The operation is invoked: its first and only time. */
  lemma RunKeeps(w: World, id: Id)
    requires Inv(w) && w.up && id in w.hist.workers && w.hist.workers[id] == Accepted
    requires id in w.mem.items
    ensures var key := w.mem.items[id].key;
      Inv(w.(hist := w.hist.(workers := w.hist.workers[id := Executing], runs := w.hist.runs + multiset{key})))
  {
    hide DiskInv, MemoryInv, AgreeInv, EarnedInv, IndexInv, LoadedInv, RunInv;
    WorkerSynced(w, id);
    RunOnce(w.hist.runs, w.disk.synced, w.up, w.mem.keys, id);
    var key := w.mem.items[id].key;
    var t := w.(hist := w.hist.(workers := w.hist.workers[id := Executing], runs := w.hist.runs + multiset{key}));
    assert WorkerInv(t.hist.workers, t.mem, t.hist.runs, t.disk.synced.Keys);
    hide WorkerInv;
  }

  lemma OnDisk(w: World, id: Id)
    requires Inv(w) && id in w.mem.items
    ensures id in w.disk.files && SameRequest(w.mem.items[id], w.disk.files[id]) && w.mem.items[id].id == id
  {
    hide WorkerInv, RunInv, AgreeInv, EarnedInv, IndexInv, LoadedInv;
  }

  lemma WorkerHasJob(w: World, id: Id)
    requires Inv(w) && id in w.hist.workers
    ensures id in w.mem.items && (w.hist.workers[id] != Finished ==> id !in w.mem.pending)
  {
    hide DiskInv, MemoryInv, RunInv, AgreeInv, EarnedInv, IndexInv, LoadedInv;
  }

  lemma BeginKeeps(w: World, e: Event)
    requires Inv(w) && e.Begin? && Enabled(w, e)
    ensures Inv(ApplyBegin(w, e))
  {
    hide Inv, InvBut, Save;
    WorkerHasJob(w, e.id);
    OnDisk(w, e.id);
    var v := Amended(w.mem.items[e.id], Running, "executing", "", "", e.now);
    SaveFrame(w, v, e.outcome);
    SaveKeeps(w, v, e.outcome);
    var s := Save(w, v, e.outcome);
    if e.outcome == Saved {
      StoreKeeps(s, v);
      RunKeeps(Store(s, v), e.id);
    } else {
      MoveWorker(s, e.id, NotStarted);
    }
  }

  lemma ReportKeeps(w: World, e: Event)
    requires Inv(w) && e.Report? && Enabled(w, e)
    ensures Inv(Update(w, e.id, e.state, e.phase, e.result, e.error, e.now, e.outcome))
  {
    hide Inv, InvBut, Save;
    WorkerHasJob(w, e.id);
    OnDisk(w, e.id);
    var v := Amended(w.mem.items[e.id], e.state, e.phase, e.result, e.error, e.now);
    SaveFrame(w, v, e.outcome);
    SaveKeeps(w, v, e.outcome);
    if e.outcome == Saved { StoreKeeps(Save(w, v, e.outcome), v); }
  }

  lemma ReturnedKeeps(w: World, returned: set<Id>)
    requires Inv(w) && w.hist.returned <= returned
    ensures Inv(w.(hist := w.hist.(returned := returned)))
  {
    hide DiskInv, MemoryInv, WorkerInv, RunInv, AgreeInv, EarnedInv, IndexInv, LoadedInv;
    EarnedGrows(w.disk.files, w.hist.returned, w.hist.checkpoints, returned, w.hist.checkpoints);
    EarnedGrows(w.disk.synced, w.hist.returned, w.hist.checkpoints, returned, w.hist.checkpoints);
    EarnedAllGrows(w.disk.between, w.hist.returned, w.hist.checkpoints, returned, w.hist.checkpoints);
    EarnedGrows(w.mem.items, w.hist.returned, w.hist.checkpoints, returned, w.hist.checkpoints);
  }

  lemma PendingKeepsWorkers(workers: map<Id, Worker>, m: Memory, runs: multiset<Key>, synced: set<Id>, id: Id)
    requires WorkerInv(workers, m, runs, synced) && id in workers && workers[id] == Finished
    ensures WorkerInv(workers, m.(pending := m.pending + {id}), runs, synced)
  {
  }

  lemma PendingKeepsMemory(m: Memory, files: map<Id, Job>, id: Id)
    requires MemoryInv(m, files) && id in m.items
    ensures MemoryInv(m.(pending := m.pending + {id}), files)
  {
  }

  lemma PendingKeeps(w: World, id: Id)
    requires Inv(w) && w.up && id in w.hist.workers && w.hist.workers[id] == Finished
    ensures Inv(w.(mem := w.mem.(pending := w.mem.pending + {id})))
  {
    WorkerHasJob(w, id);
    hide DiskInv, RunInv, EarnedInv, IndexInv, LoadedInv, SameRequest, WorkerInv, MemoryInv;
    PendingKeepsWorkers(w.hist.workers, w.mem, w.hist.runs, w.disk.synced.Keys, id);
    PendingKeepsMemory(w.mem, w.disk.files, id);
    var t := w.(mem := w.mem.(pending := w.mem.pending + {id}));
    assert AgreeInv(t.mem.items, t.disk.files, t.mem.pending + t.hist.torn + {});
    hide AgreeInv;
  }

  /** The worker leaves with its outcome saved, or kept in memory as pending. */
  lemma LeaveKeeps(w: World, v: Job, kept: Job, o: SaveOutcome)
    requires Inv(w) && w.up && v.id in w.hist.workers && v.id in w.mem.items
    requires MaySave(w, v) && SameRequest(v, w.mem.items[v.id])
    requires kept.id == v.id && SameRequest(kept, w.mem.items[v.id])
    requires Earned(w.hist.returned, w.hist.checkpoints, kept)
    ensures var done := SetWorker(Save(w, v, o), v.id, Finished);
      && (o == Saved ==> Inv(Store(done, v)))
      && (o != Saved ==> Inv(Store(done.(mem := done.mem.(pending := done.mem.pending + {v.id})), kept)))
  {
    hide Inv, InvBut, Save, MaySave, SameRequest, Earned;
    SaveFrame(w, v, o);
    SaveKeeps(w, v, o);
    var s := Save(w, v, o);
    if o == Saved {
      StoreKeeps(s, v);
      MoveWorker(Store(s, v), v.id, Finished);
    } else {
      MoveWorker(s, v.id, Finished);
      var t := SetWorker(s, v.id, Finished);
      PendingKeeps(t, v.id);
      var u := t.(mem := t.mem.(pending := t.mem.pending + {v.id}));
      InvWeaken(u, {v.id});
      EarnedAt(kept, w.hist.returned, w.hist.checkpoints, s.hist.checkpoints);
      StoreKeeps(u, kept);
    }
  }

  lemma EarnedAt(v: Job, returned: set<Id>, c: set<Id>, d: set<Id>)
    requires Earned(returned, c, v) && c <= d
    ensures Earned(returned, d, v)
  {
  }

  lemma FinishKeeps(w: World, e: Event)
    requires Inv(w) && e.Finish? && Enabled(w, e)
    ensures Inv(ApplyFinish(w, e))
  {
    hide Inv, InvBut, Save;
    WorkerHasJob(w, e.id);
    OnDisk(w, e.id);
    var (state, phase, result, msg) := Verdict(w.hist.workers[e.id], e.ret);
    var returned := if w.hist.workers[e.id] == Executing && e.ret.Success?
                    then w.hist.returned + {e.id} else w.hist.returned;
    var v := Amended(w.mem.items[e.id], state, phase, result, msg, e.now);
    var kept := v.(state := if phase == STORAGE_ERROR then v.state else Unknown,
                   phase := STORAGE_ERROR, result := "",
                   error := if phase == STORAGE_ERROR then msg else OUTCOME_LOST);
    var w1 := w.(hist := w.hist.(returned := returned));
    assert MaySave(w1, v) && SameRequest(v, w1.mem.items[v.id]) && SameRequest(kept, w1.mem.items[v.id]);
    assert Earned(returned, w.hist.checkpoints, kept);
    ReturnedKeeps(w, returned);
    hide MaySave, SameRequest, Earned, Verdict;
    LeaveKeeps(w1, v, kept, e.outcome);
  }

  lemma InvWeaken(w: World, but: set<Id>)
    requires Inv(w)
    ensures InvBut(w, but)
  {
    hide DiskInv, MemoryInv, WorkerInv, RunInv, EarnedInv, IndexInv, LoadedInv;
  }

  lemma ExitKeeps(w: World, e: Event)
    requires Inv(w) && e.Exit? && Enabled(w, e)
    ensures Inv(ApplyExit(w, e))
  {
    hide DiskInv, RunInv, AgreeInv, EarnedInv, EarnedAll, IndexInv, LoadedInv, MemoryInv, WorkerInv;
    ExitKeepsWorkers(w.hist.workers, w.mem, w.hist.runs, w.disk.synced.Keys, e.id);
    FreedKeepsMemory(w.mem, w.disk.files);
  }

  lemma ExitKeepsWorkers(workers: map<Id, Worker>, m: Memory, runs: multiset<Key>, synced: set<Id>, id: Id)
    requires WorkerInv(workers, m, runs, synced) && id in workers
    ensures m.busy == Some(id) && WorkerInv(workers - {id}, m.(busy := None), runs, synced)
  {
  }

  lemma FreedKeepsMemory(m: Memory, files: map<Id, Job>)
    requires MemoryInv(m, files)
    ensures MemoryInv(m.(busy := None), files)
  {
  }

  // ---------------------------------------------------------------------- Start

  /** A pending outcome that is on disk again need not be pending. */
  lemma UnpendKeeps(s: World, id: Id)
    requires InvBut(s, {id}) && s.up
    requires id in s.mem.items && id in s.disk.files && s.disk.files[id] == s.mem.items[id]
    ensures Inv(s.(mem := s.mem.(pending := s.mem.pending - {id})))
  {
    hide DiskInv, RunInv, EarnedInv, EarnedAll, IndexInv, LoadedInv, SameRequest, MemoryInv, WorkerInv, AgreeInv;
    var t := s.(mem := s.mem.(pending := s.mem.pending - {id}));
    UnpendKeepsMemory(s.mem, s.disk.files, s.hist.workers, s.hist.runs, s.disk.synced.Keys, id);
    UnpendKeepsAgree(s.mem, s.disk.files, s.hist.torn, id);
  }

  lemma UnpendKeepsMemory(m: Memory, files: map<Id, Job>, workers: map<Id, Worker>, runs: multiset<Key>, synced: set<Id>, id: Id)
    requires MemoryInv(m, files) && WorkerInv(workers, m, runs, synced)
    ensures MemoryInv(m.(pending := m.pending - {id}), files)
    ensures WorkerInv(workers, m.(pending := m.pending - {id}), runs, synced)
  {
    hide SameRequest;
  }

  lemma UnpendKeepsAgree(m: Memory, files: map<Id, Job>, torn: set<Id>, id: Id)
    requires AgreeInv(m.items, files, m.pending + torn + {id}) && id in m.items && id in files && files[id] == m.items[id]
    ensures AgreeInv(m.items, files, (m.pending - {id}) + torn + {})
  {
  }

  lemma MayResave(w: World, id: Id)
    requires Inv(w) && id in w.mem.items
    ensures MaySave(w, w.mem.items[id]) && w.mem.items[id].id == id
  {
    OnDisk(w, id);
    hide DiskInv, MemoryInv, WorkerInv, RunInv, AgreeInv, IndexInv, LoadedInv, SameRequest;
  }

  /** Repairing keeps the invariant and, when every save succeeds, empties `pending`. */
  lemma {:induction false} RepairKeeps(w: World, order: seq<Id>, outcomes: map<Id, SaveOutcome>)
    requires Inv(w) && w.up && IsOrder(order, w.mem.pending)
    ensures var (r, ok) := Repair(w, order, outcomes);
      && Inv(r) && r.up
      && r.mem == w.mem.(pending := r.mem.pending)
      && r.hist == w.hist.(torn := r.hist.torn, checkpoints := r.hist.checkpoints)
      && (ok ==> r.mem.pending == {})
    decreases |order|
  {
    hide Inv, InvBut, Save;
    PendingAreJobs(w);
    if order == [] {
      assert w.mem.pending == {};
    } else {
      var id := order[0];
      assert id in w.mem.pending;
      var v := w.mem.items[id];
      var o := OutcomeOf(outcomes, id);
      MayResave(w, id);
      SaveFrame(w, v, o);
      SaveKeeps(w, v, o);
      var s := Save(w, v, o);
      if o == Saved {
        UnpendKeeps(s, id);
        var t := s.(mem := s.mem.(pending := s.mem.pending - {id}));
        assert IsOrder(order[1..], t.mem.pending) by {
          assert forall x :: x in order <==> x == id || x in order[1..];
        }
        RepairKeeps(t, order[1..], outcomes);
      }
    }
  }

  lemma PendingAreJobs(w: World)
    requires Inv(w)
    ensures w.mem.pending <= w.mem.items.Keys
  {
    hide DiskInv, WorkerInv, RunInv, AgreeInv, EarnedInv, IndexInv, LoadedInv;
  }

  lemma FreshKey(w: World, k: Key)
    requires Inv(w) && w.up && k !in w.mem.keys
    ensures k !in w.hist.accepted && w.hist.runs[k] == 0
  {
    hide WorkerInv, AgreeInv, EarnedInv;
  }

  lemma NewFileDisk(d: Disk, drawn: set<Id>, orphans: set<Id>, v: Job, o: set<Id>)
    requires DiskInv(d, drawn, orphans) && v.id !in drawn && ValidId(v.id) && o <= {v.id}
    ensures DiskInv(d, drawn + {v.id}, orphans + o)
    ensures DiskInv(Disk(d.files[v.id := v], d.synced, d.between + {v}), drawn + {v.id}, orphans + o)
    ensures DiskInv(Disk(d.files[v.id := v], d.files[v.id := v], {}), drawn + {v.id}, orphans + o)
    ensures v.id !in d.files && v.id !in orphans
  {
  }

  lemma NewFileOrphan(accepted: map<Key, Job>, orphans: set<Id>, d: Disk, v: Job)
    requires IndexInv(accepted, orphans, d) && v.id !in d.files
    requires forall id :: id in d.synced ==> id in d.files
    ensures IndexInv(accepted, orphans + {v.id}, Disk(d.files[v.id := v], d.synced, d.between + {v}))
  {
  }

  lemma NewFileAccepted(accepted: map<Key, Job>, orphans: set<Id>, d: Disk, drawn: set<Id>, v: Job)
    requires IndexInv(accepted, orphans, d) && DiskInv(d, drawn, orphans)
    requires v.id !in drawn && v.key !in accepted
    ensures IndexInv(accepted[v.key := v], orphans, Disk(d.files[v.id := v], d.files[v.id := v], {}))
  {
    var a := accepted[v.key := v];
    var files := d.files[v.id := v];
    forall k | k in a
      ensures a[k].key == k && a[k].id !in orphans && a[k].id in files && SameRequest(files[a[k].id], a[k])
    {
      if k != v.key {
        assert a[k] == accepted[k] && a[k].id in d.synced && a[k].id in d.files;
        assert a[k].id != v.id;
      }
    }
  }

  lemma NewFileMemory(m: Memory, files: map<Id, Job>, v: Job)
    requires MemoryInv(m, files) && v.id !in files && v.key !in m.keys
    ensures MemoryInv(m, files[v.id := v])
    ensures MemoryInv(m.(items := m.items[v.id := v], keys := m.keys[v.key := v.id], busy := Some(v.id)),
                      files[v.id := v])
  {
  }

  lemma AcceptKeeps(w: World, v: Job, o: SaveOutcome)
    requires Inv(w) && w.up && w.mem.busy == None && w.mem.pending == {}
    requires v.key !in w.mem.keys && v.id !in w.hist.drawn && ValidId(v.id) && v.state == Queued
    ensures Inv(Accept(w, v, o))
  {
    FreshKey(w, v.key);
    NewFileDisk(w.disk, w.hist.drawn, w.hist.orphans, v, if o == NotSynced then {v.id} else {});
    NewFileMemory(w.mem, w.disk.files, v);
    SyncedAreFiles(w);
    NewFileOrphan(w.hist.accepted, w.hist.orphans, w.disk, v);
    NewFileAccepted(w.hist.accepted, w.hist.orphans, w.disk, w.hist.drawn, v);
    match o {
      case NotSaved => AcceptNotSaved(w, v);
      case NotSynced => AcceptNotSynced(w, v);
      case Saved => AcceptSaved(w, v);
    }
    hide Inv, InvBut, Accept;
  }

  lemma SyncedAreFiles(w: World)
    requires Inv(w)
    ensures w.disk.synced.Keys <= w.disk.files.Keys
  {
    hide MemoryInv, WorkerInv, RunInv, AgreeInv, EarnedInv, IndexInv, LoadedInv;
  }

  lemma AcceptNotSaved(w: World, v: Job)
    requires Inv(w) && DiskInv(w.disk, w.hist.drawn + {v.id}, w.hist.orphans + {})
    ensures Inv(Accept(w, v, NotSaved))
  {
    hide DiskInv, MemoryInv, WorkerInv, RunInv, AgreeInv, EarnedInv, IndexInv, LoadedInv;
    assert w.hist.orphans + {} == w.hist.orphans;
  }

  lemma AcceptNotSynced(w: World, v: Job)
    requires Inv(w) && v.id !in w.disk.files && v.state == Queued
    requires DiskInv(Disk(w.disk.files[v.id := v], w.disk.synced, w.disk.between + {v}), w.hist.drawn + {v.id}, w.hist.orphans + {v.id})
    requires MemoryInv(w.mem, w.disk.files[v.id := v])
    requires IndexInv(w.hist.accepted, w.hist.orphans + {v.id}, Disk(w.disk.files[v.id := v], w.disk.synced, w.disk.between + {v}))
    requires w.up
    ensures Inv(Accept(w, v, NotSynced))
  {
    hide DiskInv, MemoryInv, WorkerInv, RunInv, IndexInv, LoadedInv;
    var t := Accept(w, v, NotSynced);
    assert EarnedInv(t.disk.files, t.hist.returned, t.hist.checkpoints);
    hide EarnedInv;
    assert AgreeInv(t.mem.items, t.disk.files, t.mem.pending + t.hist.torn + {});
    hide AgreeInv;
  }

  lemma AcceptSaved(w: World, v: Job)
    requires Inv(w) && w.up && v.id !in w.disk.files && v.id !in w.hist.orphans && v.state == Queued
    requires w.mem.busy == None && w.mem.pending == {}
    requires v.key !in w.mem.keys && w.hist.runs[v.key] == 0
    requires w.disk.synced.Keys <= w.disk.files.Keys
    requires var files := w.disk.files[v.id := v];
      && DiskInv(Disk(files, files, {}), w.hist.drawn + {v.id}, w.hist.orphans + {})
      && MemoryInv(w.mem.(items := w.mem.items[v.id := v], keys := w.mem.keys[v.key := v.id], busy := Some(v.id)), files)
      && IndexInv(w.hist.accepted[v.key := v], w.hist.orphans, Disk(files, files, {}))
    ensures Inv(Accept(w, v, Saved))
  {
    hide DiskInv, MemoryInv, RunInv, IndexInv, EarnedInv, AgreeInv, LoadedInv, WorkerInv;
    var t := Accept(w, v, Saved);
    assert w.hist.orphans + {} == w.hist.orphans;
    AcceptRuns(w.hist.runs, w.disk, w.mem.keys, v, w.hist.drawn, w.hist.orphans);
    AcceptEarned(w.disk.files, w.hist.returned, w.hist.checkpoints, v);
    AcceptEarned(w.mem.items, w.hist.returned, w.hist.checkpoints, v);
    AcceptAgree(w.mem.items, w.disk.files, w.hist.torn, v);
    assert t.hist.torn == w.hist.torn - {v.id};
    AcceptLoaded(w.hist.accepted, w.mem.items, v);
    AcceptWorkers(w.hist.workers, w.mem, w.hist.runs, w.disk.synced.Keys, t.disk.synced.Keys, v);
  }

  lemma AcceptEarned(records: map<Id, Job>, returned: set<Id>, checkpoints: set<Id>, v: Job)
    requires EarnedInv(records, returned, checkpoints) && v.state == Queued
    ensures EarnedInv(records[v.id := v], returned, checkpoints)
  {
  }

  lemma AcceptAgree(items: map<Id, Job>, files: map<Id, Job>, torn: set<Id>, v: Job)
    requires AgreeInv(items, files, {} + torn + {})
    ensures AgreeInv(items[v.id := v], files[v.id := v], {} + (torn - {v.id}) + {})
  {
  }

  lemma AcceptLoaded(accepted: map<Key, Job>, items: map<Id, Job>, v: Job)
    requires LoadedInv(accepted, true, items)
    ensures LoadedInv(accepted[v.key := v], true, items[v.id := v])
  {
  }

  lemma AcceptWorkers(workers: map<Id, Worker>, m: Memory, runs: multiset<Key>, synced: set<Id>, later: set<Id>, v: Job)
    requires WorkerInv(workers, m, runs, synced) && m.busy == None && m.pending == {}
    requires runs[v.key] == 0 && v.id in later
    ensures WorkerInv(workers[v.id := Accepted],
                      m.(items := m.items[v.id := v], keys := m.keys[v.key := v.id], busy := Some(v.id)), runs, later)
  {
    assert workers == map[];
  }

  lemma AcceptRuns(runs: multiset<Key>, d: Disk, keys: map<Key, Id>, v: Job, drawn: set<Id>, orphans: set<Id>)
    requires RunInv(runs, d.synced, true, keys) && DiskInv(d, drawn, orphans) && v.id !in d.files
    ensures RunInv(runs, d.files[v.id := v], true, keys[v.key := v.id])
  {
    var files := d.files[v.id := v];
    SyncedKeepsRuns(runs, d.synced, true, keys, files);
  }

  lemma StartKeeps(w: World, e: Event)
    requires Inv(w) && e.Start? && Enabled(w, e)
    ensures Inv(ApplyStart(w, e))
  {
    if KeyOf(e.req) !in w.mem.keys && w.mem.busy == None {
      RepairKeeps(w, e.order, e.repairs);
      var (r, ok) := Repair(w, e.order, e.repairs);
      if ok { AcceptKeeps(r, NewJob(e.req, e.id, e.now), e.accept); }
    }
    hide Inv, InvBut, Repair, Accept;
  }

  // ------------------------------------------------------------ crash, recovery

  lemma CrashKeepsFiles(d: Disk, lost: set<Id>, kept: map<Id, Job>, drawn: set<Id>, orphans: set<Id>, accepted: map<Key, Job>)
    requires DiskInv(d, drawn, orphans) && IndexInv(accepted, orphans, d)
    requires forall id :: id in kept ==> kept[id] in d.between && kept[id].id == id
    ensures var files := Fallen(d, lost, kept);
      var after := Disk(files, d.synced, set v | v in d.between && v.id in files);
      DiskInv(after, drawn, orphans) && IndexInv(accepted, orphans, after)
  {
    hide ValidId;
  }

  lemma CrashKeepsEarned(d: Disk, lost: set<Id>, kept: map<Id, Job>, returned: set<Id>, checkpoints: set<Id>)
    requires EarnedInv(d.files, returned, checkpoints) && EarnedInv(d.synced, returned, checkpoints)
    requires EarnedAll(d.between, returned, checkpoints)
    requires forall id :: id in kept ==> kept[id] in d.between && kept[id].id == id
    ensures EarnedInv(Fallen(d, lost, kept), returned, checkpoints)
  {
    hide Earned;
  }

  lemma DownKeepsRuns(runs: multiset<Key>, synced: map<Id, Job>, up: bool, keys: map<Key, Id>, later: map<Key, Id>)
    requires RunInv(runs, synced, up, keys)
    ensures RunInv(runs, synced, false, later)
  {
  }

  lemma NoMemoryKeeps(t: World)
    requires !t.up && t.mem == NO_MEMORY && t.hist.workers == map[] && t.hist.torn == {}
    requires DiskInv(t.disk, t.hist.drawn, t.hist.orphans)
    requires IndexInv(t.hist.accepted, t.hist.orphans, t.disk)
    requires RunInv(t.hist.runs, t.disk.synced, false, t.mem.keys)
    requires EarnedInv(t.disk.files, t.hist.returned, t.hist.checkpoints)
    requires EarnedInv(t.disk.synced, t.hist.returned, t.hist.checkpoints)
    requires EarnedAll(t.disk.between, t.hist.returned, t.hist.checkpoints)
    ensures Inv(t)
  {
    hide DiskInv, IndexInv, RunInv;
    assert EarnedInv(t.mem.items, t.hist.returned, t.hist.checkpoints);
    hide EarnedInv;
  }

  lemma CrashKeeps(w: World, e: Event)
    requires Inv(w) && e.Crash? && Enabled(w, e)
    ensures Inv(ApplyCrash(w, e))
  {
    hide DiskInv, IndexInv, EarnedInv, RunInv, MemoryInv, AgreeInv, WorkerInv, LoadedInv;
    CrashKeepsFiles(w.disk, e.lost, e.kept, w.hist.drawn, w.hist.orphans, w.hist.accepted);
    CrashKeepsEarned(w.disk, e.lost, e.kept, w.hist.returned, w.hist.checkpoints);
    DownKeepsRuns(w.hist.runs, w.disk.synced, w.up, w.mem.keys, map[]);
    hide Inv, InvBut;
    NoMemoryKeeps(ApplyCrash(w, e));
  }

  /** Half-way through `NewJobs`: the files in `rest` are still to be read. */
  ghost predicate Loading(w: World, rest: seq<Id>)
  {
    && !w.up && w.hist.workers == map[] && w.hist.torn == {} && w.mem.busy == None && w.mem.pending == {}
    && DiskInv(w.disk, w.hist.drawn, w.hist.orphans)
    && IndexInv(w.hist.accepted, w.hist.orphans, w.disk)
    && RunInv(w.hist.runs, w.disk.synced, false, w.mem.keys)
    && MemoryInv(w.mem, w.disk.files)
    && AgreeInv(w.mem.items, w.disk.files, {})
    && (forall id :: id in w.disk.files ==> id in w.mem.items || id in rest)
    && (forall i, j :: 0 <= i < j < |rest| ==> rest[i] != rest[j])
    && (forall id :: id in rest ==> id in w.disk.files && id !in w.mem.items)
    && EarnedInv(w.disk.files, w.hist.returned, w.hist.checkpoints)
    && EarnedInv(w.disk.synced, w.hist.returned, w.hist.checkpoints)
    && EarnedInv(w.mem.items, w.hist.returned, w.hist.checkpoints)
    && EarnedAll(w.disk.between, w.hist.returned, w.hist.checkpoints)
  }

  lemma RecoverStarts(w: World, order: seq<Id>)
    requires Inv(w) && !w.up && IsOrder(order, w.disk.files.Keys)
    ensures Loading(w, order)
  {
    hide DiskInv, IndexInv, EarnedInv, RunInv, MemoryInv;
  }

  /** When every file has been read, the process is up and knows every job. */
  lemma LoadEnds(w: World)
    requires Loading(w, [])
    ensures Inv(w.(up := true))
  {
    hide EarnedInv, ValidId;
    var t := w.(up := true);
    assert LoadedInv(t.hist.accepted, true, t.mem.items);
    hide IndexInv;
    assert RunInv(t.hist.runs, t.disk.synced, true, t.mem.keys) by {
      forall k | t.hist.runs[k] > 0
        ensures k in t.mem.keys
      {
        var id :| id in t.disk.synced && t.disk.synced[id].key == k;
        assert id in t.mem.items && t.mem.items[id].key == k;
      }
    }
    hide RunInv, DiskInv, MemoryInv;
  }

  lemma LoadFails(w: World, rest: seq<Id>, id: Id, o: SaveOutcome, now: Time)
    requires Loading(w, rest) && id in rest && o != Saved
    ensures var s := Save(w, Recovered(w.disk.files[id], now), o);
      Inv(s.(mem := NO_MEMORY, hist := s.hist.(torn := {})))
  {
    var v := Recovered(w.disk.files[id], now);
    RecoveredMayBeSaved(w, rest, id, now);
    LoadSaves(w, rest, v, o);
    hide Loading, Save, Recovered;
  }

  lemma RecoveredMayBeSaved(w: World, rest: seq<Id>, id: Id, now: Time)
    requires Loading(w, rest) && id in rest
    ensures MaySave(w, Recovered(w.disk.files[id], now)) && Recovered(w.disk.files[id], now).id == id
    ensures ValidId(id) && SameRequest(Recovered(w.disk.files[id], now), w.disk.files[id])
  {
    hide IndexInv, RunInv, MemoryInv, AgreeInv, ValidId;
  }

  lemma LoadSaves(w: World, rest: seq<Id>, v: Job, o: SaveOutcome)
    requires Loading(w, rest) && MaySave(w, v) && v.id in rest
    ensures var s := Save(w, v, o);
      && (o == Saved ==> Loading(s, rest) && s.disk.files[v.id] == v
                         && Earned(s.hist.returned, s.hist.checkpoints, v))
      && (o != Saved ==> Inv(s.(mem := NO_MEMORY, hist := s.hist.(torn := {}))))
      && s.mem == w.mem && s.disk.files.Keys == w.disk.files.Keys
  {
    hide Save, DiskInv, IndexInv, MemoryInv, EarnedInv, RunInv, MaySave, SameRequest, Earned, Inv, InvBut;
    var s := Save(w, v, o);
    SaveFrame(w, v, o);
    SaveKeepsDisk(w, v, o);
    SaveKeepsEarned(w, v, o);
    SaveKeepsIndex(w, v, o);
    SyncedKeepsRuns(w.hist.runs, w.disk.synced, false, w.mem.keys, s.disk.synced);
    FilesKeepMemory(w.mem, w.disk.files, s.disk.files);
    EarnedGrows(w.mem.items, w.hist.returned, w.hist.checkpoints, s.hist.returned, s.hist.checkpoints);
    if o != Saved {
      DownKeepsRuns(s.hist.runs, s.disk.synced, false, s.mem.keys, map[]);
      NoMemoryKeeps(s.(mem := NO_MEMORY, hist := s.hist.(torn := {})));
    }
  }

  /** One file read: `id` moves from the files to read into memory. */
  lemma LoadOne(w: World, rest: seq<Id>)
    requires rest != [] && Loading(w, rest)
    ensures var id := rest[0]; var v := w.disk.files[id];
      Loading(w.(mem := w.mem.(items := w.mem.items[id := v], keys := w.mem.keys[v.key := id])), rest[1..])
  {
    hide IndexInv, EarnedInv, RunInv, MemoryInv, DiskInv;
    var id, v := rest[0], w.disk.files[rest[0]];
    LoadOneMemory(w.mem, w.disk, w.hist.drawn, w.hist.orphans, id);
    LoadOneEarned(w.mem.items, w.disk.files, w.hist.returned, w.hist.checkpoints, id);
    DownKeepsRuns(w.hist.runs, w.disk.synced, false, w.mem.keys, w.mem.keys[v.key := id]);
    assert forall x :: x in rest <==> x == id || x in rest[1..];
  }

  lemma LoadOneMemory(m: Memory, d: Disk, drawn: set<Id>, orphans: set<Id>, id: Id)
    requires MemoryInv(m, d.files) && DiskInv(d, drawn, orphans) && id in d.files && id !in m.items
    ensures var v := d.files[id];
      MemoryInv(m.(items := m.items[id := v], keys := m.keys[v.key := id]), d.files)
  {
    hide ValidId;
  }

  lemma LoadOneEarned(items: map<Id, Job>, files: map<Id, Job>, returned: set<Id>, checkpoints: set<Id>, id: Id)
    requires EarnedInv(items, returned, checkpoints) && EarnedInv(files, returned, checkpoints) && id in files
    ensures EarnedInv(items[id := files[id]], returned, checkpoints)
  {
    hide Earned;
  }

  lemma {:induction false} LoadKeeps(w: World, order: seq<Id>, saves: map<Id, SaveOutcome>, now: Time)
    requires Loading(w, order)
    ensures var l := Load(w, order, saves, now);
      if l.up then Inv(l) else Inv(l.(mem := NO_MEMORY, hist := l.hist.(torn := {})))
    decreases |order|
  {
    if order == [] {
      LoadEnds(w);
    } else {
      var id := order[0];
      RecoveredMayBeSaved(w, order, id, now);
      InFiles(w, order);
      var v := Recovered(w.disk.files[id], now);
      var needs := NeedsRecovery(w.disk.files[id]);
      assert !needs ==> v == w.disk.files[id];
      hide Loading, Save, Recovered, NeedsRecovery, Inv, InvBut, ValidId;
      if needs && OutcomeOf(saves, id) != Saved {
        LoadFails(w, order, id, OutcomeOf(saves, id), now);
        SaveFrame(w, v, OutcomeOf(saves, id));
        IsDown(w, order);
      } else {
        var saved := if needs then Save(w, v, Saved) else w;
        if needs { LoadSaves(w, order, v, Saved); }
        LoadOne(saved, order);
        LoadKeeps(saved.(mem := saved.mem.(items := saved.mem.items[id := v], keys := saved.mem.keys[v.key := id])),
                  order[1..], saves, now);
      }
    }
  }

  lemma InFiles(w: World, rest: seq<Id>)
    requires Loading(w, rest)
    ensures forall id :: id in rest ==> id in w.disk.files
  {
    hide DiskInv, IndexInv, RunInv, MemoryInv, AgreeInv, EarnedInv;
  }

  lemma IsDown(w: World, rest: seq<Id>)
    requires Loading(w, rest)
    ensures !w.up
  {
    hide DiskInv, IndexInv, RunInv, MemoryInv, AgreeInv, EarnedInv;
  }

  lemma RecoverKeeps(w: World, e: Event)
    requires Inv(w) && e.Recover? && Enabled(w, e)
    ensures Inv(ApplyRecover(w, e))
  {
    RecoverStarts(w, e.order);
    LoadKeeps(w, e.order, e.saves, e.now);
    hide Inv, InvBut, Load, Loading;
  }

  /** Every event keeps the invariant. */
  lemma StepKeeps(w: World, e: Event)
    requires Inv(w) && Enabled(w, e)
    ensures Inv(Apply(w, e))
  {
    match e {
      case Start(_, _, _, _, _, _) => StartKeeps(w, e);
      case Begin(_, _, _) => BeginKeeps(w, e);
      case Report(_, _, _, _, _, _, _) => ReportKeeps(w, e);
      case Finish(_, _, _, _) => FinishKeeps(w, e);
      case Exit(_) => ExitKeeps(w, e);
      case Crash(_, _) => CrashKeeps(w, e);
      case Recover(_, _, _) => RecoverKeeps(w, e);
    }
    hide Inv, InvBut;
  }
}
