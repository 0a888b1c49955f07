/** Theorems over whole runs of the job store, with any number of crashes, power cuts,
    restarts and failed saves (`webcontrol/jobs.go`). */
module JobRuns {
  import opened Wrappers
  import opened Sets
  import opened JobModel
  import opened JobTheorems

  /** The events of `es` are possible one after the other from `w`. */
  ghost predicate Possible(w: World, es: seq<Event>)
    requires Inv(w)
    decreases |es|
  {
    es == [] || (Enabled(w, es[0]) && (StepKeeps(w, es[0]); Possible(Apply(w, es[0]), es[1..])))
  }

  /** The world after the events of `es`. */
  ghost function Run(w: World, es: seq<Event>): World
    requires Inv(w) && Possible(w, es)
    decreases |es|
  {
    if es == [] then w
    else
      StepKeeps(w, es[0]);
      Run(Apply(w, es[0]), es[1..])
  }

  lemma {:induction false} RunKeeps(w: World, es: seq<Event>)
    requires Inv(w) && Possible(w, es)
    ensures Inv(Run(w, es))
    decreases |es|
  {
    hide Inv, Enabled, Apply;
    if es != [] {
      StepKeeps(w, es[0]);
      RunKeeps(Apply(w, es[0]), es[1..]);
    }
  }

  lemma EmptyIsSound()
    ensures Inv(EMPTY)
  {
  }

  /** A world some run leads to from an empty directory. */
  ghost predicate Reachable(w: World)
  {
    EmptyIsSound();
    exists es :: Possible(EMPTY, es) && Run(EMPTY, es) == w
  }

  lemma {:induction false} RunAppend(w: World, es: seq<Event>, e: Event)
    requires Inv(w) && Possible(w, es) && Inv(Run(w, es)) && Enabled(Run(w, es), e)
    ensures Possible(w, es + [e]) && Run(w, es + [e]) == Apply(Run(w, es), e)
    decreases |es|
  {
    hide Inv, Enabled, Apply;
    if es == [] {
      StepKeeps(w, e);
      assert [e][1..] == [];
      assert Possible(Apply(w, e), []);
    } else {
      StepKeeps(w, es[0]);
      assert (es + [e])[0] == es[0] && (es + [e])[1..] == es[1..] + [e];
      RunAppend(Apply(w, es[0]), es[1..], e);
    }
  }

  lemma EmptyIsReachable()
    ensures Reachable(EMPTY) && Inv(EMPTY)
  {
    EmptyIsSound();
    assert Possible(EMPTY, []) && Run(EMPTY, []) == EMPTY;
  }

  lemma ReachableStep(w: World, e: Event)
    requires Reachable(w) && Inv(w) && Enabled(w, e)
    ensures Reachable(Apply(w, e))
  {
    EmptyIsSound();
    var es :| Possible(EMPTY, es) && Run(EMPTY, es) == w;
    RunAppend(EMPTY, es, e);
  }

  lemma ReachableIsSound(w: World)
    requires Reachable(w)
    ensures Inv(w)
  {
    EmptyIsSound();
    hide Inv, Run, Possible;
    var es :| Possible(EMPTY, es) && Run(EMPTY, es) == w;
    RunKeeps(EMPTY, es);
  }

  /** The operation of one (actor, server, key) is invoked at most once, ever. */
  lemma AtMostOnce(w: World, r: Request)
    requires Reachable(w)
    ensures w.hist.runs[KeyOf(r)] <= 1
  {
    ReachableIsSound(w);
    hide WorkerInv, MemoryInv, DiskInv, AgreeInv, EarnedInv, IndexInv, LoadedInv;
  }

  /** Once an operation was invoked, no later request with its key is started, whatever
      crashed or failed in between: it is answered from the record. */
  lemma InvokedIsNeverRestarted(w: World, e: Event)
    requires Reachable(w) && w.up && e.Start? && w.hist.runs[KeyOf(e.req)] > 0
    ensures AnswerTo(w, e).Known? || AnswerTo(w, e).Conflict?
    ensures ApplyStart(w, e) == w
  {
    ReachableIsSound(w);
    hide WorkerInv, DiskInv, AgreeInv, EarnedInv, IndexInv, LoadedInv;
  }

  /** At most one worker exists, and an admitted job leaves nothing pending. */
  lemma OneWorker(w: World, e: Event)
    requires Reachable(w)
    ensures |w.hist.workers| <= 1
    ensures e.Start? && Enabled(w, e) && AnswerTo(w, e).Started? ==>
      && w.hist.workers == map[]
      && ApplyStart(w, e).mem.pending == {}
      && ApplyStart(w, e).hist.workers == map[e.id := Accepted]
  {
    hide InvBut, Repair, WorkerInv;
    ReachableIsSound(w);
    KeysHaveJobs(w);
    assert |w.hist.workers| == |w.hist.workers.Keys|;
    if e.Start? && Enabled(w, e) && AnswerTo(w, e).Started? {
      RepairKeeps(w, e.order, e.repairs);
      assert w.hist.workers.Keys == {};
    }
    hide Inv;
  }

  lemma KeysHaveJobs(w: World)
    requires Inv(w)
    ensures forall k :: k in w.mem.keys ==> w.mem.keys[k] in w.mem.items
    ensures w.hist.workers.Keys == (if w.mem.busy.Some? then {w.mem.busy.value} else {})
  {
    hide DiskInv, AgreeInv, EarnedInv, IndexInv, LoadedInv, RunInv;
  }

  /** Memory and disk hold the same record of every job that is neither waiting to be
      saved again nor torn by a save that failed after its rename. */
  lemma MemoryAgreesWithDisk(w: World, id: Id)
    requires Reachable(w) && id in w.mem.items && id !in w.mem.pending && id !in w.hist.torn
    ensures id in w.disk.files && w.disk.files[id] == w.mem.items[id]
  {
    ReachableIsSound(w);
    hide WorkerInv, DiskInv, EarnedInv, IndexInv, LoadedInv, RunInv, MemoryInv;
  }

  /** A record of success, on disk or any that may survive a power cut, was earned. */
  lemma SuccessIsEarned(w: World, id: Id)
    requires Reachable(w)
    ensures id in w.disk.files && w.disk.files[id].state == Succeeded ==>
      id in w.hist.returned || id in w.hist.checkpoints
    ensures id in w.disk.synced && w.disk.synced[id].state == Succeeded ==>
      id in w.hist.returned || id in w.hist.checkpoints
    ensures forall v :: v in w.disk.between && v.id == id && v.state == Succeeded ==>
      id in w.hist.returned || id in w.hist.checkpoints
  {
    ReachableIsSound(w);
    hide WorkerInv, IndexInv, LoadedInv, RunInv, AgreeInv;
  }

  // ------------------------------------------------- when no directory sync fails

  predicate Clean(o: SaveOutcome) { o != NotSynced }

  predicate CleanAll(m: map<Id, SaveOutcome>) { forall id :: id in m ==> Clean(m[id]) }

  predicate CleanEvent(e: Event)
  {
    match e
    case Start(_, _, _, _, repairs, accept) => CleanAll(repairs) && Clean(accept)
    case Begin(_, _, o) => Clean(o)
    case Report(_, _, _, _, _, _, o) => Clean(o)
    case Finish(_, _, _, o) => Clean(o)
    case Exit(_) => true
    case Crash(_, _) => true
    case Recover(_, saves, _) => CleanAll(saves)
  }

  lemma {:induction false} CleanRepair(w: World, order: seq<Id>, outcomes: map<Id, SaveOutcome>)
    requires CleanAll(outcomes) && w.hist.torn == {}
    ensures Repair(w, order, outcomes).0.hist.torn == {}
    ensures Repair(w, order, outcomes).0.hist.orphans == w.hist.orphans
    decreases |order|
  {
    if order != [] && order[0] in w.mem.items && OutcomeOf(outcomes, order[0]) == Saved {
      var s := Save(w, w.mem.items[order[0]], Saved);
      CleanRepair(s.(mem := s.mem.(pending := s.mem.pending - {order[0]})), order[1..], outcomes);
    }
  }

  lemma {:induction false} CleanLoad(w: World, order: seq<Id>, saves: map<Id, SaveOutcome>, now: Time)
    requires CleanAll(saves) && w.hist.torn == {}
    ensures Load(w, order, saves, now).hist.torn == {}
    ensures Load(w, order, saves, now).hist.orphans == w.hist.orphans
    decreases |order|
  {
    if order != [] && order[0] in w.disk.files && ValidId(order[0]) {
      var v := Recovered(w.disk.files[order[0]], now);
      var needs := NeedsRecovery(w.disk.files[order[0]]);
      hide Recovered, NeedsRecovery, ValidId;
      if !needs || OutcomeOf(saves, order[0]) == Saved {
        var s := if needs then Save(w, v, Saved) else w;
        CleanLoad(s.(mem := s.mem.(items := s.mem.items[order[0] := v], keys := s.mem.keys[v.key := order[0]])),
                  order[1..], saves, now);
      }
    }
  }

  lemma CleanStep(w: World, e: Event)
    requires Inv(w) && Enabled(w, e) && CleanEvent(e)
    requires w.hist.torn == {} && w.hist.orphans == {}
    ensures Apply(w, e).hist.torn == {} && Apply(w, e).hist.orphans == {}
  {
    hide InvBut, Repair, Load, Verdict, KeyOf, NewJob, Amended;
    match e {
      case Start(_, _, _, _, _, _) => CleanRepair(w, e.order, e.repairs);
      case Recover(_, _, _) => CleanLoad(w, e.order, e.saves, e.now);
      case Begin(_, _, _) =>
      case Report(_, _, _, _, _, _, _) =>
      case Finish(_, _, _, _) =>
      case Exit(_) =>
      case Crash(_, _) =>
    }
  }

  /** When no save fails after its rename, nothing is torn and there are no orphans, so
      memory and disk agree on every job that is not pending. */
  lemma {:induction false} CleanRuns(w: World, es: seq<Event>)
    requires Inv(w) && w.hist.torn == {} && w.hist.orphans == {}
    requires Possible(w, es) && forall i :: 0 <= i < |es| ==> CleanEvent(es[i])
    ensures Run(w, es).hist.torn == {} && Run(w, es).hist.orphans == {}
    decreases |es|
  {
    if es != [] {
      StepKeeps(w, es[0]);
      CleanStep(w, es[0]);
      hide Inv, Apply;
      CleanRuns(Apply(w, es[0]), es[1..]);
    }
  }

  // --------------------------------------------------------------- acceptance

  lemma AcceptedStaysOneStep(w: World, e: Event, k: Key)
    requires Inv(w) && Enabled(w, e) && k in w.hist.accepted
    ensures k in Apply(w, e).hist.accepted && Apply(w, e).hist.accepted[k] == w.hist.accepted[k]
  {
    hide InvBut, Repair, Load, Verdict, Amended, ValidId;
    match e {
      case Start(_, _, _, _, _, _) =>
        RepairKeeps(w, e.order, e.repairs);
        if KeyOf(e.req) !in w.mem.keys { FreshKey(w, KeyOf(e.req)); }
      case Recover(_, _, _) => LoadKeepsAccepted(w, e.order, e.saves, e.now);
      case Begin(_, _, _) =>
      case Report(_, _, _, _, _, _, _) =>
      case Finish(_, _, _, _) =>
      case Exit(_) =>
      case Crash(_, _) =>
    }
  }

  lemma {:induction false} LoadKeepsAccepted(w: World, order: seq<Id>, saves: map<Id, SaveOutcome>, now: Time)
    ensures Load(w, order, saves, now).hist.accepted == w.hist.accepted
    decreases |order|
  {
    if order != [] && order[0] in w.disk.files && ValidId(order[0]) {
      var v := Recovered(w.disk.files[order[0]], now);
      var needs := NeedsRecovery(w.disk.files[order[0]]);
      hide Recovered, NeedsRecovery, ValidId;
      if !needs || OutcomeOf(saves, order[0]) == Saved {
        var s := if needs then Save(w, v, Saved) else w;
        LoadKeepsAccepted(s.(mem := s.mem.(items := s.mem.items[order[0] := v], keys := s.mem.keys[v.key := order[0]])),
                          order[1..], saves, now);
      }
    }
  }

  /** Acceptance is for good: no later event replaces or forgets an accepted job. */
  lemma {:induction false} AcceptedStays(w: World, es: seq<Event>, k: Key)
    requires Inv(w) && Possible(w, es) && k in w.hist.accepted
    ensures k in Run(w, es).hist.accepted && Run(w, es).hist.accepted[k] == w.hist.accepted[k]
    decreases |es|
  {
    if es != [] {
      StepKeeps(w, es[0]);
      AcceptedStaysOneStep(w, es[0], k);
      hide Inv, Apply;
      AcceptedStays(Apply(w, es[0]), es[1..], k);
    }
  }

  // ------------------------------------------------------------------- orphans

  const ME := Actor("7", "me", true)
  const FIRST := Request("host", ME, "stop", "k", "one")
  const SECOND := Request("host", ME, "stop", "k", "two")

  /** The disk and the history of the accepted and the orphaned job, up to `a`'s record. */
  ghost predicate Stage(w: World, up: bool, a: Job, workers: map<Id, Worker>)
  {
    && w.up == up && SameRequest(a, NewJob(SECOND, "a", 2))
    && w.disk.files == map["a" := a, "b" := NewJob(FIRST, "b", 1)]
    && w.hist.workers == workers
    && w.hist.accepted == map[KeyOf(SECOND) := NewJob(SECOND, "a", 2)]
    && w.mem == if !up then NO_MEMORY
                else Memory(map["a" := a], map[a.key := "a"], if workers == map[] then None else Some("a"), {})
  }

  lemma OrphanRefused(w: World)
    requires Inv(w) && w == EMPTY.(up := true)
    ensures Enabled(w, Start(FIRST, "b", 1, [], map[], NotSynced))
    ensures var r := Apply(w, Start(FIRST, "b", 1, [], map[], NotSynced));
      && r.up && r.mem == NO_MEMORY && r.disk == Disk(map["b" := NewJob(FIRST, "b", 1)], map[], {NewJob(FIRST, "b", 1)})
      && r.hist.drawn == {"b"} && r.hist.workers == map[] && r.hist.accepted == map[]
  {
    hide InvBut;
    assert IsOrder<Id>([], {});
  }

  lemma SecondAccepted(w: World)
    requires Inv(w) && w.up && w.mem == NO_MEMORY && w.disk == Disk(map["b" := NewJob(FIRST, "b", 1)], map[], {NewJob(FIRST, "b", 1)})
    requires w.hist.drawn == {"b"} && w.hist.workers == map[] && w.hist.accepted == map[]
    ensures Enabled(w, Start(SECOND, "a", 2, [], map[], Saved))
    ensures Stage(Apply(w, Start(SECOND, "a", 2, [], map[], Saved)), true, NewJob(SECOND, "a", 2), map["a" := Accepted])
  {
    hide InvBut;
    assert IsOrder<Id>([], {});
    var files := map["b" := NewJob(FIRST, "b", 1)];
    assert files["a" := NewJob(SECOND, "a", 2)] == map["a" := NewJob(SECOND, "a", 2), "b" := NewJob(FIRST, "b", 1)];
    assert w.hist.workers["a" := Accepted] == map["a" := Accepted];
    assert SameRequest(NewJob(SECOND, "a", 2), NewJob(SECOND, "a", 2));
    assert w.mem.busy == None && KeyOf(SECOND) !in w.mem.keys;
    assert Repair(w, [], map[]) == (w, true);
    assert Apply(w, Start(SECOND, "a", 2, [], map[], Saved)) == Accept(w, NewJob(SECOND, "a", 2), Saved);
  }

  lemma SecondBegins(w: World, a: Job)
    requires Inv(w) && Stage(w, true, a, map["a" := Accepted])
    ensures Enabled(w, Begin("a", 3, Saved))
    ensures Stage(Apply(w, Begin("a", 3, Saved)), true, Amended(a, Running, "executing", "", "", 3), map["a" := Executing])
  {
    hide InvBut;
  }

  lemma SecondFinishes(w: World, a: Job)
    requires Inv(w) && Stage(w, true, a, map["a" := Executing])
    ensures Enabled(w, Finish("a", Success("done"), 4, Saved))
    ensures Stage(Apply(w, Finish("a", Success("done"), 4, Saved)), true, Amended(a, Succeeded, "complete", "done", "", 4), map["a" := Finished])
  {
    hide InvBut;
  }

  lemma SecondLeaves(w: World, a: Job)
    requires Inv(w) && Stage(w, true, a, map["a" := Finished])
    ensures Enabled(w, Exit("a"))
    ensures Stage(Apply(w, Exit("a")), true, a, map[])
  {
    hide InvBut;
    assert map["a" := Finished] - {"a"} == map[];
  }

  lemma ProcessDies(w: World, a: Job)
    requires Inv(w) && Stage(w, true, a, map[])
    ensures Enabled(w, Crash({}, map[]))
    ensures Stage(Apply(w, Crash({}, map[])), false, a, map[])
  {
    hide InvBut;
    assert Apply(w, Crash({}, map[])).disk.files == w.disk.files;
  }

  lemma OrphanLoads(w: World, a: Job)
    requires Inv(w) && Stage(w, false, a, map[]) && a.state == Succeeded
    ensures Enabled(w, Recover(["a", "b"], map[], 5))
    ensures var l := Apply(w, Recover(["a", "b"], map[], 5));
      && l.up && l.mem.keys == map[a.key := "b"] && "b" in l.mem.items
      && l.mem.items["b"].hash == HashOf(FIRST)
      && "a" in l.disk.files && l.disk.files["a"] == a && l.hist.accepted == w.hist.accepted
  {
    hide InvBut;
    var b := NewJob(FIRST, "b", 1);
    var w1 := w.(mem := Memory(map["a" := a], map[a.key := "a"], None, {}));
    var b1 := Recovered(b, 5);
    var s := Save(w1, b1, Saved);
    var w2 := s.(mem := Memory(map["a" := a, "b" := b1], map[a.key := "b"], None, {}));
    hide Save;
    assert ["a", "b"][1..] == ["b"] && ["b"][1..] == [];
    SaveFrame(w1, b1, Saved);
    assert Load(w, ["a", "b"], map[], 5) == Load(w1, ["b"], map[], 5);
    assert Load(w1, ["b"], map[], 5) == Load(w2, [], map[], 5);
  }

  lemma HashesDiffer()
    ensures HashOf(FIRST) != HashOf(SECOND) && KeyOf(FIRST) == KeyOf(SECOND)
  {
    assert HashOf(FIRST)[5] == 'o' && HashOf(SECOND)[5] == 't';
  }

  /** The refused request has left its file, and the other one succeeded and was left by its
      worker. */
  lemma OrphanAndSuccess() returns (w: World, a: Job)
    ensures Reachable(w) && Inv(w) && Stage(w, true, a, map[]) && a.state == Succeeded
  {
    EmptyIsReachable();
    assert IsOrder<Id>([], {});
    w := Apply(EMPTY, Recover([], map[], 0));
    assert w == EMPTY.(up := true);
    a := NewJob(SECOND, "a", 2);
    var a4 := Amended(a, Running, "executing", "", "", 3);
    var a5 := Amended(a4, Succeeded, "complete", "done", "", 4);
    assert a5.state == Succeeded && a5.key == KeyOf(SECOND);
    ReachableStep(EMPTY, Recover([], map[], 0));
    hide Inv, Apply, Enabled, Amended, Save, Reachable;
    OrphanRefused(w);
    w := Next(w, Start(FIRST, "b", 1, [], map[], NotSynced));
    SecondAccepted(w);
    w := Next(w, Start(SECOND, "a", 2, [], map[], Saved));
    SecondBegins(w, a);
    w := Next(w, Begin("a", 3, Saved));
    SecondFinishes(w, a4);
    w := Next(w, Finish("a", Success("done"), 4, Saved));
    SecondLeaves(w, a5);
    w := Next(w, Exit("a"));
    a := a5;
  }

  /** A refused acceptance that left its file behind does shadow the job that was then
      accepted under the same key: after a restart that job succeeded, its file says so,
      and its client is told that the key belongs to a different request. */
  lemma OrphanShadowsAcceptedJob() returns (w: World)
    ensures Reachable(w) && w.up
    ensures "a" in w.disk.files && w.disk.files["a"].state == Succeeded
    ensures KeyOf(SECOND) in w.hist.accepted && w.hist.accepted[KeyOf(SECOND)].id == "a"
    ensures AnswerTo(w, Start(SECOND, "c", 6, [], map[], Saved)) == Conflict
  {
    HashesDiffer();
    hide Inv, Apply, Enabled, Reachable;
    var a5;
    w, a5 := OrphanAndSuccess();
    ProcessDies(w, a5);
    w := Next(w, Crash({}, map[]));
    OrphanLoads(w, a5);
    w := Next(w, Recover(["a", "b"], map[], 5));
  }

  lemma Next(w: World, e: Event) returns (r: World)
    requires Reachable(w) && Inv(w) && Enabled(w, e)
    ensures Inv(r) && r == Apply(w, e) && Reachable(r)
  {
    StepKeeps(w, e);
    ReachableStep(w, e);
    r := Apply(w, e);
  }
}
