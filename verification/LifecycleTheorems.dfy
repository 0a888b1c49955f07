/** Each step of the lifecycle manager keeps the invariant (`fact/lifecycle.go`). */
module LifecycleTheorems {
  import opened Wrappers
  import opened LifecycleModel

  /** What the environment cannot touch. */
  lemma OutsideFrame(w: World, e: Event)
    requires IsOutside(e)
    ensures var r := Happened(w, e);
      && r.at == w.at
      && r.server == w.server.(softModDetected := r.server.softModDetected, recovery := r.server.recovery)
      && (r.server.recovery ==> w.server.recovery)
      && r.procs == w.procs.(live := r.procs.live) && r.procs.live <= w.procs.live
      && r.tally == w.tally.(updates := r.tally.updates)
      && r.tally.updates + AsNat(w.flags.updatePending) >= w.tally.updates + AsNat(r.flags.updatePending)
  {
    hide Submitted, Push;
  }

  lemma ProcManaged(w: World, e: Event)
    requires Enabled(w, e) && !IsOutside(e) && ProcInv(w.server, w.procs, w.at)
    requires ControlInv(w.at, w.server, w.desk) && ExitInv(w.chans.exits, w.procs)
    ensures ProcInv(Managed(w, e).server, Managed(w, e).procs, Managed(w, e).at)
  {
    hide Best, Priority, Interrupts, StartupTimedOut, NeedsSoftModRestart, Extended, Enqueue, Submitted, Answered,
      AnsweredAll, Without;
  }

  lemma ProcStep(w: World, e: Event)
    requires Enabled(w, e) && ProcInv(w.server, w.procs, w.at)
    requires ControlInv(w.at, w.server, w.desk) && ExitInv(w.chans.exits, w.procs)
    ensures ProcInv(Apply(w, e).server, Apply(w, e).procs, Apply(w, e).at)
  {
    hide Enabled, Happened, Managed, ControlInv, ExitInv;
    if IsOutside(e) { OutsideFrame(w, e); } else { ProcManaged(w, e); }
  }

  lemma TokenManaged(w: World, e: Event)
    requires Enabled(w, e) && !IsOutside(e) && TokenInv(w.server, w.flags, w.tally)
    requires ProcInv(w.server, w.procs, w.at)
    ensures TokenInv(Managed(w, e).server, Managed(w, e).flags, Managed(w, e).tally)
  {
    hide Best, Priority, Interrupts, StartupTimedOut, Extended, Enqueue, Submitted, Answered,
      AnsweredAll, Without, Alive, NeedsSoftModRestart;
    RestartSpendsToken(w);
  }

  lemma RestartSpendsToken(w: World)
    ensures NeedsSoftModRestart(w) ==> w.server.recovery
  {
  }

  lemma TokenStep(w: World, e: Event)
    requires Enabled(w, e) && TokenInv(w.server, w.flags, w.tally)
    requires ProcInv(w.server, w.procs, w.at)
    ensures TokenInv(Apply(w, e).server, Apply(w, e).flags, Apply(w, e).tally)
  {
    hide Enabled, Happened, Managed, ProcInv;
    if IsOutside(e) { OutsideFrame(w, e); } else { TokenManaged(w, e); }
  }

  lemma ExitOutside(w: World, e: Event)
    requires IsOutside(e) && ExitInv(w.chans.exits, w.procs)
    ensures ExitInv(Happened(w, e).chans.exits, Happened(w, e).procs)
  {
    hide Submitted;
  }

  lemma ExitManaged(w: World, e: Event)
    requires Enabled(w, e) && !IsOutside(e) && ProcInv(w.server, w.procs, w.at) && ExitInv(w.chans.exits, w.procs)
    ensures ExitInv(Managed(w, e).chans.exits, Managed(w, e).procs)
  {
    hide Best, Priority, Interrupts, StartupTimedOut, NeedsSoftModRestart, Extended, Enqueue, Submitted, Answered,
      AnsweredAll, Without, Alive;
  }

  lemma ExitStep(w: World, e: Event)
    requires Enabled(w, e) && ProcInv(w.server, w.procs, w.at) && ExitInv(w.chans.exits, w.procs)
    ensures ExitInv(Apply(w, e).chans.exits, Apply(w, e).procs)
  {
    hide Enabled, Happened, Managed, ProcInv, ExitInv;
    if IsOutside(e) { ExitOutside(w, e); } else { ExitManaged(w, e); }
  }

  lemma EndedStays(w: World, e: Event)
    requires Enabled(w, e) && w.at.Ended? && w.desk.queue == [] && w.desk.shutdown
    ensures Apply(w, e).at.Ended? && Apply(w, e).desk == w.desk
  {
    hide Best, Extended, Enqueue, Answered, AnsweredAll, Without, Push, Alive, Finalized;
  }

  lemma QuitEnds(w: World)
    requires Enabled(w, Quit)
    ensures var q := Apply(w, Quit); q.at == Ended && q.desk.queue == [] && q.desk.shutdown
  {
    AnsweredAllQueue(w.desk.(queue := []), w.desk.queue);
    hide AnsweredAll;
  }

  lemma WorkingManaged(w: World, e: Event)
    requires Enabled(w, e) && ProcInv(w.server, w.procs, w.at) && ControlInv(w.at, w.server, w.desk)
    requires !w.at.Ended? && e != Quit && !IsOutside(e)
    ensures ControlInv(Managed(w, e).at, Managed(w, e).server, Managed(w, e).desk)
  {
    hide Best, Priority, Interrupts, StartupTimedOut, NeedsSoftModRestart, Enqueue, Submitted, Answered,
      AnsweredAll, Without, Alive;
  }

  lemma WorkingStep(w: World, e: Event)
    requires Enabled(w, e) && ProcInv(w.server, w.procs, w.at) && ControlInv(w.at, w.server, w.desk)
    requires !w.at.Ended? && e != Quit
    ensures ControlInv(Apply(w, e).at, Apply(w, e).server, Apply(w, e).desk)
  {
    hide Enabled, Happened, Managed, ProcInv;
    if IsOutside(e) { OutsideFrame(w, e); } else { WorkingManaged(w, e); }
  }

  lemma ControlStep(w: World, e: Event)
    requires Enabled(w, e) && ProcInv(w.server, w.procs, w.at) && ControlInv(w.at, w.server, w.desk)
    ensures ControlInv(Apply(w, e).at, Apply(w, e).server, Apply(w, e).desk)
  {
    hide ProcInv, Apply, Enabled;
    if w.at.Ended? {
      EndedStays(w, e);
    } else if e == Quit {
      QuitEnds(w);
    } else {
      WorkingStep(w, e);
    }
  }

  lemma {:induction false} AnsweredAllQueue(d: Desk, queue: seq<Request>)
    ensures AnsweredAll(d, queue) == d.(answered := AnsweredAll(d, queue).answered, snapshots := AnsweredAll(d, queue).snapshots)
    decreases |queue|
  {
    if queue != [] { AnsweredAllQueue(Answered(d, queue[0]), queue[1..]); }
  }

  lemma DeadlineManaged(w: World, e: Event)
    requires Enabled(w, e) && !IsOutside(e) && DeadlineInv(w.at, w.server, w.tally.observed)
    requires ProcInv(w.server, w.procs, w.at)
    ensures DeadlineInv(Managed(w, e).at, Managed(w, e).server, Managed(w, e).tally.observed)
  {
    hide Best, Priority, Interrupts, StartupTimedOut, NeedsSoftModRestart, Enqueue, Submitted, Answered,
      AnsweredAll, Without, Alive;
  }

  lemma DeadlineStep(w: World, e: Event)
    requires Enabled(w, e) && DeadlineInv(w.at, w.server, w.tally.observed)
    requires ProcInv(w.server, w.procs, w.at)
    ensures DeadlineInv(Apply(w, e).at, Apply(w, e).server, Apply(w, e).tally.observed)
  {
    hide Enabled, Happened, Managed, ProcInv;
    if IsOutside(e) { OutsideFrame(w, e); } else { DeadlineManaged(w, e); }
  }

  // ------------------------------------------------------------------ requests

  lemma HoldsEnqueued(d: Desk, at: Control, r: Request)
    ensures forall id :: Holds(d.(queue := d.queue + [r]), at, id) <==> Holds(d, at, id) || id == r.id
  {
    var n := d.(queue := d.queue + [r]);
    assert n.queue[|d.queue|] == r;
    assert forall i :: 0 <= i < |d.queue| ==> n.queue[i] == d.queue[i];
  }

  lemma HoldsQueue(d: Desk, n: Desk, at: Control)
    requires d.queue == n.queue
    ensures forall id :: Holds(d, at, id) <==> Holds(n, at, id)
  {
  }

  /** `n` is `d` with the new request `r` at the end of the queue. */
  ghost predicate Appended(d: Desk, n: Desk, at: Control, r: Request)
  {
    && |n.queue| == |d.queue| + 1 && n.queue[|d.queue|] == r
    && (forall i :: 0 <= i < |d.queue| ==> n.queue[i] == d.queue[i])
    && r.id == d.nextId && n.nextId == d.nextId + 1
    && (forall id :: Holds(n, at, id) <==> Holds(d, at, id) || id == r.id)
    && n.answered == d.answered
    && n.waiting == (if r.waits then d.waiting + {r.id} else d.waiting)
    && n.snapshots == (if r.staged then d.snapshots + {r.id} else d.snapshots)
  }

  lemma EnqueueAppends(d: Desk, at: Control, kind: Kind, whenEmpty: bool, force: bool, waits: bool)
    ensures Appended(d, Enqueue(d, kind, whenEmpty, force, waits), at,
                     Request(d.nextId, kind, whenEmpty, force, waits, kind == ChangeMap))
  {
    var r := Request(d.nextId, kind, whenEmpty, force, waits, kind == ChangeMap);
    HoldsEnqueued(d, at, r);
    HoldsQueue(d.(queue := d.queue + [r]), Enqueue(d, kind, whenEmpty, force, waits), at);
    hide Holds;
  }

  lemma NewIsNotHeld(d: Desk, at: Control)
    requires HeldInv(d, at)
    ensures !Holds(d, at, d.nextId)
  {
  }

  lemma AppendKeepsHeld(d: Desk, n: Desk, at: Control, r: Request)
    requires HeldInv(d, at) && Appended(d, n, at, r)
    ensures HeldInv(n, at)
  {
    hide Holds;
  }

  lemma AppendKeepsAnswers(d: Desk, n: Desk, at: Control, r: Request)
    requires HeldInv(d, at) && AnswerInv(d, at) && Appended(d, n, at, r)
    ensures AnswerInv(n, at)
  {
    hide Holds;
    forall id
      ensures n.answered[id] == if id in n.waiting && !Holds(n, at, id) then 1 else 0
    {
      assert d.answered[id] == if id in d.waiting && !Holds(d, at, id) then 1 else 0;
    }
  }

  lemma AppendKeepsSnapshots(d: Desk, n: Desk, at: Control, r: Request)
    requires HeldInv(d, at) && SnapshotInv(d, at) && Appended(d, n, at, r)
    ensures SnapshotInv(n, at)
  {
    NewIsNotHeld(d, at);
    hide Holds;
  }

  lemma EnqueueKeeps(d: Desk, at: Control, kind: Kind, whenEmpty: bool, force: bool, waits: bool)
    requires DeskInv(d, at)
    ensures DeskInv(Enqueue(d, kind, whenEmpty, force, waits), at)
  {
    hide Enqueue, Appended, HeldInv, AnswerInv, SnapshotInv;
    var r := Request(d.nextId, kind, whenEmpty, force, waits, kind == ChangeMap);
    var n := Enqueue(d, kind, whenEmpty, force, waits);
    EnqueueAppends(d, at, kind, whenEmpty, force, waits);
    AppendKeepsHeld(d, n, at, r);
    AppendKeepsAnswers(d, n, at, r);
    AppendKeepsSnapshots(d, n, at, r);
  }

  /** Taking a request out of the queue to execute it. */
  lemma TakeKeeps(d: Desk, i: nat)
    requires DeskInv(d, Loop) && i < |d.queue|
    ensures DeskInv(d.(queue := Without(d.queue, i)), Dispatching(d.queue[i]))
  {
    var n := d.(queue := Without(d.queue, i));
    var at := Dispatching(d.queue[i]);
    assert forall j :: 0 <= j < i ==> n.queue[j] == d.queue[j];
    assert forall j :: i <= j < |n.queue| ==> n.queue[j] == d.queue[j + 1];
    forall id
      ensures Holds(n, at, id) <==> Holds(d, Loop, id)
    {
      if Holds(d, Loop, id) {
        var j :| 0 <= j < |d.queue| && d.queue[j].id == id;
        if j < i { assert n.queue[j].id == id; } else if j > i { assert n.queue[j - 1].id == id; }
      }
    }
  }

  /** Moving on with the same request in hand. */
  lemma CarryKeeps(d: Desk, at: Control, next: Control)
    requires DeskInv(d, at) && Executing(next) == Executing(at)
    ensures DeskInv(d, next)
  {
    assert forall id :: Holds(d, at, id) <==> Holds(d, next, id);
  }

  lemma StageKeeps(d: Desk, r: Request)
    requires DeskInv(d, Dispatching(r))
    ensures DeskInv(d.(snapshots := d.snapshots + {r.id}), StopNext(r.(staged := true)))
  {
    var n, at, next := d.(snapshots := d.snapshots + {r.id}), Dispatching(r), StopNext(r.(staged := true));
    assert forall id :: Holds(d, at, id) <==> Holds(n, next, id);
  }

  /** Answering the request in hand. */
  lemma AnswerKeeps(d: Desk, at: Control)
    requires DeskInv(d, at) && Executing(at).Some?
    ensures DeskInv(Answered(d, Executing(at).value), Loop)
  {
    var r := Executing(at).value;
    var n := Answered(d, r);
    assert Holds(d, at, r.id);
    assert forall id :: id != r.id ==> (Holds(d, at, id) <==> Holds(n, Loop, id));
    assert !Holds(n, Loop, r.id);
  }

  /** An automatic start is a request nobody waits for. */
  lemma AutoKeeps(d: Desk)
    requires DeskInv(d, Loop)
    ensures DeskInv(d.(nextId := d.nextId + 1), Dispatching(Request(d.nextId, Start, false, false, false, false)))
  {
    var n := d.(nextId := d.nextId + 1);
    var at := Dispatching(Request(d.nextId, Start, false, false, false, false));
    assert forall id :: id != d.nextId ==> (Holds(d, Loop, id) <==> Holds(n, at, id));
    assert !Holds(d, Loop, d.nextId);
  }

  lemma FirstKeeps(d: Desk)
    requires DeskInv(d, Loop) && d.queue != []
    ensures DeskInv(Answered(d.(queue := d.queue[1..]), d.queue[0]), Loop)
  {
    TakeKeeps(d, 0);
    var n := d.(queue := Without(d.queue, 0));
    assert Without(d.queue, 0) == d.queue[1..];
    AnswerKeeps(n, Dispatching(d.queue[0]));
  }

  /** Shutdown answers every request that is still queued. */
  lemma {:induction false} CancelKeeps(d: Desk)
    requires DeskInv(d, Loop)
    ensures DeskInv(AnsweredAll(d.(queue := []), d.queue), Ended)
    decreases |d.queue|
  {
    hide DeskInv;
    if d.queue == [] {
      assert d.(queue := []) == d;
      CarryKeeps(d, Loop, Ended);
    } else {
      FirstKeeps(d);
      var n := Answered(d.(queue := d.queue[1..]), d.queue[0]);
      assert n.(queue := []) == Answered(d.(queue := []), d.queue[0]);
      CancelKeeps(n);
    }
  }

  lemma SubmitKeeps(d: Desk, at: Control, kind: Kind, whenEmpty: bool, force: bool, waits: bool, stages: bool)
    requires DeskInv(d, at)
    ensures DeskInv(Submitted(d, kind, whenEmpty, force, waits, stages), at)
  {
    hide DeskInv, Enqueue;
    EnqueueKeeps(d, at, kind, whenEmpty, force, waits);
  }

  lemma ShutdownKeeps(d: Desk, at: Control)
    requires DeskInv(d, at)
    ensures DeskInv(d.(shutdown := true), at)
  {
    assert forall id :: Holds(d, at, id) <==> Holds(d.(shutdown := true), at, id);
  }

  lemma PickKeeps(w: World)
    requires Enabled(w, Pick) && DeskInv(w.desk, w.at)
    ensures DeskInv(Apply(w, Pick).desk, Apply(w, Pick).at)
  {
    hide DeskInv;
    ScanInRange(w.desk.queue, 0, None, w.server, w.flags);
    TakeKeeps(w.desk, Best(w.desk.queue, w.server, w.flags).value);
  }

  lemma DispatchKeeps(w: World, stages: bool)
    requires w.at.Dispatching? && DeskInv(w.desk, w.at)
    ensures DeskInv(ApplyDispatch(w, stages).desk, ApplyDispatch(w, stages).at)
  {
    hide DeskInv;
    StageKeeps(w.desk, w.at.req);
    var n := ApplyDispatch(w, stages);
    if n.desk == w.desk && Executing(n.at) == Executing(w.at) { CarryKeeps(w.desk, w.at, n.at); }
    if w.at.req.kind == ChangeMap && w.at.req.staged && n.desk == w.desk { CarryKeeps(w.desk, w.at, n.at); }
  }

  lemma CarryStep(w: World, e: Event)
    requires Enabled(w, e) && DeskInv(w.desk, w.at)
    requires Apply(w, e).desk == w.desk && Executing(Apply(w, e).at) == Executing(w.at)
    ensures DeskInv(Apply(w, e).desk, Apply(w, e).at)
  {
    hide Apply, DeskInv;
    CarryKeeps(w.desk, w.at, Apply(w, e).at);
  }

  predicate TouchesDesk(e: Event)
  {
    e.Submit? || e.Shutdown? || e.ReceiveHealth? || e.CheckStartup? || e.CheckSoftMod? || e.Pick? || e.AutoStart?
    || e.Quit? || e.Dispatch? || e.Finish?
  }

  lemma OthersCarry(w: World, e: Event)
    requires Enabled(w, e) && !TouchesDesk(e)
    ensures Apply(w, e).desk == w.desk && Executing(Apply(w, e).at) == Executing(w.at)
  {
    hide Best, Priority, Interrupts, StartupTimedOut, NeedsSoftModRestart, Extended, Push, Alive;
  }

  lemma HealthKeepsDesk(w: World)
    requires Enabled(w, ReceiveHealth) && DeskInv(w.desk, w.at)
    ensures DeskInv(Apply(w, ReceiveHealth).desk, Apply(w, ReceiveHealth).at)
  {
    hide DeskInv, Enqueue, Alive;
    EnqueueKeeps(w.desk, w.at, RestartFactorio, false, false, false);
  }

  lemma DeskStep(w: World, e: Event)
    requires Enabled(w, e) && DeskInv(w.desk, w.at)
    ensures DeskInv(Apply(w, e).desk, Apply(w, e).at)
  {
    hide DeskInv, Enqueue, Answered, AnsweredAll, Best, StartupTimedOut, NeedsSoftModRestart;
    if !TouchesDesk(e) {
      OthersCarry(w, e);
      CarryStep(w, e);
    } else {
      match e {
        case Submit(kind, whenEmpty, force, waits, stages) => SubmitKeeps(w.desk, w.at, kind, whenEmpty, force, waits, stages);
        case Shutdown => ShutdownKeeps(w.desk, w.at);
        case ReceiveHealth => HealthKeepsDesk(w);
        case CheckStartup => SubmitKeeps(w.desk, w.at, RestartFactorio, false, false, false, true);
        case CheckSoftMod => EnqueueKeeps(w.desk, w.at, RestartFactorio, false, false, false);
        case Pick => PickKeeps(w);
        case AutoStart(_) =>
          CarryKeeps(w.desk, w.at, Loop);
          AutoKeeps(w.desk);
        case Quit => CancelKeeps(w.desk);
        case Dispatch(stages) => DispatchKeeps(w, stages);
        case Finish => AnswerKeeps(w.desk, w.at);
      }
    }
  }

  /** Every event keeps the invariant. */
  lemma StepKeeps(w: World, e: Event)
    requires Inv(w) && Enabled(w, e)
    ensures Inv(Apply(w, e))
  {
    hide Apply, Enabled, ProcInv, ExitInv, ControlInv, DeadlineInv, DeskInv, TokenInv;
    ProcStep(w, e);
    ExitStep(w, e);
    ControlStep(w, e);
    DeadlineStep(w, e);
    DeskStep(w, e);
    TokenStep(w, e);
  }
}
