/** Theorems over whole runs of the lifecycle manager, whatever the environment does
    between its steps (`fact/lifecycle.go`). */
module LifecycleRuns {
  import opened Wrappers
  import opened LifecycleModel
  import opened LifecycleTheorems

  predicate Possible(w: World, es: seq<Event>)
    decreases |es|
  {
    es == [] || (Enabled(w, es[0]) && Possible(Apply(w, es[0]), es[1..]))
  }

  function Run(w: World, es: seq<Event>): World
    requires Possible(w, es)
    decreases |es|
  {
    if es == [] then w else Run(Apply(w, es[0]), es[1..])
  }

  /** Some run leads to `w` from a manager that has just started. */
  ghost predicate Reachable(w: World)
  {
    exists es :: Possible(INITIAL, es) && Run(INITIAL, es) == w
  }

  lemma {:induction false} RunKeeps(w: World, es: seq<Event>)
    requires Inv(w) && Possible(w, es)
    ensures Inv(Run(w, es))
    decreases |es|
  {
    hide Inv, Apply, Enabled;
    if es != [] {
      StepKeeps(w, es[0]);
      RunKeeps(Apply(w, es[0]), es[1..]);
    }
  }

  lemma InitialIsSound()
    ensures Inv(INITIAL)
  {
  }

  lemma ReachableIsSound(w: World)
    requires Reachable(w)
    ensures Inv(w)
  {
    InitialIsSound();
    hide Inv, Run, Possible;
    var es :| Possible(INITIAL, es) && Run(INITIAL, es) == w;
    RunKeeps(INITIAL, es);
  }

  // ----------------------------------------------------------------- one server

  /** At most one server process is alive, it is the current generation, and a stopped
      phase means that none is. */
  lemma AtMostOneServer(w: World)
    requires Reachable(w)
    ensures |w.procs.live| <= 1 && w.procs.live <= {w.server.generation}
    ensures w.server.phase == Stopped ==> w.procs.live == {}
  {
    ReachableIsSound(w);
    hide ExitInv, ControlInv, DeadlineInv, DeskInv, TokenInv;
    assert w.procs.live == {} || w.procs.live == {w.server.generation};
  }

  /** The launcher is called only when no server is alive, and nothing else makes one. */
  lemma LaunchFindsNoServer(w: World, e: Event)
    requires Reachable(w) && Enabled(w, e)
    ensures e.Launch? ==> w.procs.live == {} && w.server.generation !in w.procs.launched
    ensures !(Apply(w, e).procs.live <= w.procs.live) ==> e == Launch(true)
  {
    ReachableIsSound(w);
    LaunchAlone(w, e);
    hide ExitInv, ControlInv, DeadlineInv, DeskInv, TokenInv, Apply;
  }

  lemma LaunchAlone(w: World, e: Event)
    requires Enabled(w, e)
    ensures !(Apply(w, e).procs.live <= w.procs.live) ==> e == Launch(true)
  {
    hide Best, Priority, Interrupts, StartupTimedOut, NeedsSoftModRestart, Extended, Enqueue, Submitted, Answered,
      AnsweredAll, Without, Happened, Alive;
    if IsOutside(e) { OutsideFrame(w, e); }
  }

  /** The stopping phase is left only for the stopped one, once the process is dead. */
  lemma StoppingEndsInObservedExit(w: World, e: Event)
    requires Reachable(w) && Enabled(w, e)
    requires w.server.phase == Stopping && Apply(w, e).server.phase != Stopping
    ensures Apply(w, e).server.phase == Stopped
    ensures w.server.generation !in w.procs.live && w.procs.live == {}
  {
    ReachableIsSound(w);
    PhaseAfterStopping(w, e);
    if w.chans.exits != [] { ExitIsReal(w); }
    hide ExitInv, DeadlineInv, DeskInv, TokenInv, Apply, Enabled, ControlInv;
  }

  lemma ExitIsReal(w: World)
    requires Inv(w) && w.chans.exits != []
    ensures w.chans.exits[0] !in w.procs.live
  {
    hide ProcInv, ControlInv, DeadlineInv, DeskInv, TokenInv;
  }

  lemma PhaseAfterStopping(w: World, e: Event)
    requires Inv(w) && Enabled(w, e)
    requires w.server.phase == Stopping && Apply(w, e).server.phase != Stopping
    ensures Apply(w, e).server.phase == Stopped
    ensures !Alive(w.procs) || (w.chans.exits != [] && w.chans.exits[0] == w.server.generation)
  {
    hide DeadlineInv, DeskInv, TokenInv, Best, Priority, Interrupts, StartupTimedOut, NeedsSoftModRestart, Extended,
      Enqueue, Submitted, Answered, AnsweredAll, Without, Happened, Alive, ExitInv;
    if IsOutside(e) { OutsideFrame(w, e); }
  }

  /** The generation of the notification an event delivers. */
  function About(w: World, e: Event): Option<Generation>
    requires Enabled(w, e)
  {
    match e
    case ReceiveReady => Some(w.chans.ready[0])
    case ReceiveGoodbye => Some(w.chans.goodbye[0])
    case ReceiveExit => Some(w.chans.exits[0])
    case ReceiveProgress => Some(w.chans.progress[0].generation)
    case ReceiveHealth => Some(w.chans.health[0])
    case _ => None
  }

  /** A notification from another generation changes nothing but its channel. */
  lemma StaleNotificationsAreIgnored(w: World, e: Event)
    requires Enabled(w, e) && About(w, e).Some? && About(w, e).value != w.server.generation
    ensures Apply(w, e) == w.(chans := Apply(w, e).chans)
  {
  }

  /** Phase and readiness change only by the manager's own steps and by notifications of
      the current generation. */
  lemma PhaseChangesHaveCause(w: World, e: Event)
    requires Enabled(w, e)
    requires Apply(w, e).server.phase != w.server.phase || Apply(w, e).server.booted != w.server.booted
    ensures About(w, e) == Some(w.server.generation)
         || e.Reconcile? || e.Look? || e.BeginStop? || e.BeginStart? || e.Launch?
  {
    hide Best, Priority, Interrupts, StartupTimedOut, NeedsSoftModRestart, Extended, Enqueue, Submitted, Answered,
      AnsweredAll, Without, Happened, Alive;
    if IsOutside(e) { OutsideFrame(w, e); }
  }

  // ------------------------------------------------------------------- requests

  /** Every accepted request that waits is answered exactly once, and only when the manager
      no longer holds it; once the manager has ended, that is all of them. */
  lemma AnsweredExactlyOnce(w: World, id: RequestId)
    requires Reachable(w)
    ensures w.desk.answered[id] <= 1
    ensures id in w.desk.waiting ==> (w.desk.answered[id] == 1 <==> !Holds(w.desk, w.at, id))
    ensures id !in w.desk.waiting ==> w.desk.answered[id] == 0
    ensures w.at.Ended? ==> w.desk.queue == [] && (id in w.desk.waiting ==> w.desk.answered[id] == 1)
  {
    ReachableIsSound(w);
    hide ProcInv, ExitInv, DeadlineInv, TokenInv, HeldInv, SnapshotInv;
  }

  /** Once the manager has ended it accepts nothing and changes no answer. */
  lemma {:induction false} EndIsFinal(w: World, es: seq<Event>)
    requires Inv(w) && w.at.Ended? && Possible(w, es)
    ensures Run(w, es).at.Ended? && Run(w, es).desk == w.desk
    decreases |es|
  {
    hide Apply, Enabled, ProcInv, ExitInv, DeadlineInv, DeskInv, TokenInv;
    if es != [] {
      StepKeeps(w, es[0]);
      EndedStays(w, es[0]);
      EndIsFinal(Apply(w, es[0]), es[1..]);
    }
  }

  /** A request the manager holds has a staged map file exactly when it says so, and there is
      no staged file of any other. */
  lemma NoSnapshotIsLeftBehind(w: World)
    requires Reachable(w)
    ensures forall id :: id in w.desk.snapshots ==> Holds(w.desk, w.at, id)
    ensures forall i :: 0 <= i < |w.desk.queue| ==> (w.desk.queue[i].staged <==> w.desk.queue[i].id in w.desk.snapshots)
    ensures Executing(w.at).Some? ==>
      (Executing(w.at).value.staged <==> Executing(w.at).value.id in w.desk.snapshots)
    ensures w.at.Ended? ==> w.desk.snapshots == {}
  {
    ReachableIsSound(w);
    hide ProcInv, ExitInv, DeadlineInv, TokenInv, HeldInv, AnswerInv;
  }

  /** A pick takes a runnable request of highest priority, the earliest among equals, and
      leaves the others in order. */
  lemma PickTakesBest(w: World)
    requires Enabled(w, Pick)
    ensures var i := Best(w.desk.queue, w.server, w.flags).value;
      && i < |w.desk.queue| && Runnable(w.desk.queue[i], w.server, w.flags)
      && (forall j :: 0 <= j < |w.desk.queue| && Runnable(w.desk.queue[j], w.server, w.flags) ==>
            Priority(w.desk.queue[j].kind) <= Priority(w.desk.queue[i].kind))
      && (forall j :: 0 <= j < i && Runnable(w.desk.queue[j], w.server, w.flags) ==>
            Priority(w.desk.queue[j].kind) < Priority(w.desk.queue[i].kind))
      && Apply(w, Pick).at == Dispatching(w.desk.queue[i])
      && Apply(w, Pick).desk.queue == w.desk.queue[..i] + w.desk.queue[i + 1..]
  {
    ScanInRange(w.desk.queue, 0, None, w.server, w.flags);
    hide Scan, Runnable, Priority;
  }

  /** The automatic start is considered only after a scan found no runnable request, and it
      starts a server only where none is alive. */
  lemma AutoStartComesLast(w: World, e: Event)
    requires Reachable(w) && Enabled(w, e)
    ensures Apply(w, e).at.Idle? && !w.at.Idle? ==>
      e.FindNone? && forall j :: 0 <= j < |w.desk.queue| ==> !Runnable(w.desk.queue[j], w.server, w.flags)
    ensures e.AutoStart? && Apply(w, e).at.Dispatching? ==> w.procs.live == {} && w.flags.autostart
  {
    ReachableIsSound(w);
    if Apply(w, e).at.Idle? && !w.at.Idle? { IdleHasCause(w, e); }
    ScanInRange(w.desk.queue, 0, None, w.server, w.flags);
    hide Scan, Runnable, Priority, ExitInv, ControlInv, DeadlineInv, DeskInv, TokenInv;
    if !e.FindNone? && !e.AutoStart? { hide Apply, Enabled; }
  }

  lemma IdleHasCause(w: World, e: Event)
    requires Enabled(w, e) && Apply(w, e).at.Idle? && !w.at.Idle?
    ensures e.FindNone?
  {
    hide Best, Priority, Interrupts, StartupTimedOut, NeedsSoftModRestart, Extended, Enqueue, Submitted, Answered,
      AnsweredAll, Without, Happened, Alive;
    if IsOutside(e) { OutsideFrame(w, e); }
  }

  // ----------------------------------------------------------------------- stop

  /** A stop succeeds exactly when the phase is stopped, and otherwise leaves it stopping. */
  lemma StopSucceedsIffStopped(w: World)
    requires Reachable(w) && w.at.StopDone?
    ensures w.at.ok <==> w.server.phase == Stopped
    ensures !w.at.ok ==> w.server.phase == Stopping
  {
    ReachableIsSound(w);
    hide ProcInv, ExitInv, DeadlineInv, DeskInv, TokenInv;
  }

  /** What runs between a stop and a start, preparing a map or leaving the process, runs
      with no server alive; and a restart launches only after its stop succeeded. */
  lemma FollowUpsRunWithoutServer(w: World)
    requires Reachable(w)
    ensures w.at.Following? ==> w.server.phase == Stopped && w.procs.live == {}
    ensures w.at.StartNext? && w.at.req.kind != Start ==> w.server.phase == Stopped && w.procs.live == {}
  {
    ReachableIsSound(w);
    hide ExitInv, DeadlineInv, DeskInv, TokenInv;
  }

  /** How long progress of some kind keeps a stop waiting. */
  function Allowance(kind: string): int
  {
    if kind == "save" then STOP_SAVE else if ExtendsStop(kind) then STOP_IDLE else 0
  }

  /** A stage gives up only after its own timeout and after the allowance of the last
      progress observed from this generation. */
  lemma StageGivesUpOnlyWhenLate(w: World)
    requires Reachable(w) && w.at.Judging? && !Apply(w, Judge).at.Waiting?
    ensures w.clock > w.at.since + StageTimeout(w.at.stage)
    ensures w.server.progressAt.Some? && ExtendsStop(w.server.progressKind) ==>
      w.clock > w.server.progressAt.value + Allowance(w.server.progressKind)
    ensures Apply(w, Judge).at
         == if w.at.stage < 2 then StageNext(w.at.req, w.at.stage + 1) else StopDone(w.at.req, false)
  {
    ReachableIsSound(w);
    hide ProcInv, ExitInv, DeadlineInv, DeskInv, TokenInv;
  }

  predicate InStage(c: Control) { c.Waiting? || c.Judging? }

  /** While a stage lasts, its deadline never moves back. */
  lemma DeadlinesNeverMoveBack(w: World, e: Event)
    requires Enabled(w, e) && InStage(w.at) && InStage(Apply(w, e).at)
    ensures Apply(w, e).at.stage == w.at.stage && Apply(w, e).at.since == w.at.since
    ensures Apply(w, e).at.deadline >= w.at.deadline
    ensures Apply(w, e).at.deadline != w.at.deadline ==> e == Look
  {
    hide Best, Priority, Interrupts, StartupTimedOut, NeedsSoftModRestart, Enqueue, Submitted, Answered,
      AnsweredAll, Without, Happened, Alive;
    if IsOutside(e) { OutsideFrame(w, e); }
  }

  /** A deadline is the stage's own timeout, or the allowance of progress that was observed
      from the current generation: output of another one never extends it. */
  lemma OnlyOwnProgressExtends(w: World)
    requires Reachable(w) && InStage(w.at)
    ensures w.at.deadline >= w.at.since + StageTimeout(w.at.stage)
    ensures || w.at.deadline == w.at.since + StageTimeout(w.at.stage)
            || exists p :: p in w.tally.observed && p.generation == w.server.generation && ExtendsStop(p.kind)
                           && w.at.deadline == p.at + Allowance(p.kind)
  {
    ReachableIsSound(w);
    hide ProcInv, ExitInv, DeskInv, TokenInv;
  }

  /** Progress is observed only from the generation that is current then. */
  lemma ObservedIsCurrent(w: World, e: Event)
    requires Enabled(w, e)
    ensures forall p :: p in Apply(w, e).tally.observed && p !in w.tally.observed ==>
      p.generation == w.server.generation && Apply(w, e).server.generation == w.server.generation
  {
    hide Best, Priority, Interrupts, StartupTimedOut, NeedsSoftModRestart, Extended, Enqueue, Submitted, Answered,
      AnsweredAll, Without, Happened, Alive;
    if IsOutside(e) { OutsideFrame(w, e); }
  }

  // ------------------------------------------------------------ SoftMod recovery

  /** Recovery restarts queued, plus the armed and the pending flag, never exceed the
      updates that were marked: one update restarts the server at most once, however many
      boots fail or are interrupted. */
  lemma RecoveriesAreBoundedByUpdates(w: World)
    requires Reachable(w)
    ensures w.tally.recoveries + AsNat(w.server.recovery) + AsNat(w.flags.updatePending) <= w.tally.updates
  {
    ReachableIsSound(w);
    hide ProcInv, ExitInv, ControlInv, DeadlineInv, DeskInv;
  }

  lemma {:induction false} PrefixPossible(w: World, es: seq<Event>, n: nat)
    requires Possible(w, es) && n <= |es|
    ensures Possible(w, es[..n])
    decreases n
  {
    hide Apply, Enabled;
    if n > 0 {
      PrefixPossible(Apply(w, es[0]), es[1..], n - 1);
      assert es[..n][0] == es[0] && es[..n][1..] == es[1..][..n - 1];
    }
  }

  /** The world after the first `n` events of a run from the start. */
  function After(es: seq<Event>, n: nat): World
    requires Possible(INITIAL, es) && n <= |es|
  {
    PrefixPossible(INITIAL, es, n);
    Run(INITIAL, es[..n])
  }

  lemma {:induction false} RunEndsWith(w: World, es: seq<Event>)
    requires Possible(w, es) && es != []
    ensures Possible(w, es[..|es| - 1]) && Enabled(Run(w, es[..|es| - 1]), es[|es| - 1])
    ensures Run(w, es) == Apply(Run(w, es[..|es| - 1]), es[|es| - 1])
    decreases |es|
  {
    hide Apply, Enabled;
    var n := |es| - 1;
    PrefixPossible(w, es, n);
    if n == 0 {
      assert es[1..] == [] && es[..0] == [];
    } else {
      assert es[..n][0] == es[0] && es[..n][1..] == es[1..][..n - 1];
      RunEndsWith(Apply(w, es[0]), es[1..]);
    }
  }

  /** A step keeps the generation or starts the next one; while it keeps it, an answer of the
      SoftMod is not forgotten. */
  predicate AnswerMoves(w: World, e: Event, v: World)
  {
    && (v.server.generation == w.server.generation
        || (e.BeginStart? && v.server.generation == w.server.generation + 1))
    && (v.server.generation == w.server.generation && !v.server.softModDetected ==>
          !w.server.softModDetected && (w.server.generation != 0 ==> e != NotifySoftMod(w.server.generation)))
  }

  /** A recovery is armed when a launch is completed while an update is pending, and an update
      is pending because it was marked, or because the recovery was not used. */
  predicate TokenMoves(w: World, e: Event, v: World)
  {
    && (v.server.recovery ==>
          v.server.generation == w.server.generation && (w.server.recovery || (e.Settle? && w.flags.updatePending)))
    && (v.flags.updatePending ==> w.flags.updatePending || e.MarkUpdated? || w.server.recovery)
  }

  lemma OutsideMoves(w: World, e: Event)
    requires IsOutside(e)
    ensures AnswerMoves(w, e, Happened(w, e)) && TokenMoves(w, e, Happened(w, e))
  {
    hide Submitted, Push;
  }

  lemma ManagedAnswerMoves(w: World, e: Event)
    requires Enabled(w, e) && !IsOutside(e)
    ensures AnswerMoves(w, e, Managed(w, e))
  {
    hide Best, Priority, Interrupts, StartupTimedOut, NeedsSoftModRestart, Extended, Enqueue, Submitted, Answered,
      AnsweredAll, Without, Alive;
  }

  lemma ManagedTokenMoves(w: World, e: Event)
    requires Enabled(w, e) && !IsOutside(e)
    ensures TokenMoves(w, e, Managed(w, e))
  {
    hide Best, Priority, Interrupts, StartupTimedOut, NeedsSoftModRestart, Extended, Enqueue, Submitted, Answered,
      AnsweredAll, Without, Alive;
  }

  /** What one step does to the flags of the recovery. */
  lemma RecoveryMoves(w: World, e: Event)
    requires Enabled(w, e)
    ensures AnswerMoves(w, e, Apply(w, e)) && TokenMoves(w, e, Apply(w, e))
  {
    hide AnswerMoves, TokenMoves, Happened, Managed, Enabled;
    if IsOutside(e) {
      OutsideMoves(w, e);
    } else {
      ManagedAnswerMoves(w, e);
      ManagedTokenMoves(w, e);
    }
  }

  /** The event `b` of the run began to start generation `g`, and from then on no answer of
      that generation's SoftMod was delivered. */
  ghost predicate SilentSince(es: seq<Event>, b: nat, g: Generation)
    requires Possible(INITIAL, es)
  {
    && b < |es| && es[b].BeginStart? && After(es, b).server.generation < g == After(es, b + 1).server.generation
    && forall j :: b < j < |es| ==> es[j] != NotifySoftMod(g)
  }

  /** The event `s` completed a launch of generation `g`, and `m` marked an update before. */
  ghost predicate ArmedBy(es: seq<Event>, m: nat, s: nat, g: Generation)
    requires Possible(INITIAL, es)
  {
    m < s < |es| && es[m] == MarkUpdated && es[s] == Settle && After(es, s).server.generation == g
  }

  ghost predicate UpdateMarked(es: seq<Event>)
  {
    exists m :: 0 <= m < |es| && es[m] == MarkUpdated
  }

  /** The flags of the recovery tell what happened. */
  ghost predicate SilenceTold(es: seq<Event>, w: World)
    requires Possible(INITIAL, es)
  {
    w.server.generation != 0 && !w.server.softModDetected ==> exists b :: SilentSince(es, b, w.server.generation)
  }

  ghost predicate TokenTold(es: seq<Event>, w: World)
    requires Possible(INITIAL, es)
  {
    && (w.server.recovery ==> exists m, s :: ArmedBy(es, m, s, w.server.generation))
    && (w.flags.updatePending || w.server.recovery ==> UpdateMarked(es))
  }

  lemma PrefixWorlds(es: seq<Event>)
    requires Possible(INITIAL, es) && es != []
    ensures Possible(INITIAL, es[..|es| - 1])
    ensures forall j :: 0 <= j < |es| ==> After(es[..|es| - 1], j) == After(es, j)
    ensures After(es, |es|) == Run(INITIAL, es) && After(es, |es| - 1) == Run(INITIAL, es[..|es| - 1])
  {
    hide Possible, Run;
    PrefixPossible(INITIAL, es, |es| - 1);
    assert es[..|es|] == es;
    assert forall j :: 0 <= j < |es| ==> es[..|es| - 1][..j] == es[..j];
  }

  /** One more event, `e`, leads from `w` to `v`. */
  ghost predicate Extends(before: seq<Event>, es: seq<Event>, w: World, e: Event, v: World)
  {
    && es == before + [e] && Possible(INITIAL, es) && Possible(INITIAL, before)
    && w == After(es, |before|) && v == After(es, |es|)
    && forall j :: 0 <= j <= |before| ==> After(before, j) == After(es, j)
  }

  lemma SilenceStep(before: seq<Event>, es: seq<Event>, w: World, e: Event, v: World)
    requires Extends(before, es, w, e, v) && SilenceTold(before, w) && AnswerMoves(w, e, v)
    ensures SilenceTold(es, v)
  {
    hide Possible, After;
    if v.server.generation != 0 && !v.server.softModDetected {
      if v.server.generation == w.server.generation {
        var b :| SilentSince(before, b, w.server.generation);
        assert SilentSince(es, b, v.server.generation);
      } else {
        assert SilentSince(es, |before|, v.server.generation);
      }
    }
  }

  lemma TokenStepTold(before: seq<Event>, es: seq<Event>, w: World, e: Event, v: World)
    requires Extends(before, es, w, e, v) && TokenTold(before, w) && TokenMoves(w, e, v)
    ensures TokenTold(es, v)
  {
    hide Possible, After;
    MarkedEarlier(before, es);
    if v.server.recovery {
      if w.server.recovery {
        var m, s :| ArmedBy(before, m, s, w.server.generation);
        assert ArmedBy(es, m, s, v.server.generation);
      } else {
        var m :| 0 <= m < |before| && before[m] == MarkUpdated;
        assert ArmedBy(es, m, |before|, v.server.generation);
      }
    }
    if e.MarkUpdated? { assert es[|before|] == MarkUpdated; }
  }

  lemma {:induction false} HistoryTold(es: seq<Event>)
    requires Possible(INITIAL, es)
    ensures SilenceTold(es, Run(INITIAL, es)) && TokenTold(es, Run(INITIAL, es))
    decreases |es|
  {
    if es != [] {
      hide Possible, Run, Apply, Enabled, After, AnswerMoves, TokenMoves, SilenceTold, TokenTold;
      var before := es[..|es| - 1];
      var e := es[|es| - 1];
      PrefixWorlds(es);
      RunEndsWith(INITIAL, es);
      HistoryTold(before);
      var w, v := Run(INITIAL, before), Run(INITIAL, es);
      RecoveryMoves(w, e);
      assert Extends(before, es, w, e, v);
      SilenceStep(before, es, w, e, v);
      TokenStepTold(before, es, w, e, v);
    }
  }

  lemma MarkedEarlier(before: seq<Event>, es: seq<Event>)
    requires before <= es
    ensures UpdateMarked(before) ==> UpdateMarked(es)
  {
    if UpdateMarked(before) {
      var m :| 0 <= m < |before| && before[m] == MarkUpdated;
      assert es[m] == MarkUpdated;
    }
  }

  /** A recovery restart is queued only for a server whose SoftMod has not answered since its
      start began, and only when an update was marked before that launch was completed. */
  lemma RecoveryIsLastResort(es: seq<Event>)
    requires Possible(INITIAL, es) && Enabled(Run(INITIAL, es), CheckSoftMod)
    requires Apply(Run(INITIAL, es), CheckSoftMod).tally.recoveries > Run(INITIAL, es).tally.recoveries
    ensures exists b :: SilentSince(es, b, Run(INITIAL, es).server.generation)
    ensures exists m, s :: ArmedBy(es, m, s, Run(INITIAL, es).server.generation)
  {
    HistoryTold(es);
    InitialIsSound();
    RunKeeps(INITIAL, es);
    RestartNeedsServer(Run(INITIAL, es));
    hide Possible, Run, Apply, Inv, SilentSince, ArmedBy, UpdateMarked, Enabled;
  }

  lemma RestartNeedsServer(w: World)
    requires Inv(w) && Enabled(w, CheckSoftMod) && Apply(w, CheckSoftMod).tally.recoveries > w.tally.recoveries
    ensures w.server.recovery && !w.server.softModDetected && w.server.generation != 0
  {
    hide Enqueue, ExitInv, ControlInv, DeadlineInv, DeskInv, TokenInv, Interrupts;
  }
}
