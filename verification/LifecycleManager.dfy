/** The lifecycle manager in the form the program has: an object whose methods change its
    fields section by section, loops that pick a request and wait for a stop, and the
    composition of those sections in `executeStop`, `executeStart`, `execute` and `run`.

    What other goroutines, the process and the clock do between two sections comes in as
    scripts of environment events, so a method's contract covers every interleaving. The
    ghost field `past` records what happened, and every contract says that it is a possible
    run of the state machine in LifecycleModel from a fresh manager to the present one, so
    every theorem of LifecycleRuns holds of the object. */
module LifecycleManager {
  import opened Wrappers
  import opened LifecycleModel
  import opened LifecycleTheorems
  import opened LifecycleRuns

  type Outside = e: Event | IsOutside(e) witness Tick(0)

  datatype Choice = TakeExit | TakeGoodbye | TakeReady | TakeProgress | TakeHealth | TakeNothing

  /** What happens during one turn of a loop, and which notification the manager takes. */
  datatype Turn = Turn(before: seq<Outside>, between: seq<Outside>, after: seq<Outside>, choice: Choice)

  datatype Outcome = Finished(ok: bool) | StillWaiting

  /** What surrounds the manager's steps while it stops the server. */
  datatype StopScript = StopScript(
    asked: seq<Outside>, quit: seq<Turn>, interrupting: seq<Outside>, interrupted: seq<Turn>,
    killing: seq<Outside>, killed: seq<Turn>)

  /** What surrounds a launch, whether play hours allow one, and whether it succeeds. */
  datatype StartScript = StartScript(
    within: bool, launching: seq<Outside>, launches: bool, launched: seq<Outside>)

  /** What surrounds one request: whether a map change can be staged, and whether the work
      between its stop and its start succeeds. */
  datatype Script = Script(
    stages: bool, staged: seq<Outside>, stop: StopScript, stopped: seq<Outside>,
    prepares: bool, prepared: seq<Outside>, start: StartScript, closing: seq<Outside>)

  /** One turn of `run`: the notifications it drains, and the request it then executes. */
  datatype Round = Round(
    before: seq<Outside>, drained: seq<Choice>, checking: seq<Outside>, idle: seq<Outside>, within: bool, script: Script)

  /** The run `es` leads from `w` to `v`. */
  ghost predicate Leads(w: World, es: seq<Event>, v: World)
  {
    Possible(w, es) && Run(w, es) == v && Inv(v)
  }

  lemma {:induction false} Then(w: World, es: seq<Event>, v: World, e: Event)
    requires Leads(w, es, v) && Enabled(v, e)
    ensures Leads(w, es + [e], Apply(v, e))
    decreases |es|
  {
    StepKeeps(v, e);
    hide Inv, Apply, Enabled;
    if es == [] {
      assert [] + [e] == [e] && [e][1..] == [];
      assert Possible(Apply(v, e), []) && Run(Apply(v, e), []) == Apply(v, e);
      assert Run(w, [e]) == Run(Apply(w, e), []);
    } else {
      assert (es + [e])[0] == es[0] && (es + [e])[1..] == es[1..] + [e];
      Then(Apply(w, es[0]), es[1..], v, e);
    }
  }

  class Manager {
    var server: Server      // phase, generation, times and one-shot flags of the manager
    var desk: Desk          // its queue, and the books on accepted requests
    var flags: Flags        // program-wide flags
    var chans: Channels     // its notification channels
    var procs: Procs        // the process handle and the processes themselves
    var clock: Time
    ghost var tally: Tally
    ghost var at: Control
    ghost var past: seq<Event>

    ghost function W(): World
      reads this
    {
      World(server, flags, procs, chans, desk, tally, at, clock)
    }

    /** What happened so far is a possible run, and it led here. */
    ghost predicate Sound()
      reads this
    {
      Leads(INITIAL, past, W())
    }

    /** `StartLifecycleManager`. */
    constructor ()
      ensures W() == INITIAL && past == [] && Sound()
    {
      server, desk, flags, chans, procs, clock :=
        INITIAL.server, INITIAL.desk, INITIAL.flags, INITIAL.chans, INITIAL.procs, 0;
      tally, at, past := INITIAL.tally, Loop, [];
      new;
      InitialIsSound();
    }

    // ------------------------------------------------------- critical sections

    method Append(kind: Kind, whenEmpty: bool, force: bool, waits: bool)
      modifies `desk
      ensures desk == Enqueue(old(desk), kind, whenEmpty, force, waits)
    {
      var r := Request(desk.nextId, kind, whenEmpty, force, waits, kind == ChangeMap);
      desk := desk.(queue := desk.queue + [r], nextId := desk.nextId + 1);
      if waits { desk := desk.(waiting := desk.waiting + {r.id}); }
      if kind == ChangeMap { desk := desk.(snapshots := desk.snapshots + {r.id}); }
    }

    /** `submitLifecycleRequest`, up to the point where a waiting caller blocks. */
    method SubmitRequest(kind: Kind, whenEmpty: bool, force: bool, waits: bool, stages: bool) returns (accepted: bool)
      modifies `desk
      ensures desk == Submitted(old(desk), kind, whenEmpty, force, waits, stages)
      ensures accepted <==> (kind == ChangeMap ==> stages) && !old(desk).shutdown
    {
      if kind == ChangeMap && !stages { return false; }
      if desk.shutdown { return false; }
      Append(kind, whenEmpty, force, waits);
      return true;
    }

    /** `finalizeStopped`. */
    method FinalizeStopped(generation: Generation)
      modifies `server, `flags, `procs
      ensures W() == Finalized(old(W()), generation)
    {
      if generation != server.generation && generation != 0 { return; }
      if server.phase == Stopped { return; }
      server := server.(phase := Stopped, booted := false, startedAt := None, readyAt := None,
                        progressAt := None, progressKind := "", healthQueued := false);
      if server.recovery {
        flags := flags.(updatePending := true);
        server := server.(recovery := false);
      }
      procs := procs.(handle := None);
    }

    method HandleReadyEvent(generation: Generation)
      modifies `server
      ensures W() == HandleReady(old(W()), generation)
    {
      if generation != server.generation || server.phase != Starting { return; }
      server := server.(phase := Running, booted := true, readyAt := Some(clock));
    }

    method HandleExitEvent(generation: Generation)
      modifies `server, `flags, `procs
      ensures W() == HandleExit(old(W()), generation)
    {
      if generation == 0 { return; }
      FinalizeStopped(generation);
    }

    method HandleProgressEvent(p: Progress)
      modifies `server, `tally
      ensures W() == HandleProgress(old(W()), p)
    {
      if p.generation != server.generation || p.generation == 0 { return; }
      server := server.(progressAt := Some(p.at), progressKind := p.kind);
      tally := tally.(observed := tally.observed + {p});
    }

    method HandleHealthEvent(generation: Generation)
      modifies `server, `flags, `procs, `desk
      ensures W() == HandleHealth(old(W()), generation)
    {
      if generation == 0 || generation != server.generation { return; }
      if server.phase == Stopping || server.phase == Stopped { return; }
      if !Alive(procs) {
        FinalizeStopped(generation);
        return;
      }
      if !server.healthQueued {
        Append(RestartFactorio, false, false, false);
        server := server.(healthQueued := true);
      }
    }

    /** The scan of `nextRequest` over the queue. */
    method ScanQueue() returns (best: Option<nat>)
      ensures best == Best(desk.queue, server, flags)
    {
      hide Runnable, Priority;
      best := None;
      for i := 0 to |desk.queue|
        invariant best.Some? ==> best.value < i
        invariant Scan(desk.queue, i, best, server, flags) == Best(desk.queue, server, flags)
      {
        var r := desk.queue[i];
        if Runnable(r, server, flags) {
          if best.None? || Priority(r.kind) > Priority(desk.queue[best.value].kind) {
            best := Some(i);
          }
        }
      }
    }

    /** `nextRequest`. */
    method NextRequest() returns (found: Option<Request>)
      requires at.Loop?
      modifies `desk, `at
      ensures found.Some? <==> Best(old(desk).queue, server, flags).Some?
      ensures found.Some? ==>
        Enabled(old(W()), Pick) && W() == Apply(old(W()), Pick) && at == Dispatching(found.value)
      ensures found.None? ==>
        Enabled(old(W()), FindNone) && W() == Apply(old(W()), FindNone) && at == Idle
    {
      ScanInRange(desk.queue, 0, None, server, flags);
      hide Runnable, Priority, Scan;
      var best := ScanQueue();
      if best.None? {
        at := Idle;
        return None;
      }
      var req := desk.queue[best.value];
      at := Dispatching(req);
      desk := desk.(queue := desk.queue[..best.value] + desk.queue[best.value + 1..]);
      return Some(req);
    }

    /** `cancelPendingRequests`, as the manager ends. */
    method CancelPendingRequests()
      requires Enabled(W(), Quit)
      modifies `desk, `at
      ensures W() == Apply(old(W()), Quit) && at == Ended
    {
      hide Answered;
      var queue := desk.queue;
      desk := desk.(queue := []);
      ghost var all := AnsweredAll(desk, queue);
      for i := 0 to |queue|
        invariant AnsweredAll(desk, queue[i..]) == all
      {
        assert queue[i..][0] == queue[i] && queue[i..][1..] == queue[i + 1..];
        Answer(queue[i]);
      }
      assert queue[|queue|..] == [];
      at := Ended;
    }

    /** The answer to one request, and the removal of its staged file. */
    method Answer(r: Request)
      modifies `desk
      ensures desk == Answered(old(desk), r)
    {
      desk := desk.(snapshots := desk.snapshots - {r.id});
      if r.waits { desk := desk.(answered := desk.answered + multiset{r.id}); }
    }

    /** `checkStartupTimeout`. */
    method CheckStartupTimeout()
      requires at.Loop?
      modifies `desk
      ensures W() == Apply(old(W()), CheckStartup)
    {
      if server.phase != Starting || server.startedAt.None? { return; }
      if clock - server.startedAt.value <= START_HARD {
        var ref := if server.progressAt.Some? then server.progressAt.value else server.startedAt.value;
        if clock - ref <= START_IDLE { return; }
      }
      var _ := SubmitRequest(RestartFactorio, false, false, false, true);
    }

    /** `checkSoftModAfterUpdate`. */
    method CheckSoftModAfterUpdate()
      requires at.Loop?
      modifies `server, `desk, `tally
      ensures W() == Apply(old(W()), CheckSoftMod)
    {
      if !server.recovery || server.softModDetected || !flags.inject || server.phase != Running || !server.booted
         || server.readyAt.None? || clock - server.readyAt.value < SOFTMOD_GRACE
         || flags.updating || flags.modOperation || desk.shutdown {
        return;
      }
      for i := 0 to |desk.queue|
        invariant forall j :: 0 <= j < i ==> !Interrupts(desk.queue[j].kind)
      {
        if Interrupts(desk.queue[i].kind) { return; }
      }
      server := server.(recovery := false);
      Append(RestartFactorio, false, false, false);
      tally := tally.(recoveries := tally.recoveries + 1);
    }

    /** `reconcileProcessHealth`. */
    method ReconcileProcessHealth()
      requires at.Loop?
      modifies `server, `flags, `procs
      ensures W() == Apply(old(W()), Reconcile)
    {
      if server.phase == Stopped || server.generation == 0 { return; }
      if !Alive(procs) { FinalizeStopped(server.generation); }
    }

    // -------------------------------------------------------- the environment

    /** Anything another goroutine, the process or the clock can do. */
    method Happens(e: Outside)
      modifies `server, `desk, `flags, `chans, `procs, `clock, `tally
      ensures W() == Apply(old(W()), e)
    {
      hide Submitted, Managed, Enabled;
      match e {
        case Tick(d) => clock := clock + d;
        case Submit(kind, whenEmpty, force, waits, stages) =>
          var _ := SubmitRequest(kind, whenEmpty, force, waits, stages);
        case Shutdown => desk := desk.(shutdown := true);
        case MarkUpdated =>
          flags := flags.(updatePending := true);
          tally := tally.(updates := tally.updates + 1);
        case SetUpdating(b) => flags := flags.(updating := b);
        case SetModOperation(b) => flags := flags.(modOperation := b);
        case SetAutostart(b) => flags := flags.(autostart := b);
        case SetPlayers(n) => flags := flags.(players := n);
        case SetInject(b) => flags := flags.(inject := b);
        case Die(g) => procs := procs.(live := procs.live - {g});
        case NotifyReady(g) => if |chans.ready| < 8 { chans := chans.(ready := chans.ready + [g]); }
        case NotifyGoodbye(g) => if |chans.goodbye| < 8 { chans := chans.(goodbye := chans.goodbye + [g]); }
        case NotifyExit(g) =>
          if g in procs.launched && g !in procs.live && |chans.exits| < 8 {
            chans := chans.(exits := chans.exits + [g]);
          }
        case NotifyProgress(g, what) =>
          if what != "" && |chans.progress| < 32 {
            chans := chans.(progress := chans.progress + [Progress(g, what, clock)]);
          }
        case NotifyHealth(g) => if |chans.health| < 16 { chans := chans.(health := chans.health + [g]); }
        case NotifySoftMod(g) =>
          if g != 0 && g == server.generation { server := server.(softModDetected := true, recovery := false); }
      }
    }

    /** The manager's one step `e` leads from `w` to where it is now. */
    ghost method Step(w: World, e: Event)
      requires Leads(INITIAL, past, w) && Enabled(w, e) && W() == Apply(w, e)
      modifies `past
      ensures past == old(past) + [e] && Sound()
    {
      hide Inv, Enabled, Apply, Leads;
      Then(INITIAL, past, w, e);
      past := past + [e];
    }

    /** A stretch of time in which the manager does nothing. */
    method Meanwhile(script: seq<Outside>)
      requires Sound()
      modifies `server, `desk, `flags, `chans, `procs, `clock, `tally, `past
      ensures Sound()
    {
      hide Apply, Leads;
      for i := 0 to |script|
        invariant Sound()
      {
        ghost var w := W();
        OutsideIsEnabled(w, script[i]);
        Happens(script[i]);
        Step(w, script[i]);
      }
    }

    // --------------------------------------------------------- taking notifications

    method TakeExitNow(stopping: bool) returns (exited: bool)
      requires Enabled(W(), ReceiveExit) && stopping == at.Waiting?
      modifies `server, `flags, `chans, `procs, `at
      ensures W() == Apply(old(W()), ReceiveExit)
      ensures exited <==> stopping && old(chans).exits[0] == old(server).generation
    {
      hide HandleExit;
      var g := chans.exits[0];
      chans := chans.(exits := chans.exits[1..]);
      exited := stopping && g == server.generation;
      HandleExitEvent(g);
      if exited { at := StopDone(at.req, true); }
    }

    method TakeOther(choice: Choice) returns (ghost e: Event)
      requires AtRest(at) && choice in {TakeGoodbye, TakeReady, TakeProgress, TakeHealth}
      requires choice == TakeHealth ==> at.Loop?
      modifies `server, `desk, `flags, `chans, `procs, `tally
      ensures Enabled(old(W()), e) && W() == Apply(old(W()), e)
      ensures e.Tick? || e.ReceiveGoodbye? || e.ReceiveReady? || e.ReceiveProgress? || e.ReceiveHealth?
    {
      hide HandleReady, HandleProgress, HandleHealth;
      e := Tick(0);
      if choice == TakeGoodbye && chans.goodbye != [] {
        e := ReceiveGoodbye;
        chans := chans.(goodbye := chans.goodbye[1..]);
      } else if choice == TakeReady && chans.ready != [] {
        e := ReceiveReady;
        var g := chans.ready[0];
        chans := chans.(ready := chans.ready[1..]);
        HandleReadyEvent(g);
      } else if choice == TakeProgress && chans.progress != [] {
        e := ReceiveProgress;
        var p := chans.progress[0];
        chans := chans.(progress := chans.progress[1..]);
        HandleProgressEvent(p);
      } else if choice == TakeHealth && chans.health != [] {
        e := ReceiveHealth;
        var g := chans.health[0];
        chans := chans.(health := chans.health[1..]);
        HandleHealthEvent(g);
      }
    }

    /** Takes one notification off a channel, if there is one; `stopping` says that the
        manager is in `waitForStop`, which the exit of its own generation ends. */
    method Receive(choice: Choice, stopping: bool) returns (exited: bool)
      requires Sound() && AtRest(at) && stopping == at.Waiting?
      modifies `server, `desk, `flags, `chans, `procs, `tally, `at, `past
      ensures Sound()
      ensures !exited ==> at == old(at)
      ensures exited ==> old(at).Waiting? && at == StopDone(old(at).req, true)
    {
      ghost var w := W();
      exited := false;
      ReceiveKeepsPlace(w);
      if choice == TakeExit && chans.exits != [] {
        hide Leads, Apply;
        exited := TakeExitNow(stopping);
        Step(w, ReceiveExit);
      } else if !(choice == TakeNothing || choice == TakeExit || (choice == TakeHealth && stopping)) {
        hide Leads, Apply, Enabled;
        ghost var e := TakeOther(choice);
        Step(w, e);
      }
    }

    // ------------------------------------------------------------------ stopping

    /** One turn's look at the last progress and at the process. */
    method LookAtServer(ghost req: Request, stage: nat, ghost since: Time, deadline: Time) returns (later: Time, gone: bool)
      requires at == Waiting(req, stage, since, deadline)
      modifies `server, `flags, `procs, `at
      ensures W() == Apply(old(W()), Look)
      ensures gone ==> at == StopDone(req, true)
      ensures !gone ==> at == Judging(req, stage, since, later)
    {
      later := deadline;
      if server.progressKind == "save" && server.progressAt.Some? {
        if server.progressAt.value + STOP_SAVE > later { later := server.progressAt.value + STOP_SAVE; }
      } else if ExtendsStop(server.progressKind) && server.progressAt.Some? {
        if server.progressAt.value + STOP_IDLE > later { later := server.progressAt.value + STOP_IDLE; }
      }
      gone := !Alive(procs);
      if gone {
        FinalizeStopped(server.generation);
        at := StopDone(req, true);
      } else {
        at := Judging(req, stage, since, later);
      }
    }

    /** The clock against the deadline, after the process was seen alive. */
    method JudgeStage(ghost req: Request, stage: nat, ghost since: Time, deadline: Time) returns (late: bool)
      requires at == Judging(req, stage, since, deadline)
      modifies `at
      ensures W() == Apply(old(W()), Judge)
      ensures !late ==> at == Waiting(req, stage, since, deadline)
      ensures late ==> at == AfterStage(req, stage)
    {
      late := clock > deadline;
      at := if late then AfterStage(req, stage) else Waiting(req, stage, since, deadline);
    }

    /** One turn of the loop of `waitForStop`. */
    method WaitTurn(ghost req: Request, stage: nat, ghost since: Time, deadline: Time, turn: Turn)
      returns (later: Time, outcome: Outcome)
      requires Sound() && at == Waiting(req, stage, since, deadline)
      modifies `server, `desk, `flags, `chans, `procs, `clock, `tally, `at, `past
      ensures Sound()
      ensures outcome == StillWaiting ==> at == Waiting(req, stage, since, later)
      ensures outcome == Finished(true) ==> at == StopDone(req, true)
      ensures outcome == Finished(false) ==> at == AfterStage(req, stage)
    {
      hide Leads, Apply;
      Meanwhile(turn.before);
      ghost var w := W();
      var gone: bool;
      later, gone := LookAtServer(req, stage, since, deadline);
      Step(w, Look);
      if gone { return later, Finished(true); }
      Meanwhile(turn.between);
      w := W();
      var late := JudgeStage(req, stage, since, later);
      Step(w, Judge);
      if late { return later, Finished(false); }
      Meanwhile(turn.after);
      var exited := Receive(turn.choice, true);
      outcome := if exited then Finished(true) else StillWaiting;
    }

    /** `waitForStop`, for as long as `turns` goes on. */
    method WaitForStop(ghost req: Request, stage: nat, timeout: int, turns: seq<Turn>) returns (outcome: Outcome)
      requires Sound() && at == StageNext(req, stage) && timeout == StageTimeout(stage)
      modifies `server, `desk, `flags, `chans, `procs, `clock, `tally, `at, `past
      ensures Sound()
      ensures outcome == Finished(true) ==> at == StopDone(req, true)
      ensures outcome == Finished(false) ==> at == AfterStage(req, stage)
    {
      ghost var w := W();
      var deadline := clock + timeout;
      ghost var since := clock;
      at := Waiting(req, stage, since, deadline);
      hide Leads;
      Step(w, BeginStage);
      hide Apply;
      outcome := StillWaiting;
      var i := 0;
      while i < |turns| && outcome == StillWaiting
        invariant 0 <= i <= |turns| && Sound()
        invariant outcome == StillWaiting ==> at == Waiting(req, stage, since, deadline)
        invariant outcome == Finished(true) ==> at == StopDone(req, true)
        invariant outcome == Finished(false) ==> at == AfterStage(req, stage)
      {
        deadline, outcome := WaitTurn(req, stage, since, deadline, turns[i]);
        i := i + 1;
      }
    }

    /** The first section of `executeStop`. */
    method AskToStop(ghost req: Request) returns (already: bool)
      requires at == StopNext(req)
      modifies `server, `at
      ensures W() == Apply(old(W()), BeginStop)
      ensures at == if already then StopDone(req, true) else StageNext(req, 0)
    {
      already := server.phase == Stopped;
      if already {
        at := StopDone(req, true);
      } else {
        server := server.(phase := Stopping, progressAt := Some(clock), progressKind := "stop-requested");
        at := StageNext(req, 0);
      }
    }

    /** `executeStop`: quit, interrupt and kill, one after the other. It succeeds exactly
        when the server is stopped. */
    method ExecuteStop(ghost req: Request, script: StopScript) returns (outcome: Outcome)
      requires Sound() && at == StopNext(req)
      modifies `server, `desk, `flags, `chans, `procs, `clock, `tally, `at, `past
      ensures Sound()
      ensures outcome.Finished? ==> at == StopDone(req, outcome.ok) && (outcome.ok <==> server.phase == Stopped)
    {
      hide Leads, Apply;
      ghost var w := W();
      var already := AskToStop(req);
      Step(w, BeginStop);
      if already {
        StopIsJudged(past, W());
        return Finished(true);
      }
      Meanwhile(script.asked);
      outcome := WaitForStop(req, 0, STOP_GRACE, script.quit);
      if outcome == Finished(false) {
        Meanwhile(script.interrupting);
        outcome := WaitForStop(req, 1, STOP_INTERRUPT, script.interrupted);
        if outcome == Finished(false) {
          Meanwhile(script.killing);
          outcome := WaitForStop(req, 2, STOP_KILL, script.killed);
        }
      }
      if outcome.Finished? { StopIsJudged(past, W()); }
    }

    // ------------------------------------------------------------------ starting

    /** The first section of `executeStart`; `None` means that a launch follows. */
    method PrepareStart(ghost req: Request, within: bool) returns (done: Option<bool>)
      requires at == StartNext(req)
      modifies `server, `at
      ensures W() == Apply(old(W()), BeginStart(within))
      ensures at == if done.Some? then Closing(req, done.value) else Launching(req)
    {
      if server.phase == Running || server.phase == Starting {
        at := Closing(req, true);
        return Some(true);
      }
      if server.phase == Stopping || flags.updating || flags.modOperation || !within {
        at := Closing(req, false);
        return Some(false);
      }
      server := server.(phase := Starting, startedAt := Some(clock), progressAt := Some(clock),
                        progressKind := "spawn", readyAt := None, booted := false,
                        softModDetected := false, recovery := false, generation := server.generation + 1);
      at := Launching(req);
      return None;
    }

    /** The launcher, which adds one process or none. */
    method LaunchFactorio(ghost req: Request, launches: bool)
      requires at == Launching(req)
      modifies `server, `procs, `at
      ensures W() == Apply(old(W()), Launch(launches))
      ensures at == if launches then Settling(req) else Closing(req, false)
    {
      if !launches {
        server := server.(phase := Stopped, startedAt := None, booted := false);
        at := Closing(req, false);
      } else {
        var g := server.generation;
        procs := Procs(procs.live + {g}, Some(g), procs.launched + {g});
        at := Settling(req);
      }
    }

    /** The last section of `executeStart`: a pending update arms the recovery. */
    method SettleStart(ghost req: Request)
      requires at == Settling(req)
      modifies `server, `flags, `at
      ensures W() == Apply(old(W()), Settle) && at == Closing(req, true)
    {
      var pending := flags.updatePending;
      flags := flags.(updatePending := false);
      server := server.(recovery := pending && flags.inject && !server.softModDetected);
      at := Closing(req, true);
    }

    /** The launch, and what follows it. */
    method LaunchAndSettle(ghost req: Request, script: StartScript) returns (ok: bool)
      requires Sound() && at == Launching(req)
      modifies `server, `desk, `flags, `chans, `procs, `clock, `tally, `at, `past
      ensures Sound() && at == Closing(req, ok)
    {
      hide Leads, Apply;
      ghost var w := W();
      LaunchFactorio(req, script.launches);
      Step(w, Launch(script.launches));
      if !script.launches { return false; }
      Meanwhile(script.launched);
      w := W();
      SettleStart(req);
      Step(w, Settle);
      return true;
    }

    /** `executeStart`. */
    method ExecuteStart(ghost req: Request, script: StartScript) returns (ok: bool)
      requires Sound() && at == StartNext(req)
      modifies `server, `desk, `flags, `chans, `procs, `clock, `tally, `at, `past
      ensures Sound() && at == Closing(req, ok)
    {
      hide Leads, Apply;
      ghost var w := W();
      var done := PrepareStart(req, script.within);
      Step(w, BeginStart(script.within));
      if done.Some? { return done.value; }
      Meanwhile(script.launching);
      ok := LaunchAndSettle(req, script);
    }

    // ----------------------------------------------------------------- executing

    /** The first part of `execute`: a map change is staged, and maps change with autostart
        off. `None` means that there is nothing more to do. */
    method BeginRequest(r: Request, stages: bool) returns (begun: Option<Request>)
      requires at == Dispatching(r)
      modifies `desk, `flags, `at
      ensures W() == Apply(old(W()), Dispatch(stages))
      ensures begun.Some? ==> begun.value.kind == r.kind
      ensures begun.Some? ==> at == if r.kind == Start then StartNext(begun.value) else StopNext(begun.value)
      ensures begun.None? ==> at == Closing(r, false)
    {
      if r.kind == Unrecognized || (r.kind == ChangeMap && !r.staged && !stages) {
        at := Closing(r, false);
        return None;
      }
      var req := r;
      if r.kind == ChangeMap {
        req := r.(staged := true);
        desk := desk.(snapshots := desk.snapshots + {r.id});
      }
      if r.kind == ChangeMap || r.kind == MapReset {
        flags := flags.(wasAuto := flags.autostart, autostart := false);
      }
      at := if r.kind == Start then StartNext(req) else StopNext(req);
      return Some(req);
    }

    /** What `execute` does with the result of a stop: whether anything follows it. */
    method AfterStopping(req: Request, ok: bool) returns (follows: bool)
      requires at == StopDone(req, ok) && req.kind != Start
      modifies `flags, `at
      ensures W() == Apply(old(W()), AfterStop)
      ensures follows <==> ok && req.kind !in {Stop, Unrecognized}
      ensures at == if !follows then Closing(req, ok && req.kind in {Stop, Unrecognized})
                    else if req.kind == RestartFactorio then StartNext(req) else Following(req)
    {
      follows := ok && req.kind != Stop && req.kind != Unrecognized;
      if !ok && (req.kind == ChangeMap || req.kind == MapReset) {
        flags := flags.(autostart := flags.wasAuto);
      }
      at := if !follows then Closing(req, ok)
            else if req.kind == RestartFactorio then StartNext(req) else Following(req);
    }

    /** The work between a stop and a start, and the autostart flag after it. */
    method Follow(req: Request, ok: bool) returns (starts: bool)
      requires at == Following(req)
      modifies `flags, `at
      ensures W() == Apply(old(W()), FollowUp(ok))
      ensures starts <==> ok && req.kind != RestartChatWire
      ensures at == if starts then StartNext(req) else Closing(req, ok)
    {
      starts := ok && req.kind != RestartChatWire;
      if req.kind != RestartChatWire {
        flags := flags.(autostart := if ok then true else flags.wasAuto);
      }
      at := if starts then StartNext(req) else Closing(req, ok);
    }

    /** What `execute` does between a stop and a start. */
    method FollowStop(req: Request, stoppedOk: bool, script: Script) returns (ok: bool, starts: bool)
      requires Sound() && at == StopDone(req, stoppedOk) && req.kind != Start
      modifies `server, `desk, `flags, `chans, `procs, `clock, `tally, `at, `past
      ensures Sound()
      ensures at == if starts then StartNext(req) else Closing(req, ok)
    {
      hide Leads, Apply;
      ghost var w := W();
      var follows := AfterStopping(req, stoppedOk);
      Step(w, AfterStop);
      if !follows { return stoppedOk && req.kind in {Stop, Unrecognized}, false; }
      if req.kind == RestartFactorio { return true, true; }
      Meanwhile(script.stopped);
      w := W();
      starts := Follow(req, script.prepares);
      Step(w, FollowUp(script.prepares));
      ok := script.prepares;
    }

    /** The end of `execute`: the staged file is removed and a waiting caller is answered. */
    method FinishRequest(req: Request, ghost ok: bool)
      requires at == Closing(req, ok)
      modifies `desk, `at
      ensures W() == Apply(old(W()), Finish) && at == Loop
    {
      Answer(req);
      at := Loop;
    }

    /** `execute`, from a request just picked to its answer. */
    method Execute(r: Request, script: Script) returns (finished: bool)
      requires Sound() && at == Dispatching(r)
      modifies `server, `desk, `flags, `chans, `procs, `clock, `tally, `at, `past
      ensures Sound()
      ensures finished ==> at == Loop
    {
      hide Leads, Apply;
      ghost var w := W();
      var begun := BeginRequest(r, script.stages);
      Step(w, Dispatch(script.stages));
      var req := if begun.Some? then begun.value else r;
      var starts, ok := begun.Some? && r.kind == Start, false;
      if begun.Some? && !starts {
        Meanwhile(script.staged);
        var outcome := ExecuteStop(req, script.stop);
        if outcome == StillWaiting { return false; }
        ok, starts := FollowStop(req, outcome.ok, script);
      }
      if starts {
        Meanwhile(script.prepared);
        ok := ExecuteStart(req, script.start);
      }
      Meanwhile(script.closing);
      w := W();
      FinishRequest(req, ok);
      Step(w, Finish);
      return true;
    }

    // ------------------------------------------------------------------ the loop

    /** `shouldAutoStart`, and the start request made up when it says so. */
    method ConsiderAutoStart(within: bool) returns (auto: Option<Request>)
      requires at.Idle?
      modifies `desk, `at
      ensures W() == Apply(old(W()), AutoStart(within))
      ensures at == if auto.Some? then Dispatching(auto.value) else Loop
    {
      if server.phase == Stopped && flags.autostart && !flags.updating && !flags.modOperation && within {
        var r := Request(desk.nextId, Start, false, false, false, false);
        desk := desk.(nextId := desk.nextId + 1);
        at := Dispatching(r);
        return Some(r);
      }
      at := Loop;
      return None;
    }

    /** The checks `run` makes before it looks at the queue. */
    method Check(round: Round)
      requires Sound() && at.Loop?
      modifies `server, `desk, `flags, `chans, `procs, `clock, `tally, `at, `past
      ensures Sound() && at.Loop?
    {
      hide Leads, Apply;
      Meanwhile(round.before);
      for i := 0 to |round.drained|
        invariant Sound() && at.Loop?
      {
        var _ := Receive(round.drained[i], false);
      }
      ghost var w := W();
      ReconcileProcessHealth();
      Step(w, Reconcile);
      Meanwhile(round.checking);
      w := W();
      CheckStartupTimeout();
      Step(w, CheckStartup);
      w := W();
      CheckSoftModAfterUpdate();
      Step(w, CheckSoftMod);
    }

    /** One turn of the loop of `run`. */
    method OneRound(round: Round) returns (again: bool)
      requires Sound() && at.Loop?
      modifies `server, `desk, `flags, `chans, `procs, `clock, `tally, `at, `past
      ensures Sound()
      ensures again ==> at.Loop?
    {
      hide Leads, Apply;
      Check(round);
      ghost var w := W();
      var found := NextRequest();
      if found.Some? {
        Step(w, Pick);
        again := Execute(found.value, round.script);
        return;
      }
      Step(w, FindNone);
      Meanwhile(round.idle);
      w := W();
      var auto := ConsiderAutoStart(round.within);
      Step(w, AutoStart(round.within));
      if auto.None? { return true; }
      again := Execute(auto.value, round.script);
    }

    /** `run`, for as long as `rounds` goes on: once it has ended, nothing is queued, every
        caller that waited has its one answer, and no staged file is left. */
    method RunRounds(rounds: seq<Round>) returns (ended: bool)
      requires Sound() && at.Loop?
      modifies `server, `desk, `flags, `chans, `procs, `clock, `tally, `at, `past
      ensures Sound()
      ensures ended ==> desk.queue == [] && desk.snapshots == {}
      ensures ended ==> forall id :: id in desk.waiting ==> desk.answered[id] == 1
    {
      hide Leads, Apply;
      for i := 0 to |rounds|
        invariant Sound() && at.Loop?
      {
        if desk.shutdown {
          ghost var w := W();
          CancelPendingRequests();
          Step(w, Quit);
          EndIsComplete(past, W());
          return true;
        }
        var again := OneRound(rounds[i]);
        if !again { return false; }
      }
      return false;
    }
  }

  /** Only the exit of the generation being stopped moves the manager when it takes a
      notification. */
  lemma ReceiveKeepsPlace(w: World)
    requires AtRest(w.at)
    ensures w.chans.exits != [] ==>
      Apply(w, ReceiveExit).at == (if w.at.Waiting? && w.chans.exits[0] == w.server.generation
                                   then StopDone(w.at.req, true) else w.at)
  {
  }

  lemma OutsideIsEnabled(w: World, e: Outside)
    ensures Enabled(w, e)
  {
  }

  /** Where a stage that gave up leads. */
  function AfterStage(req: Request, stage: nat): Control
  {
    if stage < 2 then StageNext(req, stage + 1) else StopDone(req, false)
  }

  lemma EndIsComplete(past: seq<Event>, w: World)
    requires Leads(INITIAL, past, w) && w.at.Ended?
    ensures w.desk.queue == [] && w.desk.snapshots == {}
    ensures forall id :: id in w.desk.waiting ==> w.desk.answered[id] == 1
  {
    hide ProcInv, ExitInv, DeadlineInv, TokenInv, HeldInv;
  }

  lemma StopIsJudged(past: seq<Event>, w: World)
    requires Leads(INITIAL, past, w) && w.at.StopDone?
    ensures w.at.ok <==> w.server.phase == Stopped
  {
    hide ProcInv, ExitInv, DeadlineInv, DeskInv, TokenInv;
  }
}
