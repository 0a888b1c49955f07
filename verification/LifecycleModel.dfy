/** The Factorio lifecycle manager (`fact/lifecycle.go`) as a state machine.

    One manager goroutine executes requests; `Control` says where in `run`, `execute`,
    `executeStop`, `waitForStop` or `executeStart` it is. Its critical sections are events,
    and between any two of them the environment may do anything it can: submit requests,
    kill the server, fill the notification channels, flip flags, let time pass.
    Times are milliseconds of one clock. */
module LifecycleModel {
  import opened Wrappers

  type Time = int
  type Generation = nat
  type RequestId = nat

  const START_IDLE: int := 120_000
  const START_HARD: int := 900_000
  const STOP_GRACE: int := 45_000
  const STOP_INTERRUPT: int := 20_000
  const STOP_KILL: int := 5_000
  const STOP_IDLE: int := 20_000
  const STOP_SAVE: int := 180_000
  const SOFTMOD_GRACE: int := 30_000

  datatype Phase = Stopped | Starting | Running | Stopping

  datatype Kind = Start | Stop | RestartFactorio | RestartChatWire | ChangeMap | MapReset | Unrecognized

  datatype Request = Request(id: RequestId, kind: Kind, whenEmpty: bool, force: bool, waits: bool, staged: bool)

  datatype Progress = Progress(generation: Generation, kind: string, at: Time)

  datatype Server = Server(
    phase: Phase,
    booted: bool,
    generation: Generation,
    startedAt: Option<Time>,
    readyAt: Option<Time>,
    progressAt: Option<Time>,
    progressKind: string,
    healthQueued: bool,
    softModDetected: bool,
    recovery: bool)

  /** Flags that other goroutines set at any time. */
  datatype Flags = Flags(
    updating: bool, modOperation: bool, autostart: bool, wasAuto: bool, players: nat,
    inject: bool, updatePending: bool)

  /** The processes: which generations are alive, which one the handle points at, and
      which were ever launched. */
  datatype Procs = Procs(live: set<Generation>, handle: Option<Generation>, launched: set<Generation>)

  datatype Channels = Channels(
    ready: seq<Generation>, goodbye: seq<Generation>, exits: seq<Generation>,
    progress: seq<Progress>, health: seq<Generation>)

  /** The queue, and what became of every request accepted so far. */
  datatype Desk = Desk(
    queue: seq<Request>, shutdown: bool, nextId: RequestId,
    waiting: set<RequestId>, answered: multiset<RequestId>, snapshots: set<RequestId>)

  datatype Tally = Tally(updates: nat, recoveries: nat, observed: set<Progress>)

  datatype Control =
    | Loop
    | Idle
    | Dispatching(req: Request)
    | StopNext(req: Request)
    | StageNext(req: Request, stage: nat)
    | Waiting(req: Request, stage: nat, since: Time, deadline: Time)
    | Judging(req: Request, stage: nat, since: Time, deadline: Time)
    | StopDone(req: Request, ok: bool)
    | Following(req: Request)
    | StartNext(req: Request)
    | Launching(req: Request)
    | Settling(req: Request)
    | Closing(req: Request, ok: bool)
    | Ended

  datatype World = World(
    server: Server, flags: Flags, procs: Procs, chans: Channels, desk: Desk, tally: Tally,
    at: Control, clock: Time)

  datatype Event =
    // the environment
    | Tick(d: nat)
    | Submit(kind: Kind, whenEmpty: bool, force: bool, waits: bool, stages: bool)
    | Shutdown
    | MarkUpdated
    | SetUpdating(value: bool)
    | SetModOperation(value: bool)
    | SetAutostart(value: bool)
    | SetPlayers(players: nat)
    | SetInject(value: bool)
    | Die(generation: Generation)
    | NotifyReady(generation: Generation)
    | NotifyGoodbye(generation: Generation)
    | NotifyExit(generation: Generation)
    | NotifyProgress(generation: Generation, what: string)
    | NotifyHealth(generation: Generation)
    | NotifySoftMod(generation: Generation)
    // the manager, between requests or while it waits for a stop
    | ReceiveReady
    | ReceiveGoodbye
    | ReceiveExit
    | ReceiveProgress
    | ReceiveHealth
    | Reconcile
    | CheckStartup
    | CheckSoftMod
    | Pick
    | FindNone
    | AutoStart(within: bool)
    | Quit
    // the manager, executing a request
    | Dispatch(stages: bool)
    | BeginStop
    | BeginStage
    | Look
    | Judge
    | AfterStop
    | FollowUp(ok: bool)
    | BeginStart(within: bool)
    | Launch(ok: bool)
    | Settle
    | Finish

  const INITIAL := World(
    Server(Stopped, false, 0, None, None, None, "", false, false, false),
    Flags(false, false, false, false, 0, false, false),
    Procs({}, None, {}),
    Channels([], [], [], [], []),
    Desk([], false, 0, {}, multiset{}, {}),
    Tally(0, 0, {}),
    Loop, 0)

  // ------------------------------------------------------------------ requests

  function Priority(k: Kind): int
  {
    match k
    case RestartChatWire => 50
    case ChangeMap => 40
    case MapReset => 40
    case RestartFactorio => 30
    case Stop => 20
    case Start => 10
    case Unrecognized => 0
  }

  predicate Runnable(r: Request, s: Server, f: Flags)
  {
    && (f.updating || f.modOperation ==> r.kind == Stop || (r.kind == RestartChatWire && r.force))
    && !(r.whenEmpty && s.phase != Stopped && f.players > 0)
  }

  /** The scan of `nextRequest` from `i` on, with the best index found so far. */
  function Scan(queue: seq<Request>, i: nat, best: Option<nat>, s: Server, f: Flags): Option<nat>
    requires i <= |queue| && (best.Some? ==> best.value < |queue|)
    decreases |queue| - i
  {
    if i == |queue| then best
    else if Runnable(queue[i], s, f) && (best.None? || Priority(queue[i].kind) > Priority(queue[best.value].kind))
    then Scan(queue, i + 1, Some(i), s, f)
    else Scan(queue, i + 1, best, s, f)
  }

  function Best(queue: seq<Request>, s: Server, f: Flags): Option<nat>
  {
    Scan(queue, 0, None, s, f)
  }

  /** A request accepted by the queue. */
  function Enqueue(d: Desk, kind: Kind, whenEmpty: bool, force: bool, waits: bool): Desk
  {
    var r := Request(d.nextId, kind, whenEmpty, force, waits, kind == ChangeMap);
    d.(queue := d.queue + [r], nextId := d.nextId + 1,
       waiting := if waits then d.waiting + {r.id} else d.waiting,
       snapshots := if kind == ChangeMap then d.snapshots + {r.id} else d.snapshots)
  }

  /** `submitLifecycleRequest`: a map change is staged first, and a manager that is
      shutting down takes nothing. */
  function Submitted(d: Desk, kind: Kind, whenEmpty: bool, force: bool, waits: bool, stages: bool): Desk
  {
    if (kind == ChangeMap && !stages) || d.shutdown then d else Enqueue(d, kind, whenEmpty, force, waits)
  }

  function Without(queue: seq<Request>, i: nat): seq<Request>
    requires i < |queue|
  {
    queue[..i] + queue[i + 1..]
  }

  /** The answer to a request that leaves the manager, and the end of its staged file. */
  function Answered(d: Desk, r: Request): Desk
  {
    d.(answered := if r.waits then d.answered + multiset{r.id} else d.answered,
       snapshots := d.snapshots - {r.id})
  }

  function AnsweredAll(d: Desk, queue: seq<Request>): Desk
    decreases |queue|
  {
    if queue == [] then d else AnsweredAll(Answered(d, queue[0]), queue[1..])
  }

  // -------------------------------------------------------------------- server

  predicate Alive(p: Procs)
  {
    p.handle.Some? && p.handle.value in p.live
  }

  /** `finalizeStopped`: ignored for another generation and when already stopped. */
  function Finalized(w: World, generation: Generation): World
  {
    if (generation != w.server.generation && generation != 0) || w.server.phase == Stopped then w
    else
      w.(server := w.server.(phase := Stopped, booted := false, startedAt := None, readyAt := None,
                             progressAt := None, progressKind := "", healthQueued := false, recovery := false),
         flags := w.flags.(updatePending := w.flags.updatePending || w.server.recovery),
         procs := w.procs.(handle := None))
  }

  function HandleReady(w: World, generation: Generation): World
  {
    if generation != w.server.generation || w.server.phase != Starting then w
    else w.(server := w.server.(phase := Running, booted := true, readyAt := Some(w.clock)))
  }

  function HandleExit(w: World, generation: Generation): World
  {
    if generation == 0 then w else Finalized(w, generation)
  }

  function HandleProgress(w: World, p: Progress): World
  {
    if p.generation != w.server.generation || p.generation == 0 then w
    else w.(server := w.server.(progressAt := Some(p.at), progressKind := p.kind),
            tally := w.tally.(observed := w.tally.observed + {p}))
  }

  function HandleHealth(w: World, generation: Generation): World
  {
    if generation == 0 || generation != w.server.generation then w
    else if w.server.phase == Stopping || w.server.phase == Stopped then w
    else if !Alive(w.procs) then Finalized(w, generation)
    else if w.server.healthQueued then w
    else w.(desk := Enqueue(w.desk, RestartFactorio, false, false, false),
            server := w.server.(healthQueued := true))
  }

  predicate NeedsSoftModRestart(w: World)
  {
    && w.server.recovery && !w.server.softModDetected && w.flags.inject
    && w.server.phase == Running && w.server.booted && w.server.readyAt.Some?
    && w.clock - w.server.readyAt.value >= SOFTMOD_GRACE
    && !w.flags.updating && !w.flags.modOperation && !w.desk.shutdown
    && forall i :: 0 <= i < |w.desk.queue| ==> !Interrupts(w.desk.queue[i].kind)
  }

  predicate Interrupts(k: Kind)
  {
    k == RestartFactorio || k == RestartChatWire || k == Stop || k == ChangeMap || k == MapReset
  }

  predicate StartupTimedOut(s: Server, now: Time)
  {
    && s.phase == Starting && s.startedAt.Some?
    && (now - s.startedAt.value <= START_HARD ==>
          now - (if s.progressAt.Some? then s.progressAt.value else s.startedAt.value) > START_IDLE)
  }

  function StageTimeout(stage: nat): int
  {
    if stage == 0 then STOP_GRACE else if stage == 1 then STOP_INTERRUPT else STOP_KILL
  }

  predicate ExtendsStop(kind: string)
  {
    kind != "" && kind != "stop-requested" && kind != "spawn"
  }

  /** What one look at the last progress does to a stage's deadline. */
  function Extended(deadline: Time, s: Server): Time
  {
    if s.progressKind == "save" && s.progressAt.Some? then
      if s.progressAt.value + STOP_SAVE > deadline then s.progressAt.value + STOP_SAVE else deadline
    else if ExtendsStop(s.progressKind) && s.progressAt.Some? then
      if s.progressAt.value + STOP_IDLE > deadline then s.progressAt.value + STOP_IDLE else deadline
    else deadline
  }

  // -------------------------------------------------------------------- events

  function Push<T>(c: seq<T>, x: T, capacity: nat): seq<T>
  {
    if |c| < capacity then c + [x] else c
  }

  predicate AtRest(c: Control) { c.Loop? || c.Waiting? }

  /** The environment can act at any time; the manager does only what its place in the
      program allows. */
  predicate Enabled(w: World, e: Event)
  {
    match e
    case ReceiveReady => AtRest(w.at) && w.chans.ready != []
    case ReceiveGoodbye => AtRest(w.at) && w.chans.goodbye != []
    case ReceiveExit => AtRest(w.at) && w.chans.exits != []
    case ReceiveProgress => AtRest(w.at) && w.chans.progress != []
    case ReceiveHealth => w.at.Loop? && w.chans.health != []
    case Reconcile => w.at.Loop?
    case CheckStartup => w.at.Loop?
    case CheckSoftMod => w.at.Loop?
    case Pick => w.at.Loop? && Best(w.desk.queue, w.server, w.flags).Some?
    case FindNone => w.at.Loop? && Best(w.desk.queue, w.server, w.flags).None?
    case AutoStart(_) => w.at.Idle?
    case Quit => w.at.Loop? && w.desk.shutdown
    case Dispatch(_) => w.at.Dispatching?
    case BeginStop => w.at.StopNext?
    case BeginStage => w.at.StageNext?
    case Look => w.at.Waiting?
    case Judge => w.at.Judging?
    case AfterStop => w.at.StopDone?
    case FollowUp(_) => w.at.Following?
    case BeginStart(_) => w.at.StartNext?
    case Launch(_) => w.at.Launching?
    case Settle => w.at.Settling?
    case Finish => w.at.Closing?
    case _ => true
  }

  function ApplyReceiveExit(w: World): World
    requires Enabled(w, ReceiveExit)
  {
    var g := w.chans.exits[0];
    var h := HandleExit(w.(chans := w.chans.(exits := w.chans.exits[1..])), g);
    if w.at.Waiting? && g == w.server.generation then h.(at := StopDone(w.at.req, true)) else h
  }

  function ApplyPick(w: World): World
    requires Enabled(w, Pick)
  {
    ScanInRange(w.desk.queue, 0, None, w.server, w.flags);
    var i := Best(w.desk.queue, w.server, w.flags).value;
    w.(desk := w.desk.(queue := Without(w.desk.queue, i)), at := Dispatching(w.desk.queue[i]))
  }

  /** `shouldAutoStart`, and the start request made up when it says so. It runs after the
      scan, so a request may have come in between the two. */
  function ApplyAutoStart(w: World, within: bool): World
  {
    if w.server.phase == Stopped && w.flags.autostart && !w.flags.updating && !w.flags.modOperation && within then
      w.(desk := w.desk.(nextId := w.desk.nextId + 1),
         at := Dispatching(Request(w.desk.nextId, Start, false, false, false, false)))
    else w.(at := Loop)
  }

  function ApplyDispatch(w: World, stages: bool): World
    requires w.at.Dispatching?
  {
    var r := w.at.req;
    match r.kind
    case Start => w.(at := StartNext(r))
    case Stop => w.(at := StopNext(r))
    case RestartFactorio => w.(at := StopNext(r))
    case RestartChatWire => w.(at := StopNext(r))
    case ChangeMap =>
      if !r.staged && !stages then w.(at := Closing(r, false))
      else
        w.(at := StopNext(r.(staged := true)), flags := w.flags.(wasAuto := w.flags.autostart, autostart := false),
           desk := w.desk.(snapshots := w.desk.snapshots + {r.id}))
    case MapReset => w.(at := StopNext(r), flags := w.flags.(wasAuto := w.flags.autostart, autostart := false))
    case Unrecognized => w.(at := Closing(r, false))
  }

  function ApplyBeginStop(w: World): World
    requires w.at.StopNext?
  {
    if w.server.phase == Stopped then w.(at := StopDone(w.at.req, true))
    else
      w.(server := w.server.(phase := Stopping, progressAt := Some(w.clock), progressKind := "stop-requested"),
         at := StageNext(w.at.req, 0))
  }

  /** One turn of the loop in `waitForStop`: the deadline follows the last progress, and a
      process that is gone ends the wait. */
  function ApplyLook(w: World): World
    requires w.at.Waiting?
  {
    if !Alive(w.procs) then Finalized(w, w.server.generation).(at := StopDone(w.at.req, true))
    else w.(at := Judging(w.at.req, w.at.stage, w.at.since, Extended(w.at.deadline, w.server)))
  }

  /** The clock is read after the process was seen alive: past the deadline the stage gives
      up, and after the last stage so does the stop. */
  function ApplyJudge(w: World): World
    requires w.at.Judging?
  {
    if w.clock <= w.at.deadline then w.(at := Waiting(w.at.req, w.at.stage, w.at.since, w.at.deadline))
    else if w.at.stage < 2 then w.(at := StageNext(w.at.req, w.at.stage + 1))
    else w.(at := StopDone(w.at.req, false))
  }

  function ApplyAfterStop(w: World): World
    requires w.at.StopDone?
  {
    var r := w.at.req;
    match r.kind
    case RestartFactorio => w.(at := if w.at.ok then StartNext(r) else Closing(r, false))
    case RestartChatWire => w.(at := if w.at.ok then Following(r) else Closing(r, false))
    case ChangeMap => if w.at.ok then w.(at := Following(r)) else Restored(w, r)
    case MapReset => if w.at.ok then w.(at := Following(r)) else Restored(w, r)
    case _ => w.(at := Closing(r, w.at.ok))
  }

  /** A map change that did not go through puts the autostart flag back. */
  function Restored(w: World, r: Request): World
  {
    w.(at := Closing(r, false), flags := w.flags.(autostart := w.flags.wasAuto))
  }

  function ApplyFollowUp(w: World, ok: bool): World
    requires w.at.Following?
  {
    var r := w.at.req;
    if r.kind == RestartChatWire then w.(at := Closing(r, ok))
    else if ok then w.(at := StartNext(r), flags := w.flags.(autostart := true))
    else Restored(w, r)
  }

  function ApplyBeginStart(w: World, within: bool): World
    requires w.at.StartNext?
  {
    var r := w.at.req;
    if w.server.phase == Running || w.server.phase == Starting then w.(at := Closing(r, true))
    else if w.server.phase == Stopping || w.flags.updating || w.flags.modOperation || !within
    then w.(at := Closing(r, false))
    else
      w.(server := w.server.(phase := Starting, startedAt := Some(w.clock), progressAt := Some(w.clock),
                             progressKind := "spawn", readyAt := None, booted := false,
                             softModDetected := false, recovery := false,
                             generation := w.server.generation + 1),
         at := Launching(r))
  }

  function ApplyLaunch(w: World, ok: bool): World
    requires w.at.Launching?
  {
    var g := w.server.generation;
    if !ok then
      w.(server := w.server.(phase := Stopped, startedAt := None, booted := false), at := Closing(w.at.req, false))
    else
      w.(procs := Procs(w.procs.live + {g}, Some(g), w.procs.launched + {g}), at := Settling(w.at.req))
  }

  /** After a launch the pending update turns into an armed recovery, unless the new server
      has already answered. */
  function ApplySettle(w: World): World
    requires w.at.Settling?
  {
    w.(server := w.server.(recovery := w.flags.updatePending && w.flags.inject && !w.server.softModDetected),
       flags := w.flags.(updatePending := false),
       at := Closing(w.at.req, true))
  }

  /** The events of other goroutines, of the processes and of the clock. */
  predicate IsOutside(e: Event)
  {
    e.Tick? || e.Submit? || e.Shutdown? || e.MarkUpdated? || e.SetUpdating? || e.SetModOperation? || e.SetAutostart?
    || e.SetPlayers? || e.SetInject? || e.Die? || e.NotifyReady? || e.NotifyGoodbye? || e.NotifyExit?
    || e.NotifyProgress? || e.NotifyHealth? || e.NotifySoftMod?
  }

  function Happened(w: World, e: Event): World
    requires IsOutside(e)
  {
    match e
    case Tick(d) => w.(clock := w.clock + d)
    case Submit(kind, whenEmpty, force, waits, stages) =>
      w.(desk := Submitted(w.desk, kind, whenEmpty, force, waits, stages))
    case Shutdown => w.(desk := w.desk.(shutdown := true))
    case MarkUpdated =>
      w.(flags := w.flags.(updatePending := true), tally := w.tally.(updates := w.tally.updates + 1))
    case SetUpdating(b) => w.(flags := w.flags.(updating := b))
    case SetModOperation(b) => w.(flags := w.flags.(modOperation := b))
    case SetAutostart(b) => w.(flags := w.flags.(autostart := b))
    case SetPlayers(n) => w.(flags := w.flags.(players := n))
    case SetInject(b) => w.(flags := w.flags.(inject := b))
    case Die(g) => w.(procs := w.procs.(live := w.procs.live - {g}))
    case NotifyReady(g) => w.(chans := w.chans.(ready := Push(w.chans.ready, g, 8)))
    case NotifyGoodbye(g) => w.(chans := w.chans.(goodbye := Push(w.chans.goodbye, g, 8)))
    case NotifyExit(g) =>
      // a process reports its exit only once it was launched and is dead
      if g in w.procs.launched && g !in w.procs.live
      then w.(chans := w.chans.(exits := Push(w.chans.exits, g, 8))) else w
    case NotifyProgress(g, what) =>
      if what == "" then w
      else w.(chans := w.chans.(progress := Push(w.chans.progress, Progress(g, what, w.clock), 32)))
    case NotifyHealth(g) => w.(chans := w.chans.(health := Push(w.chans.health, g, 16)))
    case NotifySoftMod(g) =>
      if g != 0 && g == w.server.generation
      then w.(server := w.server.(softModDetected := true, recovery := false)) else w
  }

  function Managed(w: World, e: Event): World
    requires Enabled(w, e) && !IsOutside(e)
  {
    match e
    case ReceiveReady => HandleReady(w.(chans := w.chans.(ready := w.chans.ready[1..])), w.chans.ready[0])
    case ReceiveGoodbye => w.(chans := w.chans.(goodbye := w.chans.goodbye[1..]))
    case ReceiveExit => ApplyReceiveExit(w)
    case ReceiveProgress =>
      HandleProgress(w.(chans := w.chans.(progress := w.chans.progress[1..])), w.chans.progress[0])
    case ReceiveHealth => HandleHealth(w.(chans := w.chans.(health := w.chans.health[1..])), w.chans.health[0])
    case Reconcile =>
      if w.server.phase == Stopped || w.server.generation == 0 || Alive(w.procs) then w
      else Finalized(w, w.server.generation)
    case CheckStartup =>
      if !StartupTimedOut(w.server, w.clock) then w
      else w.(desk := Submitted(w.desk, RestartFactorio, false, false, false, true))
    case CheckSoftMod =>
      if !NeedsSoftModRestart(w) then w
      else w.(server := w.server.(recovery := false), desk := Enqueue(w.desk, RestartFactorio, false, false, false),
              tally := w.tally.(recoveries := w.tally.recoveries + 1))
    case Pick => ApplyPick(w)
    case FindNone => w.(at := Idle)
    case AutoStart(within) => ApplyAutoStart(w, within)
    case Quit => w.(desk := AnsweredAll(w.desk.(queue := []), w.desk.queue), at := Ended)
    case Dispatch(stages) => ApplyDispatch(w, stages)
    case BeginStop => ApplyBeginStop(w)
    case BeginStage =>
      w.(at := Waiting(w.at.req, w.at.stage, w.clock, w.clock + StageTimeout(w.at.stage)))
    case Look => ApplyLook(w)
    case Judge => ApplyJudge(w)
    case AfterStop => ApplyAfterStop(w)
    case FollowUp(ok) => ApplyFollowUp(w, ok)
    case BeginStart(within) => ApplyBeginStart(w, within)
    case Launch(ok) => ApplyLaunch(w, ok)
    case Settle => ApplySettle(w)
    case Finish => w.(desk := Answered(w.desk, w.at.req), at := Loop)
  }

  function Apply(w: World, e: Event): World
    requires Enabled(w, e)
  {
    if IsOutside(e) then Happened(w, e) else Managed(w, e)
  }

  /** The scan names a runnable request of highest priority, the earliest such one. */
  ghost predicate IsBest(queue: seq<Request>, upTo: nat, best: Option<nat>, s: Server, f: Flags)
    requires upTo <= |queue|
  {
    && (best.None? ==> forall j :: 0 <= j < upTo ==> !Runnable(queue[j], s, f))
    && (best.Some? ==>
          && best.value < upTo && Runnable(queue[best.value], s, f)
          && (forall j :: 0 <= j < upTo && Runnable(queue[j], s, f) ==>
                Priority(queue[j].kind) <= Priority(queue[best.value].kind))
          && (forall j :: 0 <= j < best.value && Runnable(queue[j], s, f) ==>
                Priority(queue[j].kind) < Priority(queue[best.value].kind)))
  }

  lemma {:induction false} ScanInRange(queue: seq<Request>, i: nat, best: Option<nat>, s: Server, f: Flags)
    requires i <= |queue| && IsBest(queue, i, best, s, f)
    ensures IsBest(queue, |queue|, Scan(queue, i, best, s, f), s, f)
    decreases |queue| - i
  {
    hide Runnable, Priority;
    if i < |queue| {
      if Runnable(queue[i], s, f) && (best.None? || Priority(queue[i].kind) > Priority(queue[best.value].kind)) {
        ScanInRange(queue, i + 1, Some(i), s, f);
      } else {
        ScanInRange(queue, i + 1, best, s, f);
      }
    }
  }

  // ---------------------------------------------------------------- invariants

  /** The server's phase, its processes and the manager's place agree. */
  ghost predicate ProcInv(s: Server, p: Procs, at: Control)
  {
    && p.live <= {s.generation}
    && p.live <= p.launched
    && (forall g :: g in p.launched ==> 1 <= g <= s.generation)
    && (s.booted ==> s.phase == Running || s.phase == Stopping)
    && (s.phase == Stopped ==> p.live == {} && !s.recovery)
    && (at.Launching? ==> s.phase == Starting && p.live == {} && p.handle == None && s.generation !in p.launched && !s.recovery)
    && (at.Settling? ==> s.phase == Starting && !s.recovery)
    && (!at.Launching? && s.phase != Stopped ==> p.handle == Some(s.generation) && s.generation in p.launched)
    && (s.phase == Stopped ==> p.handle == None)
    && (s.phase != Stopped ==> s.generation >= 1)
  }

  /** A reported exit is the exit of a process that is dead. */
  ghost predicate ExitInv(exits: seq<Generation>, p: Procs)
  {
    forall i :: 0 <= i < |exits| ==> exits[i] in p.launched && exits[i] !in p.live
  }

  /** The manager's place in the program, and the phase the server is in there. */
  ghost predicate ControlInv(at: Control, s: Server, d: Desk)
  {
    match at
    case StageNext(_, stage) => s.phase == Stopping && stage <= 2
    case Waiting(_, stage, since, deadline) =>
      s.phase == Stopping && stage <= 2 && deadline >= since + StageTimeout(stage)
    case Judging(_, stage, since, deadline) =>
      && s.phase == Stopping && stage <= 2 && deadline >= since + StageTimeout(stage)
      && Extended(deadline, s) == deadline
    case StopDone(_, ok) => if ok then s.phase == Stopped else s.phase == Stopping
    case Following(r) => s.phase == Stopped && (r.kind == RestartChatWire || r.kind == ChangeMap || r.kind == MapReset)
    case StartNext(r) => r.kind == Start || s.phase == Stopped
    case Ended => d.queue == [] && d.shutdown
    case _ => true
  }

  /** A stage's deadline comes from its own timeout or from progress of this generation. */
  ghost predicate DeadlineInv(at: Control, s: Server, observed: set<Progress>)
  {
    && (s.progressAt.Some? && ExtendsStop(s.progressKind) ==>
          Progress(s.generation, s.progressKind, s.progressAt.value) in observed)
    && (at.Waiting? || at.Judging? ==>
          || at.deadline == at.since + StageTimeout(at.stage)
          || exists p :: p in observed && p.generation == s.generation && ExtendsStop(p.kind)
                         && at.deadline == p.at + (if p.kind == "save" then STOP_SAVE else STOP_IDLE))
  }

  function Executing(at: Control): Option<Request>
  {
    match at
    case Loop => None
    case Idle => None
    case Ended => None
    case _ => Some(at.req)
  }

  /** The requests the manager holds: queued or in its hands. */
  ghost predicate Holds(d: Desk, at: Control, id: RequestId)
  {
    || (exists i :: 0 <= i < |d.queue| && d.queue[i].id == id)
    || (Executing(at).Some? && Executing(at).value.id == id)
  }

  /** No two requests the manager holds are the same, and identifiers only grow. */
  ghost predicate HeldInv(d: Desk, at: Control)
  {
    && (forall i, j :: 0 <= i < j < |d.queue| ==> d.queue[i].id != d.queue[j].id)
    && (forall i :: 0 <= i < |d.queue| ==> d.queue[i].id < d.nextId)
    && (Executing(at).Some? ==>
          && Executing(at).value.id < d.nextId
          && forall i :: 0 <= i < |d.queue| ==> d.queue[i].id != Executing(at).value.id)
  }

  /** A request somebody waits for is answered once it is no longer held, and only once. */
  ghost predicate AnswerInv(d: Desk, at: Control)
  {
    && (forall i :: 0 <= i < |d.queue| ==> (d.queue[i].waits <==> d.queue[i].id in d.waiting))
    && (Executing(at).Some? ==> (Executing(at).value.waits <==> Executing(at).value.id in d.waiting))
    && (forall id :: id in d.waiting ==> id < d.nextId)
    && (forall id :: d.answered[id] == if id in d.waiting && !Holds(d, at, id) then 1 else 0)
  }

  /** A staged file exists exactly while its request is held. */
  ghost predicate SnapshotInv(d: Desk, at: Control)
  {
    && (forall i :: 0 <= i < |d.queue| ==> (d.queue[i].staged <==> d.queue[i].id in d.snapshots))
    && (Executing(at).Some? ==> (Executing(at).value.staged <==> Executing(at).value.id in d.snapshots))
    && (forall id :: id in d.snapshots ==> Holds(d, at, id))
  }

  ghost predicate DeskInv(d: Desk, at: Control)
  {
    HeldInv(d, at) && AnswerInv(d, at) && SnapshotInv(d, at)
  }

  function AsNat(b: bool): nat { if b then 1 else 0 }

  /** Recovery tokens: what was spent and what is still around came from updates. */
  ghost predicate TokenInv(s: Server, f: Flags, t: Tally)
  {
    t.recoveries + AsNat(s.recovery) + AsNat(f.updatePending) <= t.updates
  }

  ghost predicate Inv(w: World)
  {
    && ProcInv(w.server, w.procs, w.at)
    && ExitInv(w.chans.exits, w.procs)
    && ControlInv(w.at, w.server, w.desk)
    && DeadlineInv(w.at, w.server, w.tally.observed)
    && DeskInv(w.desk, w.at)
    && TokenInv(w.server, w.flags, w.tally)
  }
}
