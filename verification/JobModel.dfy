/** The idempotent job store (`webcontrol/jobs.go`) as a state machine.

    A world holds what the process keeps in memory, what the directory shows, what of the
    directory would survive a power cut, and history that exists only to state theorems.
    Every mutex-protected section of the program is one event; the worker goroutine of a
    job is the events Begin, Report, Finish and Exit, which other events interleave with
    freely. A save may succeed, fail and leave the file alone, or fail after the rename. */
module JobModel {
  import opened Wrappers
  import opened Sets

  type Id = string
  type Key = string
  type Hash = string
  type Time = int

  datatype Actor = Actor(id: string, name: string, admin: bool)

  datatype Status =
    | Queued | Running | WaitingForEmpty | WaitingForRestart | Succeeded | Failed | Unknown

  datatype Job = Job(
    id: Id, server: string, actor: Actor, action: string, state: Status, phase: string,
    createdAt: Time, updatedAt: Time, result: string, error: string, key: Key, hash: Hash)

  datatype Request = Request(server: string, actor: Actor, action: string, key: string, payload: string)

  const CHATWIRE_RESTART: string := "chatwire-restart"
  const STORAGE_ERROR: string := "storage_error"
  const OUTCOME_LOST: string := "Unable to persist operation outcome; inspect instance logs before retrying."

  /** Digest is collision free, so a digest is represented by the string it was taken of. */
  function KeyOf(r: Request): Key
  {
    r.actor.id + "\0" + r.server + "\0" + r.key
  }

  function HashOf(r: Request): Hash
  {
    r.action + "\0" + r.payload
  }

  predicate ValidId(s: string)
  {
    && 0 < |s| <= 80
    && forall i :: 0 <= i < |s| ==>
         'a' <= s[i] <= 'z' || 'A' <= s[i] <= 'Z' || '0' <= s[i] <= '9' || s[i] == '-' || s[i] == '_'
  }

  /** How a call of `save` ends: done and synced, failed with the file as it was, or failed
      after the rename because the directory could not be synced. */
  datatype SaveOutcome = Saved | NotSaved | NotSynced

  /** How an operation ends. */
  datatype Return = Success(result: string) | Failure(msg: string) | Uncertain(msg: string) | Panic

  /** Where the worker goroutine of a job is. */
  datatype Worker = Accepted | NotStarted | Executing | Finished

  datatype Memory = Memory(items: map<Id, Job>, keys: map<Key, Id>, busy: Option<Id>, pending: set<Id>)

  /** `files` is what the directory shows, `synced` what it showed when it was last synced,
      and `between` the records that were renamed into it since: a power cut may leave any of
      them. */
  datatype Disk = Disk(files: map<Id, Job>, synced: map<Id, Job>, between: set<Job>)

  datatype History = History(
    workers: map<Id, Worker>,
    runs: multiset<Key>,        // operations invoked
    returned: set<Id>,          // operations that returned without error
    checkpoints: set<Id>,       // jobs whose restart checkpoint was written
    torn: set<Id>,              // jobs whose last successful rename was reported as a failure
    orphans: set<Id>,           // refused acceptances that left a file behind
    accepted: map<Key, Job>,    // acceptances answered with 202
    drawn: set<Id>)             // identifiers ever generated

  datatype World = World(up: bool, mem: Memory, disk: Disk, hist: History)

  datatype Event =
    | Start(req: Request, id: Id, now: Time, order: seq<Id>, repairs: map<Id, SaveOutcome>, accept: SaveOutcome)
    | Begin(id: Id, now: Time, outcome: SaveOutcome)
    | Report(id: Id, state: Status, phase: string, result: string, error: string, now: Time, outcome: SaveOutcome)
    | Finish(id: Id, ret: Return, now: Time, outcome: SaveOutcome)
    | Exit(id: Id)
    | Crash(lost: set<Id>, kept: map<Id, Job>)
    | Recover(order: seq<Id>, saves: map<Id, SaveOutcome>, now: Time)

  const NO_MEMORY := Memory(map[], map[], None, {})

  const EMPTY := World(false, NO_MEMORY, Disk(map[], map[], {}),
                       History(map[], multiset{}, {}, {}, {}, {}, map[], {}))

  // ------------------------------------------------------------------ storage

  /** `save`: a successful save syncs the directory, and with it every earlier rename. */
  function Save(w: World, v: Job, o: SaveOutcome): World
  {
    match o
    case NotSaved => w
    case NotSynced =>
      w.(disk := w.disk.(files := w.disk.files[v.id := v], between := w.disk.between + {v}),
         hist := w.hist.(torn := w.hist.torn + {v.id}, checkpoints := Checkpoints(w.hist, v)))
    case Saved =>
      var files := w.disk.files[v.id := v];
      w.(disk := Disk(files, files, {}),
         hist := w.hist.(torn := w.hist.torn - {v.id}, checkpoints := Checkpoints(w.hist, v)))
  }

  function Checkpoints(h: History, v: Job): set<Id>
  {
    if v.state == WaitingForRestart && v.action == CHATWIRE_RESTART
    then h.checkpoints + {v.id} else h.checkpoints
  }

  function OutcomeOf(m: map<Id, SaveOutcome>, id: Id): SaveOutcome
  {
    if id in m then m[id] else Saved
  }

  // -------------------------------------------------------------------- Start

  /** Saves the pending outcomes again in `order`, up to the first failure. */
  function Repair(w: World, order: seq<Id>, outcomes: map<Id, SaveOutcome>): (World, bool)
    decreases |order|
  {
    if order == [] || order[0] !in w.mem.items then (w, true)
    else
      var id := order[0];
      var o := OutcomeOf(outcomes, id);
      var saved := Save(w, w.mem.items[id], o);
      if o != Saved then (saved, false)
      else Repair(saved.(mem := saved.mem.(pending := saved.mem.pending - {id})), order[1..], outcomes)
  }

  function NewJob(r: Request, id: Id, now: Time): Job
  {
    Job(id, r.server, r.actor, r.action, Queued, "accepted", now, now, "", "", KeyOf(r), HashOf(r))
  }

  function ApplyStart(w: World, e: Event): World
    requires e.Start?
  {
    if KeyOf(e.req) in w.mem.keys || w.mem.busy.Some? then w
    else
      var (repaired, ok) := Repair(w, e.order, e.repairs);
      if !ok then repaired
      else Accept(repaired, NewJob(e.req, e.id, e.now), e.accept)
  }

  function Accept(w: World, v: Job, o: SaveOutcome): World
  {
    var drawn := w.(hist := w.hist.(drawn := w.hist.drawn + {v.id}));
    var saved := Save(drawn, v, o);
    match o
    case NotSaved => saved
    case NotSynced => saved.(hist := saved.hist.(orphans := saved.hist.orphans + {v.id}))
    case Saved =>
      saved.(mem := saved.mem.(items := saved.mem.items[v.id := v],
                               keys := saved.mem.keys[v.key := v.id],
                               busy := Some(v.id)),
             hist := saved.hist.(workers := saved.hist.workers[v.id := Accepted],
                                 accepted := saved.hist.accepted[v.key := v]))
  }

  datatype Answer = Conflict | Busy | Unavailable | NotPersisted | Known(job: Job) | Started(job: Job)

  function AnswerTo(w: World, e: Event): Answer
    requires e.Start?
  {
    var k := KeyOf(e.req);
    if k in w.mem.keys && w.mem.keys[k] in w.mem.items then
      var v := w.mem.items[w.mem.keys[k]];
      if v.hash != HashOf(e.req) then Conflict else Known(v)
    else if w.mem.busy.Some? then Busy
    else if !Repair(w, e.order, e.repairs).1 then Unavailable
    else if e.accept != Saved then NotPersisted
    else Started(NewJob(e.req, e.id, e.now))
  }

  // ------------------------------------------------------------------- worker

  function Amended(v: Job, state: Status, phase: string, result: string, error: string, now: Time): Job
  {
    v.(state := state, phase := phase, result := result, error := error, updatedAt := now)
  }

  /** `Update`: memory follows the disk only when the save succeeds. */
  function Update(w: World, id: Id, state: Status, phase: string, result: string, error: string,
                  now: Time, o: SaveOutcome): World
    requires id in w.mem.items
  {
    var v := Amended(w.mem.items[id], state, phase, result, error, now);
    var saved := Save(w, v, o);
    if o != Saved then saved
    else saved.(mem := saved.mem.(items := saved.mem.items[id := v]))
  }

  function SetWorker(w: World, id: Id, at: Worker): World
  {
    w.(hist := w.hist.(workers := w.hist.workers[id := at]))
  }

  function ApplyBegin(w: World, e: Event): World
    requires e.Begin? && e.id in w.mem.items
  {
    var updated := Update(w, e.id, Running, "executing", "", "", e.now, e.outcome);
    if e.outcome != Saved then SetWorker(updated, e.id, NotStarted)
    else
      var invoked := SetWorker(updated, e.id, Executing);
      invoked.(hist := invoked.hist.(runs := invoked.hist.runs + multiset{w.mem.items[e.id].key}))
  }

  /** What `finish` is asked to record for a worker that is about to leave. */
  function Verdict(at: Worker, ret: Return): (Status, string, string, string)
  {
    if at == NotStarted then
      (Failed, STORAGE_ERROR, "", "Operation was not executed because its start could not be persisted.")
    else
      match ret
      case Success(result) => (Succeeded, "complete", result, "")
      case Failure(msg) => (Failed, "complete", "", msg)
      case Uncertain(msg) => (Unknown, "complete", "", msg)
      case Panic => (Unknown, "interrupted", "",
                     "Operation interrupted; inspect instance logs before retrying.")
  }

  function ApplyFinish(w: World, e: Event): World
    requires e.Finish? && e.id in w.mem.items && e.id in w.hist.workers
  {
    var (state, phase, result, msg) := Verdict(w.hist.workers[e.id], e.ret);
    var v := Amended(w.mem.items[e.id], state, phase, result, msg, e.now);
    var returned := if w.hist.workers[e.id] == Executing && e.ret.Success?
                    then w.hist.returned + {e.id} else w.hist.returned;
    var saved := Save(w.(hist := w.hist.(returned := returned)), v, e.outcome);
    var done := SetWorker(saved, e.id, Finished);
    if e.outcome == Saved then
      done.(mem := done.mem.(items := done.mem.items[e.id := v]))
    else
      var kept := v.(state := if phase == STORAGE_ERROR then v.state else Unknown,
                     phase := STORAGE_ERROR, result := "",
                     error := if phase == STORAGE_ERROR then msg else OUTCOME_LOST);
      done.(mem := done.mem.(items := done.mem.items[e.id := kept],
                             pending := done.mem.pending + {e.id}))
  }

  function ApplyExit(w: World, e: Event): World
    requires e.Exit?
  {
    var left := w.(hist := w.hist.(workers := w.hist.workers - {e.id}));
    if w.mem.busy == Some(e.id) then left.(mem := left.mem.(busy := None)) else left
  }

  // ---------------------------------------------------------- crash, recovery

  /** The directory after a crash. An entry in `lost` falls back, to a record renamed since the
      last sync when `kept` names one, and otherwise to what was synced, if anything. */
  function Fallen(d: Disk, lost: set<Id>, kept: map<Id, Job>): map<Id, Job>
  {
    map id | id in d.files && (id in lost ==> id in kept || id in d.synced) ::
      if id !in lost then d.files[id] else if id in kept then kept[id] else d.synced[id]
  }

  /** The process dies, or the power is cut. */
  function ApplyCrash(w: World, e: Event): World
    requires e.Crash?
  {
    var files := Fallen(w.disk, e.lost, e.kept);
    World(false, NO_MEMORY, Disk(files, w.disk.synced, set v | v in w.disk.between && v.id in files),
          w.hist.(workers := map[], torn := {}))
  }

  /** How `NewJobs` reads one record, and whether it writes it back. */
  function Recovered(v: Job, now: Time): Job
  {
    if v.state == Queued || v.state == Running || v.state == WaitingForEmpty then
      v.(state := Unknown, error := "Instance restarted; operation was not replayed.", updatedAt := now)
    else if v.state == WaitingForRestart && v.action == CHATWIRE_RESTART then
      v.(state := Succeeded, phase := "reconnected", updatedAt := now,
         result := "new ChatWire process started")
    else v
  }

  predicate NeedsRecovery(v: Job)
  {
    || v.state == Queued || v.state == Running || v.state == WaitingForEmpty
    || (v.state == WaitingForRestart && v.action == CHATWIRE_RESTART)
  }

  /** Loads the files in `order`, up to the first failure, which leaves the process down. */
  function Load(w: World, order: seq<Id>, saves: map<Id, SaveOutcome>, now: Time): World
    decreases |order|
  {
    if order == [] then w.(up := true)
    else if order[0] !in w.disk.files || !ValidId(order[0]) then w
    else
      var id := order[0];
      var v := Recovered(w.disk.files[id], now);
      if NeedsRecovery(w.disk.files[id]) && OutcomeOf(saves, id) != Saved then
        Save(w, v, OutcomeOf(saves, id))
      else
        var saved := if NeedsRecovery(w.disk.files[id]) then Save(w, v, Saved) else w;
        Load(saved.(mem := saved.mem.(items := saved.mem.items[id := v],
                                      keys := saved.mem.keys[v.key := id])),
             order[1..], saves, now)
  }

  function ApplyRecover(w: World, e: Event): World
    requires e.Recover?
  {
    var loaded := Load(w, e.order, e.saves, e.now);
    if loaded.up then loaded
    else loaded.(mem := NO_MEMORY, hist := loaded.hist.(torn := {}))
  }

  // --------------------------------------------------------------------- runs

  /** What the environment may do in a world: draw unused identifiers, let an operation
      report only the states the program reports, and list each file once. */
  ghost predicate Enabled(w: World, e: Event)
  {
    match e
    case Start(_, id, _, order, _, _) =>
      w.up && ValidId(id) && id !in w.hist.drawn && IsOrder(order, w.mem.pending)
    case Begin(id, _, _) => w.up && id in w.hist.workers && w.hist.workers[id] == Accepted
    case Report(id, state, _, _, _, _, _) =>
      && w.up && id in w.hist.workers && w.hist.workers[id] == Executing
      && state in {Running, WaitingForEmpty, WaitingForRestart}
    case Finish(id, _, _, _) =>
      w.up && id in w.hist.workers && w.hist.workers[id] in {NotStarted, Executing}
    case Exit(id) => w.up && id in w.hist.workers && w.hist.workers[id] == Finished
    case Crash(_, kept) => forall id :: id in kept ==> kept[id] in w.disk.between && kept[id].id == id
    case Recover(order, _, _) => !w.up && IsOrder(order, w.disk.files.Keys)
  }

  ghost function Apply(w: World, e: Event): World
    requires Enabled(w, e) && Inv(w)
  {
    match e
    case Start(_, _, _, _, _, _) => ApplyStart(w, e)
    case Begin(_, _, _) => ApplyBegin(w, e)
    case Report(id, state, phase, result, error, now, o) => Update(w, id, state, phase, result, error, now, o)
    case Finish(_, _, _, _) => ApplyFinish(w, e)
    case Exit(_) => ApplyExit(w, e)
    case Crash(_, _) => ApplyCrash(w, e)
    case Recover(_, _, _) => ApplyRecover(w, e)
  }

  // --------------------------------------------------------------- invariants

  /** Two records of one job never differ in what identifies the request. */
  predicate SameRequest(a: Job, b: Job)
  {
    a.id == b.id && a.key == b.key && a.hash == b.hash && a.action == b.action
  }

  ghost predicate DiskInv(d: Disk, drawn: set<Id>, orphans: set<Id>)
  {
    && (forall id :: id in d.files ==> d.files[id].id == id && ValidId(id))
    && (forall id :: id in d.synced ==> id in d.files && SameRequest(d.synced[id], d.files[id]))
    && (forall v :: v in d.between ==> v.id in d.files && SameRequest(v, d.files[v.id]))
    && d.files.Keys <= drawn
    && orphans <= drawn
  }

  ghost predicate MemoryInv(m: Memory, files: map<Id, Job>)
  {
    && (forall id :: id in m.items ==> id in files && SameRequest(m.items[id], files[id]))
    && (forall k :: k in m.keys ==> m.keys[k] in m.items && m.items[m.keys[k]].key == k)
    && (forall id :: id in m.items ==> m.items[id].key in m.keys)
    && m.pending <= m.items.Keys
  }

  /** While the process is down it remembers nothing. */
  ghost predicate DownInv(w: World)
  {
    !w.up ==> w.mem == NO_MEMORY && w.hist.workers == map[] && w.hist.torn == {}
  }

  /** At most one worker, and it is the busy one. */
  ghost predicate WorkerInv(workers: map<Id, Worker>, m: Memory, runs: multiset<Key>, synced: set<Id>)
  {
    && workers.Keys == (if m.busy.Some? then {m.busy.value} else {})
    && (forall id :: id in workers ==> id in m.items && id in synced)
    && (forall id :: id in workers && workers[id] != Finished ==> id !in m.pending)
    && (forall id :: id in workers && workers[id] == Accepted ==> runs[m.items[id].key] == 0)
  }

  /** An operation that was ever invoked is remembered on disk and, while up, in memory. */
  ghost predicate RunInv(runs: multiset<Key>, synced: map<Id, Job>, up: bool, keys: map<Key, Id>)
  {
    forall k :: runs[k] > 0 ==>
      && runs[k] == 1
      && (exists id :: id in synced && synced[id].key == k)
      && (up ==> k in keys)
  }

  /** Memory and disk agree on every job that is neither excused nor torn. */
  ghost predicate AgreeInv(items: map<Id, Job>, files: map<Id, Job>, excused: set<Id>)
  {
    forall id :: id in items && id !in excused ==> id in files && files[id] == items[id]
  }

  /** A job recorded as succeeded did return without error, or had its restart
      checkpoint written first. */
  predicate Earned(returned: set<Id>, checkpoints: set<Id>, v: Job)
  {
    && (v.state == Succeeded ==> v.id in returned || v.id in checkpoints)
    && (v.state == WaitingForRestart && v.action == CHATWIRE_RESTART ==> v.id in checkpoints)
  }

  ghost predicate EarnedInv(records: map<Id, Job>, returned: set<Id>, checkpoints: set<Id>)
  {
    forall id :: id in records ==> Earned(returned, checkpoints, records[id])
  }

  ghost predicate EarnedAll(records: set<Job>, returned: set<Id>, checkpoints: set<Id>)
  {
    forall v :: v in records ==> Earned(returned, checkpoints, v)
  }

  /** Every accepted job keeps its file, and every other file is an orphan. */
  ghost predicate IndexInv(accepted: map<Key, Job>, orphans: set<Id>, d: Disk)
  {
    && (forall k :: k in accepted ==>
          && accepted[k].key == k
          && accepted[k].id !in orphans
          && accepted[k].id in d.synced
          && SameRequest(d.synced[accepted[k].id], accepted[k]))
    && (forall id :: id in d.files && id !in orphans ==>
          d.files[id].key in accepted && accepted[d.files[id].key].id == id)
  }

  ghost predicate LoadedInv(accepted: map<Key, Job>, up: bool, items: map<Id, Job>)
  {
    up ==> forall k :: k in accepted ==> accepted[k].id in items
  }

  /** The invariant, where memory and disk need not agree on the jobs in `but`. */
  ghost predicate InvBut(w: World, but: set<Id>)
  {
    && DiskInv(w.disk, w.hist.drawn, w.hist.orphans)
    && MemoryInv(w.mem, w.disk.files)
    && DownInv(w)
    && WorkerInv(w.hist.workers, w.mem, w.hist.runs, w.disk.synced.Keys)
    && RunInv(w.hist.runs, w.disk.synced, w.up, w.mem.keys)
    && AgreeInv(w.mem.items, w.disk.files, w.mem.pending + w.hist.torn + but)
    && EarnedInv(w.disk.files, w.hist.returned, w.hist.checkpoints)
    && EarnedInv(w.disk.synced, w.hist.returned, w.hist.checkpoints)
    && EarnedAll(w.disk.between, w.hist.returned, w.hist.checkpoints)
    && EarnedInv(w.mem.items, w.hist.returned, w.hist.checkpoints)
    && IndexInv(w.hist.accepted, w.hist.orphans, w.disk)
    && LoadedInv(w.hist.accepted, w.up, w.mem.items)
  }

  ghost predicate Inv(w: World)
  {
    InvBut(w, {})
  }
}
