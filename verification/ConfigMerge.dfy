/** Processes that share a configuration file with a web editor (`cfg/web_settings.go`).

    A process writes its settings by a three-way merge: what it has not changed since its
    own last write or reload gives way to what is on disk. Several goroutines of a process
    may write and reload at once; each copies the settings first and takes the mutex of the
    files only then, so the copy may be old when it is merged.

    The reference below never mentions the merge or its baselines: it reads off a log of
    what was edited, assigned, loaded, copied and written which value each field ought to
    have. */
module ConfigMerge {
  import opened Wrappers
  import opened Sets
  import opened Dotted
  import opened ConfigTree
  import opened ConfigFlatten

  function Lookup(f: Flat, key: string): Option<Value>
  {
    if key in f then Some(f[key]) else None
  }

  /** A missing key of a Go map reads as nil. */
  function OrNull(f: Flat, key: string): Value
  {
    if key in f then f[key] else Null
  }

  /** The values `writeConfigMerged` writes: `copy` is what the settings were before it took the
      mutex, `base` and `disk` what it finds under it. */
  function Merged(copy: Flat, base: Option<Flat>, disk: Option<Flat>): Flat
  {
    if base.None? || disk.None? then copy
    else
      map key | key in copy.Keys + disk.value.Keys ::
        if key in copy && !(copy[key] == OrNull(base.value, key) && key in disk.value) then copy[key]
        else disk.value[key]
  }

  // ------------------------------------------------------------------ the machine

  /** Settings as they were at some place in the log. */
  datatype Moment = Moment(values: Flat, at: int)

  /** A write or a reload between its copy of the settings and its turn at the mutex. */
  datatype Flight = Flight(copy: Moment, remembers: bool)

  /** The settings of a process, the baseline it remembers, and what is under way in it. */
  datatype Proc = Proc(runtime: Flat, base: Option<Flat>, flights: map<nat, Flight>)

  datatype Deed =
    | Assigned(pid: nat, key: string, value: Value)
    | Loaded(pid: nat, runtime: Flat)
    | Copied(pid: nat, ticket: nat)
    | Remembered(pid: nat, ticket: nat)
    | Wrote(pid: nat, ticket: nat)
    | Edited(patch: Flat)

  datatype World = World(
    procs: seq<Proc>, file: Object, schema: set<string>, initial: Flat, start: seq<Flat>, log: seq<Deed>)

  /** `Load` is the part of a reload that replaces the settings. `Copy` is how `rememberConfig`
      and `writeConfigMerged` begin; `Remember` and `Write` are what they do under the mutex. */
  datatype Event =
    | Assign(pid: nat, key: string, value: Value)
    | Load(pid: nat, runtime: Flat)
    | Copy(pid: nat, ticket: nat, remembers: bool)
    | Remember(pid: nat, ticket: nat)
    | Write(pid: nat, ticket: nat, order: seq<string>, ok: bool)
    | Edit(patch: Flat, expected: Flat, order: seq<string>, ok: bool)

  ghost function Disk(w: World): Flat
  {
    FlatOf(w.file)
  }

  ghost predicate InFlight(w: World, p: nat, t: nat, remembers: bool)
  {
    p < |w.procs| && t in w.procs[p].flights && w.procs[p].flights[t].remembers == remembers
  }

  ghost function ToWrite(w: World, p: nat, t: nat): Flat
    requires InFlight(w, p, t, false)
  {
    Merged(w.procs[p].flights[t].copy.values, w.procs[p].base, Some(Disk(w)))
  }

  /** Settings have a fixed set of fields; the web editor changes only those. Loading
      decodes the file and then normalizes what it found, so it may give any values. */
  ghost predicate Enabled(w: World, e: Event)
  {
    match e
    case Assign(p, key, _) => p < |w.procs| && key in w.schema
    case Load(p, runtime) => p < |w.procs| && runtime.Keys == w.schema
    case Copy(p, t, _) => p < |w.procs| && t !in w.procs[p].flights
    case Remember(p, t) => InFlight(w, p, t, true)
    case Write(p, t, order, _) => InFlight(w, p, t, false) && IsOrder(order, ToWrite(w, p, t).Keys)
    case Edit(patch, _, order, _) => patch.Keys <= w.schema && IsOrder(order, (Disk(w) + patch).Keys)
  }

  /** The end of a flight; unless it failed its copy is what the process then remembers. */
  function Landed(x: Proc, t: nat, done: bool): Proc
    requires t in x.flights
  {
    x.(base := if done then Some(x.flights[t].copy.values) else x.base, flights := x.flights - {t})
  }

  /** A write that fails, or that panics in `unflatten`, leaves the file as it was; an edit
      is refused unless it was based on the revision the file still has. */
  ghost function Apply(w: World, e: Event): World
    requires Enabled(w, e)
  {
    match e
    case Assign(p, key, v) =>
      w.(procs := w.procs[p := w.procs[p].(runtime := w.procs[p].runtime[key := v])], log := w.log + [Assigned(p, key, v)])
    case Load(p, runtime) =>
      w.(procs := w.procs[p := w.procs[p].(runtime := runtime)], log := w.log + [Loaded(p, runtime)])
    case Copy(p, t, remembers) =>
      var f := Flight(Moment(w.procs[p].runtime, |w.log|), remembers);
      w.(procs := w.procs[p := w.procs[p].(flights := w.procs[p].flights[t := f])], log := w.log + [Copied(p, t)])
    case Remember(p, t) =>
      w.(procs := w.procs[p := Landed(w.procs[p], t, true)], log := w.log + [Remembered(p, t)])
    case Write(p, t, order, ok) =>
      var r := Unflatten(ToWrite(w, p, t), order, map[]);
      if !ok || r.None? then w.(procs := w.procs[p := Landed(w.procs[p], t, false)])
      else
        w.(file := r.value, procs := w.procs[p := Landed(w.procs[p], t, true)], log := w.log + [Wrote(p, t)])
    case Edit(patch, expected, order, ok) =>
      var r := Unflatten(Disk(w) + patch, order, map[]);
      if !ok || expected != Disk(w) || r.None? then w
      else w.(file := r.value, log := w.log + [Edited(patch)])
  }

  ghost predicate Possible(w: World, es: seq<Event>)
    decreases |es|
  {
    es == [] || (Enabled(w, es[0]) && Possible(Apply(w, es[0]), es[1..]))
  }

  ghost function Run(w: World, es: seq<Event>): World
    requires Possible(w, es)
    decreases |es|
  {
    if es == [] then w else Run(Apply(w, es[0]), es[1..])
  }

  /** Every process has loaded the file, and the paths of the fields and of the file do not
      get in each other's way. */
  ghost predicate Initial(w: World)
  {
    && w.log == [] && w.initial == Disk(w)
    && Sound(w.schema + w.initial.Keys)
    && |w.start| == |w.procs|
    && forall p :: 0 <= p < |w.procs| ==>
         w.start[p].Keys == w.schema && w.procs[p] == Proc(w.start[p], Some(w.start[p]), map[])
  }

  ghost predicate Reachable(w: World)
  {
    exists w0, es :: Initial(w0) && Possible(w0, es) && Run(w0, es) == w
  }

  // ---------------------------------------------------------------- the reference

  /** The settings of a process, from what was assigned and loaded. */
  function RuntimeOf(start: Flat, log: seq<Deed>, p: nat): Flat
    decreases |log|
  {
    if log == [] then start
    else
      var before := RuntimeOf(start, log[..|log| - 1], p);
      match log[|log| - 1]
      case Assigned(q, key, v) => if q == p then before[key := v] else before
      case Loaded(q, runtime) => if q == p then runtime else before
      case _ => before
  }

  /** The copy a flight carries: the settings as they were when it last took off. */
  function CopyOf(start: Flat, log: seq<Deed>, p: nat, t: nat): Moment
    decreases |log|
  {
    if log == [] then Moment(start, -1)
    else
      var rest := log[..|log| - 1];
      if log[|log| - 1] == Copied(p, t) then Moment(RuntimeOf(start, rest, p), |rest|) else CopyOf(start, rest, p, t)
  }

  /** The copy that the process put away last, by writing it or by remembering it. */
  function SyncedOf(start: Flat, log: seq<Deed>, p: nat): Flat
    decreases |log|
  {
    if log == [] then start
    else
      var rest := log[..|log| - 1];
      match log[|log| - 1]
      case Wrote(q, t) => if q == p then CopyOf(start, rest, p, t).values else SyncedOf(start, rest, p)
      case Remembered(q, t) => if q == p then CopyOf(start, rest, p, t).values else SyncedOf(start, rest, p)
      case _ => SyncedOf(start, rest, p)
  }

  /** The newest settings of a process that were loaded from the file or written to it:
      newest by when they were loaded or copied, whenever they were written. */
  function NewestOf(start: Flat, log: seq<Deed>, p: nat): Moment
    decreases |log|
  {
    if log == [] then Moment(start, -1)
    else
      var rest := log[..|log| - 1];
      var before := NewestOf(start, rest, p);
      match log[|log| - 1]
      case Loaded(q, runtime) => if q == p then Moment(runtime, |rest|) else before
      case Wrote(q, t) => if q == p && CopyOf(start, rest, p, t).at > before.at then CopyOf(start, rest, p, t) else before
      case _ => before
  }

  /** A copy holds a change of the field: it was made after the newest settings that were
      loaded or written, and differs from them. */
  predicate Changed(copy: Moment, newest: Moment, key: string)
  {
    copy.at > newest.at && Lookup(copy.values, key) != Lookup(newest.values, key)
  }

  /** The value a field ought to have on disk: that of the last web edit of it, or of the
      last write of a copy that held a change of it, whichever came last; a field the file
      does not have yet takes the value of the first write. */
  function Latest(start: seq<Flat>, initial: Flat, log: seq<Deed>, key: string): Option<Value>
    decreases |log|
  {
    if log == [] then Lookup(initial, key)
    else
      var rest := log[..|log| - 1];
      var before := Latest(start, initial, rest, key);
      match log[|log| - 1]
      case Edited(patch) => if key in patch then Some(patch[key]) else before
      case Wrote(p, t) =>
        if p < |start| && key in CopyOf(start[p], rest, p, t).values
           && (before.None? || Changed(CopyOf(start[p], rest, p, t), NewestOf(start[p], rest, p), key))
        then Some(CopyOf(start[p], rest, p, t).values[key]) else before
      case _ => before
  }

  // --------------------------------------------------------------- the invariant

  ghost predicate FlightsInv(flights: map<nat, Flight>, p: nat, start: Flat, schema: set<string>, log: seq<Deed>)
  {
    forall t :: t in flights ==> flights[t].copy == CopyOf(start, log, p, t) && flights[t].copy.values.Keys == schema
  }

  ghost predicate ProcInv(x: Proc, p: nat, start: Flat, schema: set<string>, log: seq<Deed>)
  {
    && x.runtime == RuntimeOf(start, log, p)
    && x.base == Some(SyncedOf(start, log, p))
    && x.runtime.Keys == schema
    && x.base.value.Keys == schema
    && FlightsInv(x.flights, p, start, schema, log)
  }

  ghost predicate ProcsInv(procs: seq<Proc>, start: seq<Flat>, schema: set<string>, log: seq<Deed>)
  {
    |start| == |procs| && forall p :: 0 <= p < |procs| ==> ProcInv(procs[p], p, start[p], schema, log)
  }

  ghost predicate DiskInv(disk: Flat, initial: Flat, schema: set<string>)
  {
    && Sound(schema + initial.Keys)
    && initial.Keys <= disk.Keys <= schema + initial.Keys
  }

  ghost predicate Inv(w: World)
  {
    ProcsInv(w.procs, w.start, w.schema, w.log) && DiskInv(Disk(w), w.initial, w.schema)
  }

  lemma SoundSubset(some: set<string>, all: set<string>)
    requires some <= all && Sound(all)
    ensures Sound(some)
  {
  }

  /** What is written is what the file then reads as. */
  lemma WrittenIsRead(values: Flat, order: seq<string>)
    requires Sound(values.Keys) && IsOrder(order, values.Keys)
    ensures Unflatten(values, order, map[]).Some? && FlatOf(Unflatten(values, order, map[]).value) == values
  {
    SoundValuesComeBack(values, order);
  }

  lemma LastDeed(log: seq<Deed>, d: Deed)
    ensures (log + [d])[..|log + [d]| - 1] == log && (log + [d])[|log + [d]| - 1] == d
  {
  }

  /** What a deed does to the process it belongs to; `remembers` is for a copy. */
  function After(x: Proc, p: nat, d: Deed, remembers: bool, now: nat): Proc
  {
    match d
    case Assigned(q, key, v) => if q == p then x.(runtime := x.runtime[key := v]) else x
    case Loaded(q, runtime) => if q == p then x.(runtime := runtime) else x
    case Copied(q, t) => if q == p then x.(flights := x.flights[t := Flight(Moment(x.runtime, now), remembers)]) else x
    case Remembered(q, t) => if q == p && t in x.flights then Landed(x, t, true) else x
    case Wrote(q, t) => if q == p && t in x.flights then Landed(x, t, true) else x
    case Edited(_) => x
  }

  predicate Fits(x: Proc, p: nat, d: Deed, schema: set<string>)
  {
    match d
    case Assigned(q, key, _) => q == p ==> key in schema
    case Loaded(q, runtime) => q == p ==> runtime.Keys == schema
    case Remembered(q, t) => q == p ==> t in x.flights
    case Wrote(q, t) => q == p ==> t in x.flights
    case _ => true
  }

  lemma FlightsStep(x: Proc, p: nat, start: Flat, schema: set<string>, log: seq<Deed>, d: Deed, remembers: bool)
    requires ProcInv(x, p, start, schema, log)
    ensures FlightsInv(After(x, p, d, remembers, |log|).flights, p, start, schema, log + [d])
  {
    LastDeed(log, d);
    forall t | t in After(x, p, d, remembers, |log|).flights
      ensures var f := After(x, p, d, remembers, |log|).flights[t];
        f.copy == CopyOf(start, log + [d], p, t) && f.copy.values.Keys == schema
    {
      if d != Copied(p, t) { assert t in x.flights; }
    }
  }

  lemma ProcStep(x: Proc, p: nat, start: Flat, schema: set<string>, log: seq<Deed>, d: Deed, remembers: bool)
    requires ProcInv(x, p, start, schema, log) && Fits(x, p, d, schema)
    ensures ProcInv(After(x, p, d, remembers, |log|), p, start, schema, log + [d])
  {
    LastDeed(log, d);
    FlightsStep(x, p, start, schema, log, d, remembers);
  }

  lemma ProcsStep(w: World, next: seq<Proc>, d: Deed, remembers: bool)
    requires ProcsInv(w.procs, w.start, w.schema, w.log) && |next| == |w.procs|
    requires forall p :: 0 <= p < |w.procs| ==>
      Fits(w.procs[p], p, d, w.schema) && next[p] == After(w.procs[p], p, d, remembers, |w.log|)
    ensures ProcsInv(next, w.start, w.schema, w.log + [d])
  {
    hide ProcInv, After, Fits;
    forall p | 0 <= p < |next| ensures ProcInv(next[p], p, w.start[p], w.schema, w.log + [d]) {
      ProcStep(w.procs[p], p, w.start[p], w.schema, w.log, d, remembers);
    }
  }

  /** A flight that fails leaves no trace. */
  lemma FailureStep(w: World, p: nat, t: nat)
    requires ProcsInv(w.procs, w.start, w.schema, w.log) && p < |w.procs| && t in w.procs[p].flights
    ensures ProcsInv(w.procs[p := Landed(w.procs[p], t, false)], w.start, w.schema, w.log)
  {
    hide RuntimeOf, SyncedOf, CopyOf;
    assert ProcInv(w.procs[p], p, w.start[p], w.schema, w.log);
  }

  lemma QuietStep(w: World, e: Event)
    requires Inv(w) && Enabled(w, e) && !e.Write? && !e.Edit?
    ensures Inv(Apply(w, e))
  {
    var v := Apply(w, e);
    var d := v.log[|w.log|];
    InvLengths(w);
    hide Sound, FlatOf, ProcsInv, ProcInv;
    ProcsStep(w, v.procs, d, e.Copy? && e.remembers);
  }

  lemma InvLengths(w: World)
    requires Inv(w)
    ensures |w.start| == |w.procs|
    ensures forall p :: 0 <= p < |w.procs| ==> ProcInv(w.procs[p], p, w.start[p], w.schema, w.log)
  {
  }

  lemma InvFlight(w: World, p: nat, t: nat)
    requires Inv(w) && p < |w.procs| && t in w.procs[p].flights
    ensures p < |w.start| && w.procs[p].base.Some? && w.procs[p].base.value.Keys == w.schema
    ensures w.procs[p].flights[t].copy == CopyOf(w.start[p], w.log, p, t)
    ensures w.procs[p].flights[t].copy.values.Keys == w.schema
  {
    InvLengths(w);
    assert ProcInv(w.procs[p], p, w.start[p], w.schema, w.log);
  }

  /** The keys that are written are fields or were on disk before. */
  lemma KeysToWrite(w: World, p: nat, t: nat)
    requires Inv(w) && InFlight(w, p, t, false)
    ensures ToWrite(w, p, t).Keys == w.schema + Disk(w).Keys && Sound(ToWrite(w, p, t).Keys)
  {
    InvFlight(w, p, t);
    assert ToWrite(w, p, t).Keys == w.schema + Disk(w).Keys;
    SoundSubset(ToWrite(w, p, t).Keys, w.schema + w.initial.Keys);
  }

  /** A write never fails in `unflatten`, whatever the order, and the file then reads as
      what was written. */
  lemma WriteNeverPanics(w: World, p: nat, t: nat, order: seq<string>)
    requires Inv(w) && Enabled(w, Write(p, t, order, true))
    ensures Unflatten(ToWrite(w, p, t), order, map[]).Some?
    ensures Disk(Apply(w, Write(p, t, order, true))) == ToWrite(w, p, t)
  {
    KeysToWrite(w, p, t);
    hide Inv, Sound, Unflatten, Merged;
    WrittenIsRead(ToWrite(w, p, t), order);
  }

  lemma WriteStep(w: World, e: Event)
    requires Inv(w) && Enabled(w, e) && e.Write?
    ensures Inv(Apply(w, e))
  {
    InvLengths(w);
    if e.ok {
      var v := Apply(w, e);
      KeysToWrite(w, e.pid, e.ticket);
      WriteNeverPanics(w, e.pid, e.ticket, e.order);
      hide Sound, FlatOf, Unflatten, ProcsInv, ProcInv, Merged;
      ProcsStep(w, v.procs, Wrote(e.pid, e.ticket), false);
    } else {
      hide Sound, FlatOf, Unflatten, ProcsInv, ProcInv, Merged;
      FailureStep(w, e.pid, e.ticket);
    }
  }

  /** Nor does an edit. */
  lemma EditNeverPanics(w: World, e: Event)
    requires Inv(w) && Enabled(w, e) && e.Edit?
    ensures Unflatten(Disk(w) + e.patch, e.order, map[]).Some?
    ensures e.ok && e.expected == Disk(w) ==> Disk(Apply(w, e)) == Disk(w) + e.patch
  {
    SoundSubset((Disk(w) + e.patch).Keys, w.schema + w.initial.Keys);
    hide Sound, Unflatten;
    WrittenIsRead(Disk(w) + e.patch, e.order);
  }

  lemma EditKeepsProcs(w: World, e: Event)
    requires Enabled(w, e) && e.Edit?
    ensures var v := Apply(w, e); v.procs == w.procs && v.start == w.start && v.schema == w.schema && v.initial == w.initial
    ensures Apply(w, e) == w || (e.ok && e.expected == Disk(w) && Apply(w, e).log == w.log + [Edited(e.patch)])
  {
    hide FlatOf, Unflatten;
  }

  lemma Parts(w: World)
    ensures Inv(w) <==> ProcsInv(w.procs, w.start, w.schema, w.log) && DiskInv(Disk(w), w.initial, w.schema)
  {
  }

  lemma EditKeepsDisk(disk: Flat, patch: Flat, initial: Flat, schema: set<string>)
    requires DiskInv(disk, initial, schema) && patch.Keys <= schema
    ensures DiskInv(disk + patch, initial, schema)
  {
    hide Sound;
  }

  lemma EditStep(w: World, e: Event)
    requires Inv(w) && Enabled(w, e) && e.Edit?
    ensures Inv(Apply(w, e))
  {
    hide Inv, Sound, Disk, Unflatten, ProcsInv, ProcInv, Apply, DiskInv;
    var v := Apply(w, e);
    EditNeverPanics(w, e);
    EditKeepsProcs(w, e);
    if v != w {
      Parts(w);
      Parts(v);
      ProcsStep(w, w.procs, Edited(e.patch), false);
      EditKeepsDisk(Disk(w), e.patch, w.initial, w.schema);
    }
  }

  /** Every event keeps the invariant. */
  lemma StepKeeps(w: World, e: Event)
    requires Inv(w) && Enabled(w, e)
    ensures Inv(Apply(w, e))
  {
    hide Inv, Apply, Enabled;
    if e.Write? { WriteStep(w, e); } else if e.Edit? { EditStep(w, e); } else { QuietStep(w, e); }
  }

  lemma {:induction false} RunKeeps(w: World, es: seq<Event>)
    requires Inv(w) && Possible(w, es)
    ensures Inv(Run(w, es))
    decreases |es|
  {
    hide Inv, Apply, Enabled;
    if es != [] {
      StepKeeps(w, es[0]);
      RunKeeps(Apply(w, es[0]), es[1..]);
    }
  }

  lemma InitialIsSound(w: World)
    requires Initial(w)
    ensures Inv(w)
  {
  }

  lemma ReachableIsSound(w: World)
    requires Reachable(w)
    ensures Inv(w)
  {
    hide Inv, Run, Possible, Initial;
    var w0, es :| Initial(w0) && Possible(w0, es) && Run(w0, es) == w;
    InitialIsSound(w0);
    RunKeeps(w0, es);
  }
}
