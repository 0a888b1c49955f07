/** What holds of a shared configuration file in every run of processes and web edits
    (`cfg/web_settings.go`). */
module ConfigRuns {
  import opened Wrappers
  import opened Sets
  import opened Dotted
  import opened ConfigTree
  import opened ConfigFlatten
  import opened ConfigMerge

  // -------------------------------------------------------- the disk and the reference

  /** The field on disk is what the log asks for. */
  ghost predicate Held(w: World, key: string)
  {
    Lookup(Disk(w), key) == Latest(w.start, w.initial, w.log, key)
  }

  /** The merge takes the copy for changed where it holds no change, or for unchanged where
      it holds one, and the disk has another value. */
  predicate Strays(copy: Moment, base: Flat, newest: Moment, disk: Flat, key: string)
  {
    && key in copy.values && key in disk && copy.values[key] != disk[key]
    && (Lookup(copy.values, key) != Lookup(base, key)) != Changed(copy, newest, key)
  }

  ghost predicate Stray(w: World, e: Event, key: string)
    requires Enabled(w, e)
  {
    && e.Write? && e.ok && e.pid < |w.start| && w.procs[e.pid].base.Some?
    && var x := w.procs[e.pid];
       Strays(x.flights[e.ticket].copy, x.base.value, NewestOf(w.start[e.pid], w.log, e.pid), Disk(w), key)
  }

  lemma MergedField(copy: Flat, base: Flat, disk: Flat, key: string)
    requires copy.Keys == base.Keys
    ensures Lookup(Merged(copy, Some(base), Some(disk)), key) ==
      if key in copy && !(Lookup(copy, key) == Lookup(base, key) && key in disk) then Some(copy[key]) else Lookup(disk, key)
  {
  }

  /** What a step adds to the log; a failed write and a refused edit add nothing. */
  ghost function DeedOf(w: World, e: Event): Option<Deed>
  {
    match e
    case Assign(p, key, v) => Some(Assigned(p, key, v))
    case Load(p, runtime) => Some(Loaded(p, runtime))
    case Copy(p, t, _) => Some(Copied(p, t))
    case Remember(p, t) => Some(Remembered(p, t))
    case Write(p, t, _, ok) => if ok then Some(Wrote(p, t)) else None
    case Edit(patch, expected, _, ok) => if ok && expected == Disk(w) then Some(Edited(patch)) else None
  }

  lemma StepIsLogged(w: World, e: Event)
    requires Inv(w) && Enabled(w, e)
    ensures var v := Apply(w, e);
      && v.start == w.start && v.initial == w.initial && v.schema == w.schema && |v.procs| == |w.procs|
      && v.log == (if DeedOf(w, e).Some? then w.log + [DeedOf(w, e).value] else w.log)
  {
    if e.Write? && e.ok { WriteNeverPanics(w, e.pid, e.ticket, e.order); }
    if e.Edit? { EditNeverPanics(w, e); }
    hide Inv, Unflatten, FlatOf, ToWrite;
  }

  lemma WriteLands(w: World, e: Event)
    requires Inv(w) && Enabled(w, e) && e.Write?
    ensures Apply(w, e).procs == w.procs[e.pid := Landed(w.procs[e.pid], e.ticket, e.ok)]
  {
    WriteNeverPanics(w, e.pid, e.ticket, e.order);
    hide Inv, Unflatten, FlatOf, ToWrite;
  }

  /** What a step does to one process. */
  lemma StepOfProc(w: World, e: Event, p: nat)
    requires Inv(w) && Enabled(w, e) && p < |w.procs|
    ensures |Apply(w, e).procs| == |w.procs|
    ensures Apply(w, e).procs[p] ==
      if DeedOf(w, e).Some? then After(w.procs[p], p, DeedOf(w, e).value, e.Copy? && e.remembers, |w.log|)
      else if e.Write? && e.pid == p then Landed(w.procs[p], e.ticket, false)
      else w.procs[p]
  {
    hide Inv, Unflatten, Disk, ToWrite;
    if e.Write? {
      WriteLands(w, e);
    } else if e.Edit? {
      EditKeepsProcs(w, e);
    }
  }

  lemma LatestAfterWrite(start: seq<Flat>, initial: Flat, log: seq<Deed>, p: nat, t: nat, key: string)
    requires p < |start|
    ensures var before, copy := Latest(start, initial, log, key), CopyOf(start[p], log, p, t);
      Latest(start, initial, log + [Wrote(p, t)], key) ==
        if key in copy.values && (before.None? || Changed(copy, NewestOf(start[p], log, p), key))
        then Some(copy.values[key]) else before
  {
    LastDeed(log, Wrote(p, t));
  }

  lemma HeldWrite(w: World, e: Event, key: string)
    requires Inv(w) && Enabled(w, e) && Held(w, key) && e.Write? && e.ok
    ensures Held(Apply(w, e), key) <==> !Stray(w, e, key)
  {
    var p, t := e.pid, e.ticket;
    WriteNeverPanics(w, p, t, e.order);
    StepIsLogged(w, e);
    InvFlight(w, p, t);
    hide Inv, Apply, Enabled, Merged, Disk, CopyOf, NewestOf, Latest;
    MergedField(w.procs[p].flights[t].copy.values, w.procs[p].base.value, Disk(w), key);
    LatestAfterWrite(w.start, w.initial, w.log, p, t, key);
  }

  lemma LatestAfterOther(start: seq<Flat>, initial: Flat, log: seq<Deed>, d: Deed, key: string)
    requires !d.Wrote?
    ensures Latest(start, initial, log + [d], key) ==
      if d.Edited? && key in d.patch then Some(d.patch[key]) else Latest(start, initial, log, key)
  {
    LastDeed(log, d);
  }

  /** What is on disk after a step that does not write. */
  lemma DiskAfterOther(w: World, e: Event)
    requires Inv(w) && Enabled(w, e) && !(e.Write? && e.ok)
    ensures Disk(Apply(w, e)) == if DeedOf(w, e).Some? && e.Edit? then Disk(w) + e.patch else Disk(w)
  {
    if e.Edit? { EditNeverPanics(w, e); }
    hide Inv, Unflatten, FlatOf, ToWrite;
  }

  lemma HeldOther(w: World, e: Event, key: string)
    requires Inv(w) && Enabled(w, e) && Held(w, key) && !(e.Write? && e.ok)
    ensures Held(Apply(w, e), key)
  {
    StepIsLogged(w, e);
    DiskAfterOther(w, e);
    hide Inv, Apply, Enabled, Disk, Latest;
    if DeedOf(w, e).Some? { LatestAfterOther(w.start, w.initial, w.log, DeedOf(w, e).value, key); }
  }

  ghost predicate AlwaysHeld(w: World, es: seq<Event>, key: string)
    requires Possible(w, es)
    decreases |es|
  {
    Held(w, key) && (es != [] ==> AlwaysHeld(Apply(w, es[0]), es[1..], key))
  }

  ghost predicate SomeStray(w: World, es: seq<Event>, key: string)
    requires Possible(w, es)
    decreases |es|
  {
    es != [] && (Stray(w, es[0], key) || SomeStray(Apply(w, es[0]), es[1..], key))
  }

  lemma {:induction false} HeldRun(w: World, es: seq<Event>, key: string)
    requires Inv(w) && Possible(w, es) && Held(w, key)
    ensures AlwaysHeld(w, es, key) <==> !SomeStray(w, es, key)
    decreases |es|
  {
    hide Inv, Apply, Enabled, Held, Stray;
    if es != [] {
      var e := es[0];
      StepKeeps(w, e);
      if e.Write? && e.ok { HeldWrite(w, e, key); } else {
        HeldOther(w, e, key);
        NotStray(w, e, key);
      }
      if Held(Apply(w, e), key) { HeldRun(Apply(w, e), es[1..], key); }
    }
  }

  lemma NotStray(w: World, e: Event, key: string)
    requires Inv(w) && Enabled(w, e) && !(e.Write? && e.ok)
    ensures !Stray(w, e, key)
  {
  }

  lemma InitialHolds(w: World, key: string)
    requires Initial(w)
    ensures Inv(w) && Held(w, key)
  {
    InitialIsSound(w);
    hide FlatOf;
  }

  /** At every point of a run each field on disk is the latest of its web edits and of the
      changes that were written, of whichever process, exactly when no write of the run is
      a stray one for the field. */
  lemma DiskHoldsLatestIff(w: World, es: seq<Event>, key: string)
    requires Initial(w) && Possible(w, es)
    ensures AlwaysHeld(w, es, key) <==> !SomeStray(w, es, key)
  {
    InitialHolds(w, key);
    hide Inv, Held, Initial;
    HeldRun(w, es, key);
  }

  // ----------------------------------------------------------------- orderly processes

  /** Between the part of a reload that replaces the settings and the one that remembers them. */
  predicate Reloading(log: seq<Deed>, p: nat)
    decreases |log|
  {
    log != [] &&
      match log[|log| - 1]
      case Loaded(q, _) => q == p || Reloading(log[..|log| - 1], p)
      case Remembered(q, _) => q != p && Reloading(log[..|log| - 1], p)
      case _ => Reloading(log[..|log| - 1], p)
  }

  /** The copy was made after the newest settings that were loaded or written. */
  predicate Recent(w: World, p: nat, t: nat)
    requires p < |w.procs| && t in w.procs[p].flights
  {
    p < |w.start| && w.procs[p].flights[t].copy.at > NewestOf(w.start[p], w.log, p).at
  }

  /** What a process does in order: it changes and writes nothing between loading its
      settings and remembering them, and no copy lands after a newer one, or after a load. */
  ghost predicate Orderly(w: World, e: Event)
    requires Enabled(w, e)
  {
    match e
    case Assign(p, _, _) => !Reloading(w.log, p)
    case Remember(p, t) => Reloading(w.log, p) && Recent(w, p, t)
    case Write(p, t, _, ok) => ok ==> !Reloading(w.log, p) && Recent(w, p, t)
    case _ => true
  }

  ghost predicate OrderlyRun(w: World, es: seq<Event>)
    requires Possible(w, es)
    decreases |es|
  {
    es == [] || (Orderly(w, es[0]) && OrderlyRun(Apply(w, es[0]), es[1..]))
  }

  /** The baseline is what was last loaded or written; during a reload, what it will be. */
  predicate InStep(x: Proc, newest: Moment, reloading: bool)
  {
    if reloading then
      x.runtime == newest.values
      && forall t :: t in x.flights && x.flights[t].copy.at > newest.at ==> x.flights[t].copy.values == newest.values
    else x.base == Some(newest.values)
  }

  ghost predicate AllInStep(procs: seq<Proc>, start: seq<Flat>, log: seq<Deed>)
  {
    && |start| == |procs|
    && forall p :: 0 <= p < |procs| ==> InStep(procs[p], NewestOf(start[p], log, p), Reloading(log, p))
  }

  lemma {:induction false} CopiedBefore(start: Flat, log: seq<Deed>, p: nat, t: nat)
    ensures CopyOf(start, log, p, t).at < |log|
    decreases |log|
  {
    if log != [] { CopiedBefore(start, log[..|log| - 1], p, t); }
  }

  lemma {:induction false} NewestBefore(start: Flat, log: seq<Deed>, p: nat)
    ensures NewestOf(start, log, p).at < |log|
    decreases |log|
  {
    if log != [] {
      var rest := log[..|log| - 1];
      NewestBefore(start, rest, p);
      var d := log[|log| - 1];
      if d.Wrote? { CopiedBefore(start, rest, p, d.ticket); }
    }
  }

  lemma FlightsBefore(w: World, p: nat)
    requires Inv(w) && p < |w.procs|
    ensures forall t :: t in w.procs[p].flights ==> w.procs[p].flights[t].copy.at < |w.log|
  {
    InvLengths(w);
    hide Inv;
    forall t | t in w.procs[p].flights ensures w.procs[p].flights[t].copy.at < |w.log| {
      CopiedBefore(w.start[p], w.log, p, t);
    }
  }

  /** What a deed in order means for the process it belongs to. */
  predicate InOrder(x: Proc, p: nat, start: Flat, log: seq<Deed>, d: Deed)
  {
    match d
    case Assigned(q, _, _) => q == p ==> !Reloading(log, p)
    case Remembered(q, t) =>
      q == p ==> t in x.flights && Reloading(log, p) && x.flights[t].copy.at > NewestOf(start, log, p).at
    case Wrote(q, t) =>
      q == p ==>
        && t in x.flights && !Reloading(log, p) && x.flights[t].copy.at > NewestOf(start, log, p).at
        && x.flights[t].copy == CopyOf(start, log, p, t)
    case _ => true
  }

  lemma InStepAfter(x: Proc, p: nat, start: Flat, log: seq<Deed>, d: Deed, remembers: bool)
    requires InStep(x, NewestOf(start, log, p), Reloading(log, p)) && InOrder(x, p, start, log, d)
    requires NewestOf(start, log, p).at < |log| && forall t :: t in x.flights ==> x.flights[t].copy.at < |log|
    ensures InStep(After(x, p, d, remembers, |log|), NewestOf(start, log + [d], p), Reloading(log + [d], p))
  {
    LastDeed(log, d);
    hide CopyOf;
  }

  lemma OrderlyDeed(w: World, e: Event, p: nat)
    requires Inv(w) && Enabled(w, e) && Orderly(w, e) && p < |w.procs| && p < |w.start| && DeedOf(w, e).Some?
    ensures InOrder(w.procs[p], p, w.start[p], w.log, DeedOf(w, e).value)
  {
    if e.Write? { InvFlight(w, e.pid, e.ticket); }
    hide Inv, Disk, ToWrite, NewestOf, CopyOf, Reloading;
  }

  lemma InStepProc(w: World, e: Event, p: nat)
    requires Inv(w) && Enabled(w, e) && Orderly(w, e) && p < |w.procs|
    requires p < |w.start| && InStep(w.procs[p], NewestOf(w.start[p], w.log, p), Reloading(w.log, p))
    ensures var v := Apply(w, e);
      && p < |v.procs| && v.start == w.start
      && InStep(v.procs[p], NewestOf(w.start[p], v.log, p), Reloading(v.log, p))
  {
    StepIsLogged(w, e);
    StepOfProc(w, e, p);
    FlightsBefore(w, p);
    NewestBefore(w.start[p], w.log, p);
    if DeedOf(w, e).Some? { OrderlyDeed(w, e, p); }
    hide Inv, Apply, Orderly, NewestOf, Reloading, DeedOf, After, InOrder, Disk;
    if DeedOf(w, e).Some? {
      InStepAfter(w.procs[p], p, w.start[p], w.log, DeedOf(w, e).value, e.Copy? && e.remembers);
    }
  }

  lemma InStepKeeps(w: World, e: Event)
    requires Inv(w) && Enabled(w, e) && Orderly(w, e) && AllInStep(w.procs, w.start, w.log)
    ensures AllInStep(Apply(w, e).procs, Apply(w, e).start, Apply(w, e).log)
  {
    var v := Apply(w, e);
    StepIsLogged(w, e);
    hide Inv, InStep, NewestOf, Reloading, Orderly, Apply, Enabled;
    forall p | 0 <= p < |v.procs|
      ensures InStep(v.procs[p], NewestOf(v.start[p], v.log, p), Reloading(v.log, p))
    {
      InStepProc(w, e, p);
    }
  }

  lemma OrderlyIsNotStray(w: World, e: Event, key: string)
    requires Inv(w) && Enabled(w, e) && Orderly(w, e) && AllInStep(w.procs, w.start, w.log)
    ensures !Stray(w, e, key)
  {
  }

  lemma {:induction false} OrderlyNeverStrays(w: World, es: seq<Event>, key: string)
    requires Inv(w) && Possible(w, es) && OrderlyRun(w, es) && AllInStep(w.procs, w.start, w.log)
    ensures !SomeStray(w, es, key)
    decreases |es|
  {
    hide Inv, Apply, Enabled, Orderly, Stray, AllInStep;
    if es != [] {
      StepKeeps(w, es[0]);
      InStepKeeps(w, es[0]);
      OrderlyIsNotStray(w, es[0], key);
      OrderlyNeverStrays(Apply(w, es[0]), es[1..], key);
    }
  }

  /** While every process works in order, each field on disk is the latest of its web edits
      and written changes, whatever the processes do among each other. */
  lemma DiskHoldsLatest(w: World, es: seq<Event>, key: string)
    requires Initial(w) && Possible(w, es) && OrderlyRun(w, es)
    ensures AlwaysHeld(w, es, key)
  {
    InitialIsSound(w);
    DiskHoldsLatestIff(w, es, key);
    OrderlyNeverStrays(w, es, key);
  }

  /** No step drops a key of the file, whether a setting or not. */
  lemma NoKeyIsDropped(w: World, e: Event)
    requires Reachable(w) && Enabled(w, e)
    ensures Disk(w).Keys <= Disk(Apply(w, e)).Keys
  {
    ReachableIsSound(w);
    if e.Write? && e.ok {
      WriteNeverPanics(w, e.pid, e.ticket, e.order);
      KeysToWrite(w, e.pid, e.ticket);
    } else if e.Edit? {
      EditNeverPanics(w, e);
    }
    hide Inv, Merged, FlatOf;
  }

  /** The baseline a process remembers is the copy it last wrote or remembered, and each copy
      under way is what the settings were when it was made. */
  lemma BaselineIsLastSync(w: World, p: nat)
    requires Reachable(w) && p < |w.procs|
    ensures p < |w.start| && w.procs[p].runtime == RuntimeOf(w.start[p], w.log, p)
    ensures w.procs[p].base == Some(SyncedOf(w.start[p], w.log, p))
    ensures forall t :: t in w.procs[p].flights ==> w.procs[p].flights[t].copy == CopyOf(w.start[p], w.log, p, t)
  {
    ReachableIsSound(w);
    InvLengths(w);
    assert ProcInv(w.procs[p], p, w.start[p], w.schema, w.log);
  }

  /** An edit goes through exactly when the file still has the revision it was based on; so
      of two edits based on one revision, only the first can change anything. */
  lemma EditsDoNotRace(w: World, one: Event, other: Event)
    requires Reachable(w) && Enabled(w, one) && one.Edit? && one.ok
    requires Enabled(Apply(w, one), other) && other.Edit? && other.expected == one.expected
    ensures Disk(Apply(w, one)) == if one.expected == Disk(w) then Disk(w) + one.patch else Disk(w)
    ensures Disk(Apply(w, one)) != Disk(w) ==> Apply(Apply(w, one), other) == Apply(w, one)
  {
    ReachableIsSound(w);
    EditNeverPanics(w, one);
    hide Inv, FlatOf, Unflatten;
  }

  // ------------------------------------------------------------- where it can go wrong

  /** Without a remembered baseline a write drops what is not a setting of the program. */
  lemma MergeKeepsKeysIff(runtime: Flat, base: Option<Flat>, disk: Flat)
    ensures disk.Keys <= Merged(runtime, base, Some(disk)).Keys <==> base.Some? || disk.Keys <= runtime.Keys
  {
    if base.Some? {
      assert Merged(runtime, base, Some(disk)).Keys == runtime.Keys + disk.Keys;
    }
  }

  /** A merged write is safe, in every order of iteration, exactly when the paths of the
      settings and of the file do not extend one another and none begins with a dot. */
  lemma MergedWriteIsSafeIff(runtime: Flat, base: Flat, disk: Flat)
    ensures var values := Merged(runtime, Some(base), Some(disk));
      Sound(runtime.Keys + disk.Keys) <==>
        forall order :: IsOrder(order, values.Keys) ==>
          && Unflatten(values, order, map[]).Some?
          && forall flat :: Flattened(Unflatten(values, order, map[]).value, "", map[], flat) ==> flat == values
  {
    var values := Merged(runtime, Some(base), Some(disk));
    assert values.Keys == runtime.Keys + disk.Keys;
    UnflattenThenFlatten(values);
  }

  /** A file in which a whole group of settings was replaced by `null` makes the next write
      of that group fail in some order of iteration. */
  lemma NulledGroupFails(base: Flat, v: Value) returns (order: seq<string>)
    ensures var values := Merged(map["A.B" := v], Some(base), Some(map["A" := Null]));
      IsOrder(order, values.Keys) && Unflatten(values, order, map[]).None?
  {
    var values := Merged(map["A.B" := v], Some(base), Some(map["A" := Null]));
    SplitWhole("A");
    SplitWhole("B");
    SplitHead("A", "B");
    assert "A" + "." + "B" == "A.B";
    assert ["A"] < ["A"] + ["B"];
    order := ConflictFails(values, "A", "A.B");
  }
}
