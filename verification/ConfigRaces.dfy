/** What becomes of one field of a configuration file when writes, reloads and web edits
    overlap (`cfg/web_settings.go`). A goroutine copies the settings before it takes the
    mutex, so what it merges may be older than the baseline it merges against. */
module ConfigRaces {
  import opened Wrappers
  import opened Sets
  import opened Dotted
  import opened ConfigTree
  import opened ConfigFlatten
  import opened ConfigMerge
  import opened ConfigRuns

  // ------------------------------------------------------------------ one late write

  lemma FieldAfterWrite(w: World, e: Event, key: string)
    requires Inv(w) && Enabled(w, e) && e.Write? && e.ok && key in w.schema && key in Disk(w)
    ensures var x := w.procs[e.pid];
      && x.base.Some? && x.base.value.Keys == w.schema && x.flights[e.ticket].copy.values.Keys == w.schema
      && var copy, base := x.flights[e.ticket].copy.values[key], x.base.value[key];
         Lookup(Disk(Apply(w, e)), key) == Some(if copy == base then Disk(w)[key] else copy)
  {
    WriteNeverPanics(w, e.pid, e.ticket, e.order);
    InvFlight(w, e.pid, e.ticket);
    var x := w.procs[e.pid];
    hide Inv, Apply, Merged, Disk;
    MergedField(x.flights[e.ticket].copy.values, x.base.value, Disk(w), key);
  }

  /** The flight ends. */
  predicate Lands(e: Event, p: nat, t: nat)
  {
    (e.Write? || e.Remember?) && e.pid == p && e.ticket == t
  }

  ghost predicate Carries(w: World, p: nat, t: nat, f: Flight)
  {
    p < |w.procs| && t in w.procs[p].flights && w.procs[p].flights[t] == f
  }

  lemma {:induction false} FlightStays(w: World, es: seq<Event>, p: nat, t: nat, f: Flight)
    requires Inv(w) && Possible(w, es) && Carries(w, p, t, f)
    requires forall i :: 0 <= i < |es| ==> !Lands(es[i], p, t)
    ensures Inv(Run(w, es)) && Carries(Run(w, es), p, t, f) && Run(w, es).schema == w.schema
    decreases |es|
  {
    if es != [] {
      StepKeeps(w, es[0]);
      FlightStep(w, es[0], p, t, f);
      StepIsLogged(w, es[0]);
      hide Inv, Apply, Enabled, Carries, Lands;
      FlightStays(Apply(w, es[0]), es[1..], p, t, f);
    }
  }

  lemma FlightStep(w: World, e: Event, p: nat, t: nat, f: Flight)
    requires Inv(w) && Enabled(w, e) && Carries(w, p, t, f) && !Lands(e, p, t)
    ensures Carries(Apply(w, e), p, t, f)
  {
    StepOfProc(w, e, p);
    hide Inv, Apply, Disk, ToWrite;
  }

  /** A process has not changed a field since what it last wrote or remembered. */
  predicate Unchanged(x: Proc, key: string)
  {
    x.base.Some? && Lookup(x.runtime, key) == Lookup(x.base.value, key)
  }

  /** A write whose process had not changed the field when the settings were copied leaves
      the field alone, whatever happens in between, exactly when no other write or reload
      of that process has moved its baseline of the field since the copy, or the disk has
      the copied value anyway. */
  lemma LateWriteKeepsFieldIff(w: World, p: nat, t: nat, es: seq<Event>, order: seq<string>, key: string)
    requires Reachable(w) && Enabled(w, Copy(p, t, false)) && key in w.schema && Unchanged(w.procs[p], key)
    requires Possible(Apply(w, Copy(p, t, false)), es) && forall i :: 0 <= i < |es| ==> !Lands(es[i], p, t)
    requires Enabled(Run(Apply(w, Copy(p, t, false)), es), Write(p, t, order, true))
    requires key in Disk(Run(Apply(w, Copy(p, t, false)), es))
    ensures var v := Run(Apply(w, Copy(p, t, false)), es);
      && w.procs[p].base.Some? && v.procs[p].base.Some?
      && var before, now := Lookup(w.procs[p].base.value, key), Lookup(v.procs[p].base.value, key);
         (Lookup(Disk(Apply(v, Write(p, t, order, true))), key) == Lookup(Disk(v), key)) <==>
         (now == before || Lookup(Disk(v), key) == before)
  {
    ReachableIsSound(w);
    var a := Apply(w, Copy(p, t, false));
    CopyTakesOff(w, p, t);
    hide Inv, Disk, Run, Possible, Apply, Enabled, Carries;
    FlightStays(a, es, p, t, Flight(Moment(w.procs[p].runtime, |w.log|), false));
    CarriedWrite(Run(a, es), p, t, Flight(Moment(w.procs[p].runtime, |w.log|), false), order, key);
  }

  lemma CopyTakesOff(w: World, p: nat, t: nat)
    requires Inv(w) && Enabled(w, Copy(p, t, false))
    ensures var a := Apply(w, Copy(p, t, false));
      Inv(a) && a.schema == w.schema && Carries(a, p, t, Flight(Moment(w.procs[p].runtime, |w.log|), false))
  {
    StepKeeps(w, Copy(p, t, false));
    hide Inv;
  }

  lemma CarriedWrite(v: World, p: nat, t: nat, f: Flight, order: seq<string>, key: string)
    requires Inv(v) && Carries(v, p, t, f) && Enabled(v, Write(p, t, order, true)) && key in v.schema && key in Disk(v)
    ensures v.procs[p].base.Some?
    ensures Lookup(Disk(Apply(v, Write(p, t, order, true))), key) ==
      if Lookup(f.copy.values, key) == Lookup(v.procs[p].base.value, key) then Lookup(Disk(v), key)
      else Lookup(f.copy.values, key)
  {
    hide Inv, Apply, Enabled, Disk;
    FieldAfterWrite(v, Write(p, t, order, true), key);
  }

  // ------------------------------------------------------------- web edits survive

  ghost predicate Has(w: World, key: string, v: Value)
  {
    Lookup(Disk(w), key) == Some(v)
  }

  /** A write of a copy that differs in the field both from the baseline and from `v`, or a
      web edit that gives the field another value. */
  ghost predicate Undoes(w: World, e: Event, key: string, v: Value)
    requires Enabled(w, e)
  {
    match e
    case Write(p, t, _, ok) =>
      var copy := w.procs[p].flights[t].copy.values;
      ok && w.procs[p].base.Some? && Lookup(copy, key) != Lookup(w.procs[p].base.value, key) && Lookup(copy, key) != Some(v)
    case Edit(patch, expected, _, ok) => ok && expected == Disk(w) && key in patch && patch[key] != v
    case _ => false
  }

  lemma HasStep(w: World, e: Event, key: string, v: Value)
    requires Inv(w) && Enabled(w, e) && key in w.schema && Has(w, key, v)
    ensures Has(Apply(w, e), key, v) <==> !Undoes(w, e, key, v)
  {
    hide Inv, Apply, Disk, ToWrite;
    if e.Write? && e.ok {
      FieldAfterWrite(w, e, key);
    } else {
      DiskAfterOther(w, e);
    }
  }

  ghost predicate AlwaysHas(w: World, es: seq<Event>, key: string, v: Value)
    requires Possible(w, es)
    decreases |es|
  {
    Has(w, key, v) && (es != [] ==> AlwaysHas(Apply(w, es[0]), es[1..], key, v))
  }

  ghost predicate SomeUndoes(w: World, es: seq<Event>, key: string, v: Value)
    requires Possible(w, es)
    decreases |es|
  {
    es != [] && (Undoes(w, es[0], key, v) || SomeUndoes(Apply(w, es[0]), es[1..], key, v))
  }

  lemma {:induction false} HasRun(w: World, es: seq<Event>, key: string, v: Value)
    requires Inv(w) && Possible(w, es) && key in w.schema && Has(w, key, v)
    ensures AlwaysHas(w, es, key, v) <==> !SomeUndoes(w, es, key, v)
    decreases |es|
  {
    hide Inv, Apply, Enabled, Has, Undoes;
    if es != [] {
      StepKeeps(w, es[0]);
      StepIsLogged(w, es[0]);
      HasStep(w, es[0], key, v);
      if Has(Apply(w, es[0]), key, v) { HasRun(Apply(w, es[0]), es[1..], key, v); }
    }
  }

  ghost predicate Edits(w: World, e: Event, key: string)
  {
    Enabled(w, e) && e.Edit? && e.ok && e.expected == Disk(w) && key in e.patch
  }

  lemma EditHas(w: World, e: Event, key: string)
    requires Inv(w) && Edits(w, e, key)
    ensures Inv(Apply(w, e)) && key in w.schema && Has(Apply(w, e), key, e.patch[key])
    ensures Apply(w, e).schema == w.schema && Apply(w, e).start == w.start && Apply(w, e).procs == w.procs
    ensures Apply(w, e).log == w.log + [Edited(e.patch)]
  {
    hide Inv, Apply, Disk;
    StepKeeps(w, e);
    DiskAfterOther(w, e);
    EditKeepsProcs(w, e);
    StepIsLogged(w, e);
  }

  /** A web edit stays on disk through all of a run exactly when no later edit gives the
      field another value and no write copies a value that is neither the baseline it then
      meets nor the edited one. */
  lemma WebEditSurvivesIff(w: World, e: Event, es: seq<Event>, key: string)
    requires Reachable(w) && Edits(w, e, key) && Possible(Apply(w, e), es)
    ensures AlwaysHas(Apply(w, e), es, key, e.patch[key]) <==> !SomeUndoes(Apply(w, e), es, key, e.patch[key])
  {
    ReachableIsSound(w);
    EditHas(w, e, key);
    hide Inv, Has, Edits, Apply;
    HasRun(Apply(w, e), es, key, e.patch[key]);
  }

  /** The process has no unwritten change of the field, in its settings or in a copy that
      may still be written. */
  predicate Clear(x: Proc, newest: Moment, reloading: bool, key: string)
  {
    && (!reloading ==> Unchanged(x, key))
    && forall t :: t in x.flights && x.flights[t].copy.at > newest.at ==>
         Lookup(x.flights[t].copy.values, key) == Lookup(x.runtime, key)
  }

  ghost predicate AllClear(procs: seq<Proc>, start: seq<Flat>, log: seq<Deed>, key: string)
  {
    && |start| == |procs|
    && forall p :: 0 <= p < |procs| ==> Clear(procs[p], NewestOf(start[p], log, p), Reloading(log, p), key)
  }

  predicate Touches(e: Event, key: string)
  {
    (e.Assign? && e.key == key) || (e.Edit? && key in e.patch)
  }

  lemma ClearAfter(x: Proc, p: nat, start: Flat, log: seq<Deed>, d: Deed, remembers: bool, key: string)
    requires Clear(x, NewestOf(start, log, p), Reloading(log, p), key) && InOrder(x, p, start, log, d)
    requires NewestOf(start, log, p).at < |log| && forall t :: t in x.flights ==> x.flights[t].copy.at < |log|
    requires d.Assigned? ==> d.key != key
    ensures Clear(After(x, p, d, remembers, |log|), NewestOf(start, log + [d], p), Reloading(log + [d], p), key)
  {
    LastDeed(log, d);
    hide CopyOf;
  }

  lemma ClearProc(w: World, e: Event, p: nat, key: string)
    requires Inv(w) && Enabled(w, e) && Orderly(w, e) && p < |w.procs| && !Touches(e, key)
    requires p < |w.start| && Clear(w.procs[p], NewestOf(w.start[p], w.log, p), Reloading(w.log, p), key)
    ensures var v := Apply(w, e);
      && p < |v.procs| && v.start == w.start
      && Clear(v.procs[p], NewestOf(w.start[p], v.log, p), Reloading(v.log, p), key)
  {
    StepIsLogged(w, e);
    StepOfProc(w, e, p);
    FlightsBefore(w, p);
    NewestBefore(w.start[p], w.log, p);
    if DeedOf(w, e).Some? {
      OrderlyDeed(w, e, p);
      ClearDeed(w, e, key);
      hide Inv, Apply, Orderly, Enabled, NewestOf, Reloading, Clear, DeedOf, After, InOrder, Disk, Touches;
      ClearAfter(w.procs[p], p, w.start[p], w.log, DeedOf(w, e).value, e.Copy? && e.remembers, key);
    }
  }

  lemma ClearDeed(w: World, e: Event, key: string)
    requires !Touches(e, key) && DeedOf(w, e).Some?
    ensures DeedOf(w, e).value.Assigned? ==> DeedOf(w, e).value.key != key
  {
  }

  lemma ClearKeeps(w: World, e: Event, key: string)
    requires Inv(w) && Enabled(w, e) && Orderly(w, e) && !Touches(e, key) && AllClear(w.procs, w.start, w.log, key)
    ensures AllClear(Apply(w, e).procs, Apply(w, e).start, Apply(w, e).log, key)
  {
    var v := Apply(w, e);
    StepIsLogged(w, e);
    hide Inv, Clear, NewestOf, Reloading, Orderly, Apply, Enabled, Touches;
    forall p | 0 <= p < |v.procs|
      ensures Clear(v.procs[p], NewestOf(v.start[p], v.log, p), Reloading(v.log, p), key)
    {
      ClearProc(w, e, p, key);
    }
  }

  lemma ClearDoesNotUndo(w: World, e: Event, key: string, v: Value)
    requires Enabled(w, e) && Orderly(w, e) && !Touches(e, key) && AllClear(w.procs, w.start, w.log, key)
    ensures !Undoes(w, e, key, v)
  {
    hide Disk, ToWrite, NewestOf, Reloading;
    if e.Write? && e.ok {
      assert Clear(w.procs[e.pid], NewestOf(w.start[e.pid], w.log, e.pid), Reloading(w.log, e.pid), key);
    }
  }

  lemma {:induction false} ClearRun(w: World, es: seq<Event>, key: string, v: Value)
    requires Inv(w) && Possible(w, es) && OrderlyRun(w, es) && AllClear(w.procs, w.start, w.log, key)
    requires forall i :: 0 <= i < |es| ==> !Touches(es[i], key)
    ensures !SomeUndoes(w, es, key, v)
    decreases |es|
  {
    hide Inv, Apply, Enabled, Orderly, Undoes, AllClear, Touches;
    if es != [] {
      StepKeeps(w, es[0]);
      ClearKeeps(w, es[0], key);
      ClearDoesNotUndo(w, es[0], key, v);
      ClearRun(Apply(w, es[0]), es[1..], key, v);
    }
  }

  /** Where every process works in order, and none had an unwritten change of the field, a
      web edit stays on disk through any writes and reloads of any processes, overlapping
      ones too, until the field is assigned a new value or edited again. */
  lemma WebEditSurvives(w: World, e: Event, es: seq<Event>, key: string)
    requires Reachable(w) && Edits(w, e, key) && AllClear(w.procs, w.start, w.log, key)
    requires Possible(Apply(w, e), es) && OrderlyRun(Apply(w, e), es)
    requires forall i :: 0 <= i < |es| ==> !Touches(es[i], key)
    ensures AlwaysHas(Apply(w, e), es, key, e.patch[key])
  {
    ReachableIsSound(w);
    EditHas(w, e, key);
    WebEditSurvivesIff(w, e, es, key);
    EditStaysClear(w.procs, w.start, w.log, e.patch, key);
    hide Inv, Has, Edits, Apply, AllClear;
    ClearRun(Apply(w, e), es, key, e.patch[key]);
  }

  lemma EditStaysClear(procs: seq<Proc>, start: seq<Flat>, log: seq<Deed>, patch: Flat, key: string)
    requires AllClear(procs, start, log, key)
    ensures AllClear(procs, start, log + [Edited(patch)], key)
  {
    LastDeed(log, Edited(patch));
    hide Clear;
  }

  // ------------------------------------------------------------- what goes wrong in it

  /** A world in which one process has loaded the one field of the file. */
  lemma InitialWorld(z: Value) returns (w: World)
    ensures Initial(w) && |w.procs| == 1 && w.schema == {"A"} && w.initial == map["A" := z] && w.start == [map["A" := z]]
  {
    var values: Flat := map["A" := z];
    SplitWhole("A");
    assert PrefixFree(values.Keys);
    var order := SomeOrder(values.Keys);
    SoundValuesComeBack(values, order);
    var file := Unflatten(values, order, map[]).value;
    assert FlatOf(file) == values;
    w := World([Proc(values, Some(values), map[])], file, values.Keys, values, [values], []);
    assert w.schema + w.initial.Keys == values.Keys;
  }

  lemma NoSteps(w: World)
    ensures Possible(w, []) && Run(w, []) == w
  {
  }

  lemma StepThen(w: World, e: Event, es: seq<Event>)
    requires Enabled(w, e) && Possible(Apply(w, e), es)
    ensures Possible(w, [e] + es) && Run(w, [e] + es) == Run(Apply(w, e), es)
  {
    hide Enabled, Apply;
    assert ([e] + es)[1..] == es;
  }

  /** One more step at the end of a run. */
  lemma {:induction false} StepAtEnd(w: World, es: seq<Event>, e: Event)
    requires Possible(w, es) && Enabled(Run(w, es), e)
    ensures Possible(w, es + [e]) && Run(w, es + [e]) == Apply(Run(w, es), e)
    decreases |es|
  {
    hide Enabled, Apply;
    if es == [] {
      NoSteps(Apply(w, e));
      StepThen(w, e, []);
      assert [e] + [] == [e] && es + [e] == [e];
    } else {
      StepAtEnd(Apply(w, es[0]), es[1..], e);
      assert es + [e] == [es[0]] + (es[1..] + [e]);
      StepThen(w, es[0], es[1..] + [e]);
    }
  }

  lemma NewestAfter(start: Flat, log: seq<Deed>, d: Deed, p: nat)
    ensures var before := NewestOf(start, log, p);
      NewestOf(start, log + [d], p) ==
        if d.Loaded? && d.pid == p then Moment(d.runtime, |log|)
        else if d.Wrote? && d.pid == p && CopyOf(start, log, p, d.ticket).at > before.at then CopyOf(start, log, p, d.ticket)
        else before
  {
    LastDeed(log, d);
  }

  ghost function Newest(w: World, p: nat): Moment
  {
    if p < |w.start| then NewestOf(w.start[p], w.log, p) else Moment(map[], -1)
  }

  ghost function Wanted(w: World, key: string): Option<Value>
  {
    Latest(w.start, w.initial, w.log, key)
  }

  /** `es` leads from `w0` to `w`. */
  ghost predicate Leads(w0: World, es: seq<Event>, w: World)
  {
    Possible(w0, es) && Run(w0, es) == w && Inv(w) && w.start == w0.start && w.schema == w0.schema
  }

  lemma LeadsOn(w0: World, es: seq<Event>, w: World, e: Event)
    requires Leads(w0, es, w) && Enabled(w, e)
    ensures Leads(w0, es + [e], Apply(w, e))
  {
    StepKeeps(w, e);
    StepIsLogged(w, e);
    hide Inv, Apply, Enabled, Possible, Run;
    StepAtEnd(w0, es, e);
  }

  /** One process and one field: the process, its newest loaded or written settings, the
      length of the log, and the field on disk and as the log asks for it. */
  datatype View = View(x: Proc, newest: Moment, now: nat, disk: Option<Value>, wanted: Option<Value>)

  ghost predicate Sees(w0: World, es: seq<Event>, w: World, p: nat, key: string, view: View)
  {
    Leads(w0, es, w) && Looks(w, p, key, view)
  }

  ghost predicate Looks(w: World, p: nat, key: string, view: View)
  {
    && key in w.schema && key in Disk(w) && p < |w.procs| && w.procs[p] == view.x
    && Newest(w, p) == view.newest && |w.log| == view.now
    && Lookup(Disk(w), key) == view.disk && Wanted(w, key) == view.wanted
  }

  /** A step within a process, which leaves the disk alone. */
  predicate Within(x: Proc, p: nat, schema: set<string>, e: Event)
  {
    match e
    case Assign(q, k, _) => q == p && k in schema
    case Load(q, runtime) => q == p && runtime.Keys == schema
    case Copy(q, t, _) => q == p && t !in x.flights
    case Remember(q, t) => q == p && t in x.flights && x.flights[t].remembers
    case _ => false
  }

  function AfterWithin(view: View, e: Event): View
    requires e.Remember? ==> e.ticket in view.x.flights
  {
    var x := view.x;
    match e
    case Assign(_, k, v) => view.(now := view.now + 1, x := x.(runtime := x.runtime[k := v]))
    case Load(_, runtime) =>
      view.(now := view.now + 1, x := x.(runtime := runtime), newest := Moment(runtime, view.now))
    case Copy(_, t, remembers) =>
      view.(now := view.now + 1, x := x.(flights := x.flights[t := Flight(Moment(x.runtime, view.now), remembers)]))
    case Remember(_, t) => view.(now := view.now + 1, x := Landed(x, t, true))
    case _ => view
  }

  lemma LooksWithin(w: World, p: nat, key: string, view: View, e: Event)
    requires Inv(w) && Looks(w, p, key, view) && Within(view.x, p, w.schema, e)
    ensures Enabled(w, e) && Looks(Apply(w, e), p, key, AfterWithin(view, e))
  {
    InvLengths(w);
    hide Inv, Disk, ToWrite;
    assert Enabled(w, e);
    StepIsLogged(w, e);
    StepOfProc(w, e, p);
    DiskAfterOther(w, e);
    var d := DeedOf(w, e).value;
    hide Enabled, Apply, Latest, NewestOf;
    LatestAfterOther(w.start, w.initial, w.log, d, key);
    NewestAfter(w.start[p], w.log, d, p);
  }

  lemma SeesOn(w0: World, es: seq<Event>, w: World, e: Event, p: nat, key: string, view: View)
    requires Leads(w0, es, w) && Enabled(w, e) && Looks(Apply(w, e), p, key, view)
    ensures Sees(w0, es + [e], Apply(w, e), p, key, view)
  {
    hide Leads, Looks, Enabled, Apply;
    LeadsOn(w0, es, w, e);
  }

  lemma StepWithin(w0: World, es: seq<Event>, w: World, p: nat, key: string, view: View, e: Event)
    returns (more: seq<Event>, v: World)
    requires Sees(w0, es, w, p, key, view) && Within(view.x, p, w0.schema, e)
    ensures Sees(w0, more, v, p, key, AfterWithin(view, e))
    ensures forall e' :: e' in more ==> e' in es || e' == e
  {
    hide Inv, Possible, Run, Looks, Enabled, Apply;
    LooksWithin(w, p, key, view, e);
    SeesOn(w0, es, w, e, p, key, AfterWithin(view, e));
    return es + [e], Apply(w, e);
  }

  lemma WantedAfterWrite(w: World, e: Event, key: string)
    requires Inv(w) && Enabled(w, e) && e.Write? && e.ok && Wanted(w, key).Some? && key in w.schema
    ensures var copy := w.procs[e.pid].flights[e.ticket].copy;
      && Newest(Apply(w, e), e.pid) == (if copy.at > Newest(w, e.pid).at then copy else Newest(w, e.pid))
      && Wanted(Apply(w, e), key) == if Changed(copy, Newest(w, e.pid), key) then Lookup(copy.values, key) else Wanted(w, key)
  {
    InvFlight(w, e.pid, e.ticket);
    StepIsLogged(w, e);
    hide Inv, Disk, ToWrite, Enabled, Apply, Latest, NewestOf, CopyOf;
    LatestAfterWrite(w.start, w.initial, w.log, e.pid, e.ticket, key);
    NewestAfter(w.start[e.pid], w.log, Wrote(e.pid, e.ticket), e.pid);
  }

  function AfterWrite(view: View, t: nat, key: string): View
    requires t in view.x.flights && view.x.base.Some?
  {
    var copy := view.x.flights[t].copy;
    View(Landed(view.x, t, true),
         if copy.at > view.newest.at then copy else view.newest,
         view.now + 1,
         if Lookup(copy.values, key) == Lookup(view.x.base.value, key) then view.disk else Lookup(copy.values, key),
         if Changed(copy, view.newest, key) then Lookup(copy.values, key) else view.wanted)
  }

  lemma SomeWrite(w: World, p: nat, t: nat) returns (e: Event)
    requires InFlight(w, p, t, false)
    ensures e.Write? && e.ok && e.pid == p && e.ticket == t && Enabled(w, e)
  {
    var order := SomeOrder(ToWrite(w, p, t).Keys);
    e := Write(p, t, order, true);
    hide ToWrite, Disk;
  }

  lemma SomeEdit(w: World, patch: Flat) returns (e: Event)
    requires patch.Keys <= w.schema
    ensures e.Edit? && e.ok && e.patch == patch && e.expected == Disk(w) && Enabled(w, e)
  {
    hide Disk;
    var order := SomeOrder((Disk(w) + patch).Keys);
    e := Edit(patch, Disk(w), order, true);
  }

  lemma LooksWritten(w: World, p: nat, key: string, view: View, e: Event)
    requires Inv(w) && Enabled(w, e) && e.Write? && e.ok && e.pid == p
    requires Looks(w, p, key, view) && view.wanted.Some?
    ensures view.x.base.Some? && e.ticket in view.x.flights
    ensures Looks(Apply(w, e), p, key, AfterWrite(view, e.ticket, key))
  {
    hide Inv, Disk, Wanted, Newest, ToWrite;
    StepIsLogged(w, e);
    WriteLands(w, e);
    hide Apply;
    FieldAfterWrite(w, e, key);
    WantedAfterWrite(w, e, key);
  }

  lemma StepWrites(w0: World, es: seq<Event>, w: World, p: nat, key: string, view: View, t: nat)
    returns (more: seq<Event>, v: World)
    requires Sees(w0, es, w, p, key, view) && t in view.x.flights && !view.x.flights[t].remembers
    requires view.x.base.Some? && view.wanted.Some?
    ensures Sees(w0, more, v, p, key, AfterWrite(view, t, key))
    ensures forall e :: e in more ==> e in es || e.Write?
  {
    hide Inv, Possible, Run, Looks, Enabled, Apply;
    assert InFlight(w, p, t, false) by { LooksAt(w, p, key, view); }
    var e := SomeWrite(w, p, t);
    LooksWritten(w, p, key, view, e);
    SeesOn(w0, es, w, e, p, key, AfterWrite(view, t, key));
    return es + [e], Apply(w, e);
  }

  lemma LooksEdited(w: World, p: nat, key: string, view: View, v: Value, e: Event)
    requires Inv(w) && Looks(w, p, key, view)
    requires e.Edit? && e.ok && e.expected == Disk(w) && e.patch == map[key := v] && Enabled(w, e)
    ensures Looks(Apply(w, e), p, key, view.(now := view.now + 1, disk := Some(v), wanted := Some(v)))
  {
    InvLengths(w);
    hide Inv, Disk;
    StepIsLogged(w, e);
    EditKeepsProcs(w, e);
    DiskAfterOther(w, e);
    hide Enabled, Apply, Latest, NewestOf;
    LatestAfterOther(w.start, w.initial, w.log, Edited(e.patch), key);
    NewestAfter(w.start[p], w.log, Edited(e.patch), p);
  }

  lemma LooksAt(w: World, p: nat, key: string, view: View)
    requires Looks(w, p, key, view)
    ensures p < |w.procs| && w.procs[p] == view.x && key in w.schema
  {
  }

  lemma StepEdits(w0: World, es: seq<Event>, w: World, p: nat, key: string, view: View, v: Value)
    returns (more: seq<Event>, next: World)
    requires Sees(w0, es, w, p, key, view)
    ensures Sees(w0, more, next, p, key, view.(now := view.now + 1, disk := Some(v), wanted := Some(v)))
    ensures forall e :: e in more ==> e in es || (e.Edit? && e.patch == map[key := v])
  {
    hide Inv, Possible, Run, Looks, Enabled, Apply;
    LooksAt(w, p, key, view);
    var e := SomeEdit(w, map[key := v]);
    LooksEdited(w, p, key, view, v, e);
    SeesOn(w0, es, w, e, p, key, view.(now := view.now + 1, disk := Some(v), wanted := Some(v)));
    return es + [e], Apply(w, e);
  }

  lemma FreshStart(w: World, p: nat, key: string) returns (view: View)
    requires Initial(w) && p < |w.procs| && key in w.schema && key in w.initial
    ensures p < |w.start| && w.start[p].Keys == w.schema && Sees(w, [], w, p, key, view)
    ensures view == View(Proc(w.start[p], Some(w.start[p]), map[]), Moment(w.start[p], -1), 0, Some(w.initial[key]), Some(w.initial[key]))
  {
    InitialIsSound(w);
    NoSteps(w);
    view := View(w.procs[p], Newest(w, p), 0, Lookup(Disk(w), key), Wanted(w, key));
  }

  lemma SeesField(w0: World, es: seq<Event>, w: World, p: nat, key: string, view: View)
    requires Sees(w0, es, w, p, key, view)
    ensures Possible(w0, es) && Run(w0, es) == w && p < |w.procs| && w.procs[p] == view.x
    ensures Lookup(Disk(w), key) == view.disk && Latest(w.start, w.initial, w.log, key) == view.wanted
  {
  }

  lemma TwoCopies(w: World, p: nat, key: string, x: Value, y: Value) returns (es: seq<Event>, v: World)
    requires Initial(w) && p < |w.procs| && key in w.schema && key in w.initial
    ensures p < |w.start|
    ensures var start, initial := w.start[p], Some(w.initial[key]);
      Sees(w, es, v, p, key, View(
        Proc(start[key := y], Some(start),
          map[1 := Flight(Moment(start[key := x], 1), false), 2 := Flight(Moment(start[key := y], 3), false)]),
        Moment(start, -1), 4, initial, initial))
  {
    hide Initial, Sees;
    var view := FreshStart(w, p, key);
    assert w.start[p][key := x][key := y] == w.start[p][key := y];
    var steps := [Assign(p, key, x), Copy(p, 1, false), Assign(p, key, y), Copy(p, 2, false)];
    es, v := StepWithin(w, [], w, p, key, view, steps[0]);
    view := AfterWithin(view, steps[0]);
    es, v := StepWithin(w, es, v, p, key, view, steps[1]);
    view := AfterWithin(view, steps[1]);
    es, v := StepWithin(w, es, v, p, key, view, steps[2]);
    view := AfterWithin(view, steps[2]);
    es, v := StepWithin(w, es, v, p, key, view, steps[3]);
  }

  /** Two goroutines of one process write. The first copies the field as `x`; the field is
      then set to `y`, copied and written by the second; and the first, whose turn comes
      last, counts `x` for a change and puts it back. So it goes in every world. */
  lemma OldCopyComesBack(w: World, p: nat, key: string, x: Value, y: Value) returns (es: seq<Event>)
    requires Initial(w) && p < |w.procs| && key in w.schema && key in w.initial && p < |w.start|
    requires x != y && Lookup(w.start[p], key) != Some(y)
    ensures Possible(w, es)
    ensures var v := Run(w, es);
      && Lookup(Disk(v), key) == Some(x)
      && p < |v.procs| && Lookup(v.procs[p].runtime, key) == Some(y)
      && Latest(v.start, v.initial, v.log, key) == Some(y)
  {
    hide Initial, Sees, Possible, Run, Disk, Latest;
    var v;
    es, v := TwoCopies(w, p, key, x, y);
    var start, initial := w.start[p], Some(w.initial[key]);
    var view := View(
      Proc(start[key := y], Some(start),
        map[1 := Flight(Moment(start[key := x], 1), false), 2 := Flight(Moment(start[key := y], 3), false)]),
      Moment(start, -1), 4, initial, initial);
    es, v := StepWrites(w, es, v, p, key, view, 2);
    view := AfterWrite(view, 2, key);
    es, v := StepWrites(w, es, v, p, key, view, 1);
    SeesField(w, es, v, p, key, AfterWrite(view, 1, key));
  }

  lemma EditIsReloaded(w: World, p: nat, key: string, v: Value) returns (es: seq<Event>, u: World)
    requires Initial(w) && p < |w.procs| && key in w.schema && key in w.initial
    ensures forall e :: e in es ==> !e.Assign? && (e.Edit? ==> e.patch == map[key := v])
    ensures p < |w.start|
    ensures var start, edited := w.start[p], w.start[p][key := v];
      Sees(w, es, u, p, key, View(
        Proc(edited, Some(edited), map[1 := Flight(Moment(start, 0), false)]), Moment(edited, 2), 5, Some(v), Some(v)))
  {
    hide Initial, Sees;
    var view := FreshStart(w, p, key);
    var steps := [Copy(p, 1, false), Load(p, w.start[p][key := v]), Copy(p, 2, true), Remember(p, 2)];
    es, u := StepWithin(w, [], w, p, key, view, steps[0]);
    view := AfterWithin(view, steps[0]);
    es, u := StepEdits(w, es, u, p, key, view, v);
    view := view.(now := view.now + 1, disk := Some(v), wanted := Some(v));
    es, u := StepWithin(w, es, u, p, key, view, steps[1]);
    view := AfterWithin(view, steps[1]);
    es, u := StepWithin(w, es, u, p, key, view, steps[2]);
    view := AfterWithin(view, steps[2]);
    es, u := StepWithin(w, es, u, p, key, view, steps[3]);
    assert AfterWithin(view, steps[3]).x.flights == map[1 := Flight(Moment(w.start[p], 0), false)];
  }

  /** A web edit is undone by a write that has nothing to do with it, of a process that never
      changed the field: its settings were copied before the process reloaded the edit. */
  lemma LateWriteUndoesEdit(w: World, p: nat, key: string, v: Value) returns (es: seq<Event>)
    requires Initial(w) && p < |w.procs| && key in w.schema && key in w.initial && p < |w.start|
    requires key in w.start[p] && w.start[p][key] != v
    ensures Possible(w, es) && forall e :: e in es ==> !e.Assign? && (e.Edit? ==> e.patch == map[key := v])
    ensures var u := Run(w, es);
      && Lookup(Disk(u), key) == Some(w.start[p][key])
      && p < |u.procs| && Lookup(u.procs[p].runtime, key) == Some(v)
      && Latest(u.start, u.initial, u.log, key) == Some(v)
  {
    hide Initial, Sees, Possible, Run, Disk, Latest;
    var u;
    es, u := EditIsReloaded(w, p, key, v);
    var start, edited := w.start[p], w.start[p][key := v];
    var view := View(
      Proc(edited, Some(edited), map[1 := Flight(Moment(start, 0), false)]), Moment(edited, 2), 5, Some(v), Some(v));
    es, u := StepWrites(w, es, u, p, key, view, 1);
    SeesField(w, es, u, p, key, AfterWrite(view, 1, key));
  }

  /** The smallest case: one process that has loaded a file of one field. */
  lemma EditIsLost(z: Value, v: Value) returns (w: World, es: seq<Event>)
    requires z != v
    ensures Initial(w) && |w.procs| == 1 && w.initial == map["A" := z]
    ensures Possible(w, es) && forall e :: e in es ==> !e.Assign? && (e.Edit? ==> e.patch == map["A" := v])
    ensures Lookup(Disk(Run(w, es)), "A") == Some(z)
    ensures Latest(w.start, w.initial, Run(w, es).log, "A") == Some(v) && Run(w, es).start == w.start
  {
    w := InitialWorld(z);
    es := LateWriteUndoesEdit(w, 0, "A", v);
    hide Initial, Possible, Run, Disk, Latest;
    RunKeepsStart(w, es);
  }

  lemma {:induction false} RunKeepsStart(w: World, es: seq<Event>)
    requires Possible(w, es)
    ensures Run(w, es).start == w.start && Run(w, es).initial == w.initial
    decreases |es|
  {
    if es != [] {
      StepKeepsStart(w, es[0]);
      hide Apply, Enabled;
      RunKeepsStart(Apply(w, es[0]), es[1..]);
    }
  }

  lemma StepKeepsStart(w: World, e: Event)
    requires Enabled(w, e)
    ensures Apply(w, e).start == w.start && Apply(w, e).initial == w.initial
  {
    hide Unflatten, FlatOf, ToWrite;
  }

  lemma ChangeIsRemembered(w: World, p: nat, key: string, y: Value) returns (es: seq<Event>, v: World)
    requires Initial(w) && p < |w.procs| && key in w.schema && key in w.initial
    ensures p < |w.start|
    ensures var changed, initial := w.start[p][key := y], Some(w.initial[key]);
      Sees(w, es, v, p, key, View(
        Proc(changed, Some(changed), map[2 := Flight(Moment(changed, 4), false)]), Moment(w.start[p], 0), 5, initial, initial))
  {
    hide Initial, Sees;
    var view := FreshStart(w, p, key);
    var steps := [Load(p, w.start[p]), Assign(p, key, y), Copy(p, 1, true), Remember(p, 1), Copy(p, 2, false)];
    es, v := StepWithin(w, [], w, p, key, view, steps[0]);
    view := AfterWithin(view, steps[0]);
    es, v := StepWithin(w, es, v, p, key, view, steps[1]);
    view := AfterWithin(view, steps[1]);
    es, v := StepWithin(w, es, v, p, key, view, steps[2]);
    view := AfterWithin(view, steps[2]);
    es, v := StepWithin(w, es, v, p, key, view, steps[3]);
    view := AfterWithin(view, steps[3]);
    assert view.x.flights == map[];
    es, v := StepWithin(w, es, v, p, key, view, steps[4]);
  }

  /** A field that is set between the two halves of a reload does not reach the disk with the
      next write: it was remembered as if it had been loaded. */
  lemma ReloadSwallowsChange(w: World, p: nat, key: string, y: Value) returns (es: seq<Event>)
    requires Initial(w) && p < |w.procs| && key in w.schema && key in w.initial && p < |w.start|
    requires Lookup(w.start[p], key) != Some(y)
    ensures Possible(w, es)
    ensures var v := Run(w, es);
      && Lookup(Disk(v), key) == Some(w.initial[key])
      && p < |v.procs| && v.procs[p].flights == map[]
      && Lookup(v.procs[p].runtime, key) == Some(y) && v.procs[p].base == Some(v.procs[p].runtime)
      && Latest(v.start, v.initial, v.log, key) == Some(y)
  {
    hide Initial, Sees, Possible, Run, Disk, Latest;
    var v;
    es, v := ChangeIsRemembered(w, p, key, y);
    var changed, initial := w.start[p][key := y], Some(w.initial[key]);
    var view := View(
      Proc(changed, Some(changed), map[2 := Flight(Moment(changed, 4), false)]), Moment(w.start[p], 0), 5, initial, initial);
    es, v := StepWrites(w, es, v, p, key, view, 2);
    SeesField(w, es, v, p, key, AfterWrite(view, 2, key));
  }
}
