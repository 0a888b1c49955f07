/** What enabling a built-in mod does to the list, exactly (`modupdate/builtin.go`). */
module BuiltinTheorems {
  import opened Wrappers
  import opened Text
  import opened Versions
  import opened ModDeps
  import opened BuiltinMods

  // ------------------------------------------------------------------- reachability

  /** A dependency that is followed, given the list as it was before anything changed. */
  ghost predicate Edge(bundle: Bundle, list: seq<Mod>, a: string, b: string)
  {
    && a in bundle
    && exists k :: 0 <= k < |bundle[a].deps| && Followed(bundle[a].deps[k], list) && BundledDep(bundle[a].deps[k]).name == b
  }

  ghost predicate IsWalk(bundle: Bundle, list: seq<Mod>, p: seq<string>)
  {
    p != [] && forall i :: 0 <= i < |p| - 1 ==> Edge(bundle, list, p[i], p[i + 1])
  }

  ghost predicate Reaches(bundle: Bundle, list: seq<Mod>, a: string, b: string)
  {
    exists p :: IsWalk(bundle, list, p) && p[0] == a && p[|p| - 1] == b
  }

  lemma ReachesItself(bundle: Bundle, list: seq<Mod>, a: string)
    ensures Reaches(bundle, list, a, a)
  {
    assert IsWalk(bundle, list, [a]);
  }

  lemma ReachesByEdge(bundle: Bundle, list: seq<Mod>, a: string, b: string, c: string)
    requires Edge(bundle, list, a, b) && Reaches(bundle, list, b, c)
    ensures Reaches(bundle, list, a, c)
  {
    hide Edge;
    var p :| IsWalk(bundle, list, p) && p[0] == b && p[|p| - 1] == c;
    var q := [a] + p;
    forall i | 0 <= i < |q| - 1 ensures Edge(bundle, list, q[i], q[i + 1]) {
      if i > 0 { assert Edge(bundle, list, p[i - 1], p[i]); }
    }
    assert IsWalk(bundle, list, q);
  }

  ghost predicate Closed(bundle: Bundle, list: seq<Mod>, seen: set<string>)
  {
    forall a, b :: a in seen && Edge(bundle, list, a, b) ==> b in seen
  }

  lemma {:induction false} WalkStaysInside(bundle: Bundle, list: seq<Mod>, seen: set<string>, p: seq<string>)
    requires Closed(bundle, list, seen) && IsWalk(bundle, list, p) && p[0] in seen
    ensures p[|p| - 1] in seen
    decreases |p|
  {
    hide Edge;
    if |p| > 1 {
      assert Edge(bundle, list, p[0], p[1]);
      var q := p[1..];
      forall i | 0 <= i < |q| - 1 ensures Edge(bundle, list, q[i], q[i + 1]) {
        assert Edge(bundle, list, p[i + 1], p[i + 2]);
      }
      WalkStaysInside(bundle, list, seen, q);
    }
  }

  // ------------------------------------------------------- the list during the search

  /** `now` is `list` with the mods of `on` switched on: their first entries, or new ones at
      the end; everything else is as it was. */
  ghost predicate SwitchedOn(list: seq<Mod>, on: set<string>, now: seq<Mod>)
  {
    && |list| <= |now|
    && (forall i :: 0 <= i < |list| ==>
          now[i] == Mod(list[i].name, list[i].enabled || (list[i].name in on && IndexOf(list, list[i].name) == i)))
    && Appended(list, on, now)
  }

  /** The entries past those of `list` are one for each mod of `on` that it does not name. */
  ghost predicate Appended(list: seq<Mod>, on: set<string>, now: seq<Mod>)
    requires |list| <= |now|
  {
    && (forall i :: |list| <= i < |now| ==> now[i].enabled && now[i].name in on && IndexOf(list, now[i].name) == |list|)
    && (forall i, j :: |list| <= i < j < |now| ==> now[i].name != now[j].name)
    && (forall n :: n in on && IndexOf(list, n) == |list| ==> exists i :: |list| <= i < |now| && now[i].name == n)
  }

  lemma NothingSwitched(list: seq<Mod>)
    ensures SwitchedOn(list, {}, list)
  {
  }

  lemma FirstIndex(list: seq<Mod>, name: string, i: nat)
    requires i < |list| && list[i].name == name && forall j :: 0 <= j < i ==> list[j].name != name
    ensures IndexOf(list, name) == i
  {
  }

  lemma AppendedStays(list: seq<Mod>, on: set<string>, now: seq<Mod>, i: nat, m: Mod)
    requires |list| <= |now| && i < |list| && Appended(list, on, now) && IndexOf(list, m.name) < |list|
    ensures Appended(list, on + {m.name}, now[i := m])
  {
    hide IndexOf;
    var next := now[i := m];
    forall n | n in on + {m.name} && IndexOf(list, n) == |list| ensures exists k :: |list| <= k < |next| && next[k].name == n {
      var k :| |list| <= k < |now| && now[k].name == n;
      assert next[k].name == n;
    }
  }

  lemma SwitchedInPlace(list: seq<Mod>, on: set<string>, now: seq<Mod>, name: string)
    requires SwitchedOn(list, on, now) && name !in on && IndexOf(list, name) < |list|
    ensures SwitchedOn(list, on + {name}, Switched(now, name, true))
  {
    hide IndexOf, Appended;
    var i := IndexOf(list, name);
    FirstIndex(now, name, i);
    assert Switched(now, name, true) == now[i := Mod(name, true)];
    AppendedStays(list, on, now, i, Mod(name, true));
    hide Switched;
  }

  lemma SwitchedAtEnd(list: seq<Mod>, on: set<string>, now: seq<Mod>, name: string)
    requires SwitchedOn(list, on, now) && name !in on && IndexOf(list, name) == |list|
    ensures SwitchedOn(list, on + {name}, Switched(now, name, true))
  {
    hide IndexOf;
    assert forall k :: 0 <= k < |now| ==> now[k].name != name;
    var next := now + [Mod(name, true)];
    assert Switched(now, name, true) == next;
    hide Switched;
    forall n | n in on + {name} && IndexOf(list, n) == |list| ensures exists k :: |list| <= k < |next| && next[k].name == n {
      if n == name {
        assert next[|now|].name == n;
      } else {
        var k :| |list| <= k < |now| && now[k].name == n;
        assert next[k].name == n;
      }
    }
  }

  lemma OneMoreSwitched(list: seq<Mod>, on: set<string>, now: seq<Mod>, name: string)
    requires SwitchedOn(list, on, now) && name !in on
    ensures SwitchedOn(list, on + {name}, Switched(now, name, true))
  {
    hide SwitchedOn, Switched;
    if IndexOf(list, name) < |list| {
      SwitchedInPlace(list, on, now, name);
    } else {
      SwitchedAtEnd(list, on, now, name);
    }
  }

  /** Only a mod that was switched on stops being disabled. */
  lemma DisabledStays(list: seq<Mod>, on: set<string>, now: seq<Mod>, name: string)
    requires SwitchedOn(list, on, now)
    ensures Disabled(now, name) ==> Disabled(list, name)
    ensures Disabled(list, name) && !Disabled(now, name) ==> name in on
  {
    if Disabled(list, name) {
      var i :| 0 <= i < |list| && list[i].name == name && !list[i].enabled;
      assert now[i].name == name;
    }
    if Disabled(now, name) {
      var i :| 0 <= i < |now| && now[i].name == name && !now[i].enabled;
      assert list[i].name == name && !list[i].enabled;
    }
  }

  lemma FollowedStays(list: seq<Mod>, on: set<string>, now: seq<Mod>, raw: string)
    requires SwitchedOn(list, on, now)
    ensures Followed(raw, list) ==> Followed(raw, now)
    ensures Followed(raw, now) && !Followed(raw, list) ==> BundledDep(raw).name in on
  {
    DisabledStays(list, on, now, BundledDep(raw).name);
    hide SwitchedOn, Disabled, BundledDep, IsRecommended;
  }

  // ----------------------------------------------------------------- the search

  /** What a finished stretch of the search has done, from `s` to `t`, starting at `root`:
      the list shows it, what is newly seen is closed up and was reached. */
  ghost predicate Done(bundle: Bundle, list: seq<Mod>, root: string, s: State, t: State)
  {
    && SwitchedOn(list, t.seen, t.list) && s.seen <= t.seen <= bundle.Keys
    && (forall m :: m in t.seen && m !in s.seen ==> Reaches(bundle, list, root, m))
    && (forall m, b :: m in t.seen && m !in s.seen && Edge(bundle, list, m, b) ==> b in t.seen)
  }

  /** A dependency that is followed and not bundled, at a mod that was reached. */
  ghost predicate Stuck(bundle: Bundle, list: seq<Mod>, root: string, e: Error)
  {
    e.Unavailable? && Reaches(bundle, list, root, e.mod) && Edge(bundle, list, e.mod, e.dep) && e.dep !in bundle
  }

  lemma {:induction false} Visit(bundle: Bundle, list: seq<Mod>, s: State, name: string)
    requires name in bundle && s.seen <= bundle.Keys && SwitchedOn(list, s.seen, s.list)
    ensures var r := Enable(bundle, s, name);
      if r.error.None? then Done(bundle, list, name, s, r.state) && name in r.state.seen
      else Stuck(bundle, list, name, r.error.value)
    decreases |bundle.Keys - s.seen|, 1, 0
  {
    if name !in s.seen {
      var next := State(Switched(s.list, name, true), s.seen + {name});
      Smaller(bundle.Keys, s.seen, name);
      OneMoreSwitched(list, s.seen, s.list, name);
      VisitDeps(bundle, list, next, name, 0);
      ReachesItself(bundle, list, name);
      hide SwitchedOn, Switched, EnableDeps, Reaches;
      var r := EnableDeps(bundle, next, name, 0);
      if r.error.None? {
        EdgesSeen(bundle, list, name, r.state);
      }
    }
  }

  /** Every followed dependency of `name` from the `k`th on is seen. */
  ghost predicate DepsSeen(bundle: Bundle, list: seq<Mod>, name: string, k: nat, seen: set<string>)
    requires name in bundle
  {
    forall i :: k <= i < |bundle[name].deps| && Followed(bundle[name].deps[i], list) ==> BundledDep(bundle[name].deps[i]).name in seen
  }

  lemma EdgesSeen(bundle: Bundle, list: seq<Mod>, name: string, t: State)
    requires name in bundle && DepsSeen(bundle, list, name, 0, t.seen)
    ensures forall b :: Edge(bundle, list, name, b) ==> b in t.seen
  {
  }

  lemma {:induction false} VisitDeps(bundle: Bundle, list: seq<Mod>, s: State, name: string, k: nat)
    requires name in bundle && k <= |bundle[name].deps| && s.seen <= bundle.Keys && SwitchedOn(list, s.seen, s.list)
    ensures var r := EnableDeps(bundle, s, name, k);
      if r.error.None? then Done(bundle, list, name, s, r.state) && DepsSeen(bundle, list, name, k, r.state.seen)
      else Stuck(bundle, list, name, r.error.value)
    decreases |bundle.Keys - s.seen|, 2, |bundle[name].deps| - k
  {
    hide SwitchedOn, Followed, BundledDep, Reaches;
    if k < |bundle[name].deps| {
      var raw := bundle[name].deps[k];
      var dep := BundledDep(raw).name;
      FollowedStays(list, s.seen, s.list, raw);
      if !Followed(raw, s.list) {
        VisitDeps(bundle, list, s, name, k + 1);
      } else if dep !in bundle {
        assert Edge(bundle, list, name, dep);
        ReachesItself(bundle, list, name);
      } else {
        Visit(bundle, list, s, dep);
        var r := Enable(bundle, s, dep);
        if Followed(raw, list) {
          assert Edge(bundle, list, name, dep);
          StepBack(bundle, list, name, dep, s, r);
        } else {
          SeenBefore(bundle, list, name, dep, s);
        }
        if r.error.None? {
          FewerLeft(bundle.Keys, s.seen, r.state.seen);
          VisitDeps(bundle, list, r.state, name, k + 1);
          var t := EnableDeps(bundle, r.state, name, k + 1);
          if t.error.None? { Chain(bundle, list, name, s, r.state, t.state); }
        }
      }
    }
  }

  /** What was done from a dependency was done from the mod that has it. */
  lemma StepBack(bundle: Bundle, list: seq<Mod>, name: string, dep: string, s: State, r: Outcome)
    requires Edge(bundle, list, name, dep)
    requires if r.error.None? then Done(bundle, list, dep, s, r.state) else Stuck(bundle, list, dep, r.error.value)
    ensures if r.error.None? then Done(bundle, list, name, s, r.state) else Stuck(bundle, list, name, r.error.value)
  {
    hide Edge, Reaches, SwitchedOn;
    if r.error.None? {
      forall m | m in r.state.seen && m !in s.seen ensures Reaches(bundle, list, name, m) {
        ReachesByEdge(bundle, list, name, dep, m);
      }
    } else {
      ReachesByEdge(bundle, list, name, dep, r.error.value.mod);
    }
  }

  lemma SeenBefore(bundle: Bundle, list: seq<Mod>, name: string, dep: string, s: State)
    requires dep in bundle && dep in s.seen && s.seen <= bundle.Keys && SwitchedOn(list, s.seen, s.list)
    ensures Enable(bundle, s, dep) == Outcome(s, None)
    ensures Done(bundle, list, name, s, s)
  {
    hide SwitchedOn;
  }

  lemma Chain(bundle: Bundle, list: seq<Mod>, name: string, s: State, m: State, t: State)
    requires Done(bundle, list, name, s, m) && Done(bundle, list, name, m, t)
    ensures Done(bundle, list, name, s, t)
  {
    hide Edge, Reaches, SwitchedOn;
  }

  // ---------------------------------------------------------------- the theorems

  /** The bundled mods a mod reaches through required dependencies, and through recommended
      ones on mods the list does not disable. */
  ghost function Reach(bundle: Bundle, list: seq<Mod>, name: string): set<string>
  {
    set m | m in bundle && Reaches(bundle, list, name, m)
  }

  lemma SeenIsReach(bundle: Bundle, list: seq<Mod>, name: string)
    requires name in bundle && Enable(bundle, State(list, {}), name).error.None?
    ensures Enable(bundle, State(list, {}), name).state.seen == Reach(bundle, list, name)
    ensures SwitchedOn(list, Reach(bundle, list, name), Enable(bundle, State(list, {}), name).state.list)
    ensures Closed(bundle, list, Reach(bundle, list, name))
  {
    NothingSwitched(list);
    Visit(bundle, list, State(list, {}), name);
    hide SwitchedOn, Enable, Edge;
    var seen := Enable(bundle, State(list, {}), name).state.seen;
    assert Closed(bundle, list, seen);
    forall m | m in Reach(bundle, list, name) ensures m in seen {
      var p :| IsWalk(bundle, list, p) && p[0] == name && p[|p| - 1] == m;
      WalkStaysInside(bundle, list, seen, p);
    }
  }

  /** On success exactly the mods that are reached are switched on, each by its first entry or
      a new one; nothing is switched off and no other entry is touched. The graph may have
      cycles. */
  lemma EnablesExactlyReach(bundle: Bundle, list: seq<Mod>, name: string)
    requires SetEnabled(bundle, list, name, true).Ok?
    ensures SwitchedOn(list, Reach(bundle, list, name), SetEnabled(bundle, list, name, true).value)
    ensures name in Reach(bundle, list, name) && Closed(bundle, list, Reach(bundle, list, name))
  {
    SeenIsReach(bundle, list, name);
    ReachesItself(bundle, list, name);
    hide SwitchedOn, Enable, Reaches, Edge;
  }

  /** It succeeds exactly when the mod is bundled and so is every mod that a mod it reaches
      depends on by a followed dependency. */
  lemma EnableSucceedsIff(bundle: Bundle, list: seq<Mod>, name: string)
    ensures SetEnabled(bundle, list, name, true).Ok? <==>
      name in bundle && forall a, b :: a in Reach(bundle, list, name) && Edge(bundle, list, a, b) ==> b in bundle
  {
    if name in bundle {
      NothingSwitched(list);
      Visit(bundle, list, State(list, {}), name);
      var r := Enable(bundle, State(list, {}), name);
      if r.error.None? {
        SeenIsReach(bundle, list, name);
        hide SwitchedOn, Enable, Edge, Reaches;
      } else {
        hide SwitchedOn, Enable, Reaches;
        var e := r.error.value;
        assert e.mod in bundle && e.mod in Reach(bundle, list, name);
        assert Edge(bundle, list, e.mod, e.dep);
      }
    }
  }

  // --------------------------------------------------------------- the validator

  /** Whether the validator takes a mod for enabled: the last entry says, and a bundled mod
      without one is. */
  function IsOn(bundle: Bundle, list: seq<Mod>, name: string): bool
  {
    if list == [] then name in bundle
    else if list[|list| - 1].name == name then list[|list| - 1].enabled
    else IsOn(bundle, list[..|list| - 1], name)
  }

  /** A dependency the validator insists on. */
  predicate IsRequired(raw: string)
  {
    !IsRecommended(raw) && !ParseDep(raw).optional && !ParseDep(raw).incompatible
  }

  predicate VersionFits(bundle: Bundle, raw: string)
  {
    var dep := ParseDep(raw);
    dep.version == "" || (dep.name in bundle && CheckVersion(dep.op, dep.version, bundle[dep.name].version) == Ok(true))
  }

  /** What `ValidateBuiltinModDependencies` accepts. */
  ghost predicate Valid(bundle: Bundle, list: seq<Mod>)
  {
    forall m, k :: m in bundle && IsOn(bundle, list, m) && 0 <= k < |bundle[m].deps| && IsRequired(bundle[m].deps[k]) ==>
      var raw := bundle[m].deps[k];
      ParseDep(raw).name in bundle && IsOn(bundle, list, ParseDep(raw).name) && VersionFits(bundle, raw)
  }

  /** The list names a mod more than once: a switch changes its first entry, and the validator
      reads its last. */
  ghost predicate Twice(list: seq<Mod>, name: string)
  {
    exists i, j :: 0 <= i < j < |list| && list[i].name == name && list[j].name == name
  }

  /** The last entry of a name; there is one. */
  lemma {:induction false} LastEntry(bundle: Bundle, list: seq<Mod>, name: string) returns (i: nat)
    requires IndexOf(list, name) < |list|
    ensures IndexOf(list, name) <= i < |list| && list[i].name == name && IsOn(bundle, list, name) == list[i].enabled
    ensures forall j :: i < j < |list| ==> list[j].name != name
    decreases |list|
  {
    var rest := list[..|list| - 1];
    if list[|list| - 1].name == name {
      i := |list| - 1;
    } else {
      FirstIndex(rest, name, IndexOf(list, name));
      i := LastEntry(bundle, rest, name);
      assert forall j :: 0 <= j < |rest| ==> rest[j] == list[j];
    }
  }

  lemma {:induction false} WithoutEntry(bundle: Bundle, list: seq<Mod>, name: string)
    requires forall i :: 0 <= i < |list| ==> list[i].name != name
    ensures IsOn(bundle, list, name) == (name in bundle)
    decreases |list|
  {
    if list != [] { WithoutEntry(bundle, list[..|list| - 1], name); }
  }

  lemma OnByLast(bundle: Bundle, list: seq<Mod>, name: string, i: nat)
    requires i < |list| && list[i].name == name && forall j :: i < j < |list| ==> list[j].name != name
    ensures IsOn(bundle, list, name) == list[i].enabled
  {
    assert IndexOf(list, name) < |list|;
    var k := LastEntry(bundle, list, name);
    assert k == i;
  }

  lemma TwiceIff(bundle: Bundle, list: seq<Mod>, name: string, last: nat)
    requires IndexOf(list, name) <= last < |list| && list[last].name == name
    requires forall j :: last < j < |list| ==> list[j].name != name
    ensures Twice(list, name) <==> IndexOf(list, name) != last
  {
    if Twice(list, name) {
      var i, j :| 0 <= i < j < |list| && list[i].name == name && list[j].name == name;
      assert IndexOf(list, name) <= i && j <= last;
    }
  }

  /** A mod is on afterwards exactly when it was, or was reached and is not listed twice. */
  lemma OnAfterwards(bundle: Bundle, list: seq<Mod>, on: set<string>, now: seq<Mod>, name: string)
    requires SwitchedOn(list, on, now) && on <= bundle.Keys
    ensures IsOn(bundle, now, name) <==> IsOn(bundle, list, name) || (name in on && !Twice(list, name))
  {
    hide Twice;
    if IndexOf(list, name) < |list| {
      var last := LastEntry(bundle, list, name);
      TwiceIff(bundle, list, name, last);
      OnByLast(bundle, now, name, last);
    } else {
      WithoutEntry(bundle, list, name);
      assert !Twice(list, name) by { NotTwice(list, name); }
      if name in on {
        var k :| |list| <= k < |now| && now[k].name == name;
        OnByLast(bundle, now, name, k);
      } else {
        WithoutEntry(bundle, now, name);
      }
    }
  }

  lemma NotTwice(list: seq<Mod>, name: string)
    requires forall i :: 0 <= i < |list| ==> list[i].name != name
    ensures !Twice(list, name)
  {
  }

  /** The enabler and the validator read a required dependency alike. */
  lemma RequiredIsFollowed(raw: string, list: seq<Mod>)
    requires !IsRecommended(raw)
    ensures BundledDep(raw) == ParseDep(raw)
    ensures IsRequired(raw) <==> Followed(raw, list)
  {
    TrimIsIdempotent(raw, IsSpace);
    assert Trim(Trim(raw)) == Trim(raw);
    assert TrimPrefix(Trim(raw), "+") == Trim(raw);
    hide Trim, ParseBody, WithoutMarks, IsOptional;
    assert ParseDep(Trim(raw)) == ParseDep(raw);
  }

  lemma RequiredIsEdge(bundle: Bundle, list: seq<Mod>, m: string, k: nat)
    requires m in bundle && k < |bundle[m].deps| && IsRequired(bundle[m].deps[k])
    ensures Edge(bundle, list, m, ParseDep(bundle[m].deps[k]).name)
  {
    RequiredIsFollowed(bundle[m].deps[k], list);
    hide Followed, BundledDep, ParseDep;
  }

  /** Enabling a mod in a list that the validator accepts gives a list it accepts exactly when
      each mod that is reached, and not listed twice, finds the versions it asks for, and no
      mod it requires is listed twice with a last entry that is off. */
  lemma EnablingKeepsValidIff(bundle: Bundle, list: seq<Mod>, name: string)
    requires Valid(bundle, list) && SetEnabled(bundle, list, name, true).Ok?
    ensures Valid(bundle, SetEnabled(bundle, list, name, true).value) <==>
      forall m, k :: m in Reach(bundle, list, name) && !Twice(list, m)
                     && 0 <= k < |bundle[m].deps| && IsRequired(bundle[m].deps[k]) ==>
        var raw := bundle[m].deps[k];
        VersionFits(bundle, raw) && (Twice(list, ParseDep(raw).name) ==> IsOn(bundle, list, ParseDep(raw).name))
  {
    var now := SetEnabled(bundle, list, name, true).value;
    var on := Reach(bundle, list, name);
    EnablesExactlyReach(bundle, list, name);
    EnableSucceedsIff(bundle, list, name);
    assert forall m :: m in on ==> m in bundle;
    hide SetEnabled, SwitchedOn, IsRequired, VersionFits, ParseDep, Edge, Twice, Reach, IsOn;
    forall m ensures IsOn(bundle, now, m) <==> IsOn(bundle, list, m) || (m in on && !Twice(list, m)) {
      OnAfterwards(bundle, list, on, now, m);
    }
    forall m, k | m in on && 0 <= k < |bundle[m].deps| && IsRequired(bundle[m].deps[k])
      ensures ParseDep(bundle[m].deps[k]).name in bundle && ParseDep(bundle[m].deps[k]).name in on
    {
      RequiredIsEdge(bundle, list, m, k);
    }
  }

  /** Disabling a mod keeps such a list valid exactly when no other enabled mod requires it,
      or the list names it twice, so that the validator does not see the switch. */
  lemma DisablingKeepsValidIff(bundle: Bundle, list: seq<Mod>, name: string)
    requires Valid(bundle, list) && SetEnabled(bundle, list, name, false).Ok?
    ensures Valid(bundle, SetEnabled(bundle, list, name, false).value) <==>
      Twice(list, name) ||
      forall m, k :: m in bundle && m != name && IsOn(bundle, list, m) && 0 <= k < |bundle[m].deps| ==>
        IsRequired(bundle[m].deps[k]) ==> ParseDep(bundle[m].deps[k]).name != name
  {
    var now := SetEnabled(bundle, list, name, false).value;
    assert now == Switched(list, name, false);
    hide SetEnabled, IsRequired, VersionFits, ParseDep, IsOn, Switched, Twice;
    forall m ensures IsOn(bundle, now, m) <==> IsOn(bundle, list, m) && (m != name || Twice(list, name)) {
      OffAfterwards(bundle, list, name, m);
    }
  }

  lemma OffAfterwards(bundle: Bundle, list: seq<Mod>, name: string, m: string)
    ensures IsOn(bundle, Switched(list, name, false), m) <==> IsOn(bundle, list, m) && (m != name || Twice(list, name))
  {
    hide Twice;
    var now := Switched(list, name, false);
    if IndexOf(list, m) < |list| {
      var last := LastEntry(bundle, list, m);
      TwiceIff(bundle, list, m, last);
      OnByLast(bundle, now, m, last);
    } else {
      WithoutEntry(bundle, list, m);
      assert !Twice(list, m) by { NotTwice(list, m); }
      if m == name { OnByLast(bundle, now, m, |list|); } else { WithoutEntry(bundle, now, m); }
    }
  }
}
